/**
 * The three pieces of JavaScript string handling that the browser controller
 * relies on: `String.prototype.trim`, `parseInt(s, 10)` and the conversion of
 * an integral number to its decimal text (what `URLSearchParams.append` and
 * `textContent = n` do with a number).
 */
module JsText {
  import opened Wrappers

  /** ECMAScript WhiteSpace and LineTerminator code points: what trim and parseInt skip. */
  predicate IsJsSpace(c: char)
  {
    || c == '\t' || c == '\n' || c == '\U{B}' || c == '\U{C}' || c == '\r' || c == ' '
    || c == '\U{A0}' || c == '\U{1680}' || ('\U{2000}' <= c <= '\U{200A}')
    || c == '\U{2028}' || c == '\U{2029}' || c == '\U{202F}' || c == '\U{205F}'
    || c == '\U{3000}' || c == '\U{FEFF}'
  }

  predicate AllSpace(s: string)
  {
    forall i :: 0 <= i < |s| ==> IsJsSpace(s[i])
  }

  /** The number of white-space characters at the start of `s`. */
  function LeadingSpace(s: string): (n: nat)
    ensures n <= |s|
    ensures forall i :: 0 <= i < n ==> IsJsSpace(s[i])
    ensures n < |s| ==> !IsJsSpace(s[n])
  {
    if |s| > 0 && IsJsSpace(s[0]) then 1 + LeadingSpace(s[1..]) else 0
  }

  /** The length of `s` once its trailing white space is cut off. */
  function TrailingSpaceStart(s: string): (n: nat)
    ensures n <= |s|
    ensures forall i :: n <= i < |s| ==> IsJsSpace(s[i])
    ensures n > 0 ==> !IsJsSpace(s[n - 1])
  {
    if |s| > 0 && IsJsSpace(s[|s| - 1]) then TrailingSpaceStart(s[..|s| - 1]) else |s|
  }

  /**
   * `s.trim()`: `s` without its leading and trailing white space. The result
   * is the slice of `s` that starts right after the leading white space, it is
   * followed in `s` by white space only, and it neither starts nor ends with
   * white space; it is empty exactly when `s` is all white space.
   */
  function Trim(s: string): string
  {
    var i := LeadingSpace(s);
    s[i..][..TrailingSpaceStart(s[i..])]
  }

  /** What Trim keeps is the slice right after the leading white space, and only white space follows it. */
  lemma TrimSlice(s: string)
    ensures LeadingSpace(s) + |Trim(s)| <= |s|
    ensures Trim(s) == s[LeadingSpace(s)..LeadingSpace(s) + |Trim(s)|]
    ensures forall k :: LeadingSpace(s) + |Trim(s)| <= k < |s| ==> IsJsSpace(s[k])
  {
    var i := LeadingSpace(s);
    var u := s[i..];
    var j := TrailingSpaceStart(u);
    assert forall k :: i + j <= k < |s| ==> s[k] == u[k - i];
  }

  /** Trim leaves nothing exactly when the text is all white space. */
  lemma TrimEmpty(s: string)
    ensures Trim(s) == [] <==> AllSpace(s)
  {
    var i := LeadingSpace(s);
    if i < |s| {
      assert !IsJsSpace(s[i]);
      assert TrailingSpaceStart(s[i..]) > 0;
    }
  }

  /**
   * Trim drops exactly the leading and the trailing white space: what is
   * left is a slice of `s` that neither starts nor ends with white space,
   * everything after it is white space, and it is empty exactly when `s` is
   * all white space.
   */
  lemma TrimSpec(s: string)
    ensures LeadingSpace(s) + |Trim(s)| <= |s|
    ensures Trim(s) == s[LeadingSpace(s)..LeadingSpace(s) + |Trim(s)|]
    ensures forall k :: LeadingSpace(s) + |Trim(s)| <= k < |s| ==> IsJsSpace(s[k])
    ensures Trim(s) != [] ==> !IsJsSpace(Trim(s)[0]) && !IsJsSpace(Trim(s)[|Trim(s)| - 1])
    ensures Trim(s) == [] <==> AllSpace(s)
  {
    TrimSlice(s);
    TrimEmpty(s);
  }

  lemma TrimIdempotent(s: string)
    ensures Trim(Trim(s)) == Trim(s)
  {
    TrimSpec(s);
    var t := Trim(s);
    if t != [] {
      assert LeadingSpace(t) == 0;
      assert TrailingSpaceStart(t) == |t|;
    }
  }

  predicate IsDigit(c: char)
  {
    '0' <= c <= '9'
  }

  predicate AllDigits(s: string)
  {
    forall i :: 0 <= i < |s| ==> IsDigit(s[i])
  }

  function DigitValue(c: char): (d: nat)
    requires IsDigit(c)
    ensures d < 10
  {
    (c as int) - ('0' as int)
  }

  function DigitChar(d: nat): (c: char)
    requires d < 10
    ensures IsDigit(c) && DigitValue(c) == d
  {
    ('0' as int + d) as char
  }

  /** The number of decimal digits at the start of `s`. */
  function DigitRun(s: string): (n: nat)
    ensures n <= |s|
    ensures forall i :: 0 <= i < n ==> IsDigit(s[i])
    ensures n < |s| ==> !IsDigit(s[n])
  {
    if |s| > 0 && IsDigit(s[0]) then 1 + DigitRun(s[1..]) else 0
  }

  /** The value of a string of decimal digits, most significant first. */
  function DigitsValue(ds: string): nat
    requires AllDigits(ds)
  {
    if ds == [] then 0
    else 10 * DigitsValue(ds[..|ds| - 1]) + DigitValue(ds[|ds| - 1])
  }

  /**
   * `parseInt(s, 10)`, with None for NaN: skip leading white space, take an
   * optional sign, then the longest run of decimal digits; no digits is NaN.
   * Whatever follows the digits is ignored.
   */
  function ParseInt(s: string): Option<int>
  {
    var t := s[LeadingSpace(s)..];
    var negative := |t| > 0 && t[0] == '-';
    var u := if |t| > 0 && (t[0] == '-' || t[0] == '+') then t[1..] else t;
    var n := DigitRun(u);
    if n == 0 then None
    else
      var magnitude: int := DigitsValue(u[..n]);
      Some(if negative then -magnitude else magnitude)
  }

  /** The decimal text of a natural number, without leading zeros. */
  function NatToString(n: nat): (s: string)
    ensures s != [] && AllDigits(s)
    ensures s[0] != '0' || n == 0
  {
    if n < 10 then [DigitChar(n)]
    else NatToString(n / 10) + [DigitChar(n % 10)]
  }

  /** The decimal text JavaScript gives an integral number (`String(n)`). */
  function IntToString(n: int): string
  {
    if n < 0 then "-" + NatToString(-n) else NatToString(n)
  }

  lemma {:induction false} NatToStringValue(n: nat)
    ensures DigitsValue(NatToString(n)) == n
  {
    if n >= 10 {
      NatToStringValue(n / 10);
      var s := NatToString(n);
      assert s[..|s| - 1] == NatToString(n / 10);
    }
  }

  lemma {:induction false} DigitRunOfDigits(d: string, rest: string)
    requires AllDigits(d)
    requires rest == [] || !IsDigit(rest[0])
    ensures DigitRun(d + rest) == |d|
  {
    if d != [] {
      assert (d + rest)[1..] == d[1..] + rest;
      DigitRunOfDigits(d[1..], rest);
    } else {
      assert d + rest == rest;
    }
  }

  /** parseInt of text that starts with a minus sign or a digit: no white space to skip. */
  lemma ParseIntUnpadded(s: string)
    requires s != [] && (s[0] == '-' || IsDigit(s[0]))
    ensures var u := if s[0] == '-' then s[1..] else s;
      var n := DigitRun(u);
      ParseInt(s) == if n == 0 then None
                     else if s[0] == '-' then Some(-(DigitsValue(u[..n]) as int))
                     else Some(DigitsValue(u[..n]) as int)
  {
    assert !IsJsSpace(s[0]);
    assert s[LeadingSpace(s)..] == s;
  }

  lemma SplitAfterSign(c: char, t: string, rest: string)
    ensures ([c] + t + rest)[0] == c
    ensures ([c] + t + rest)[1..] == t + rest
  {
  }

  lemma PrefixOfAppend(a: string, b: string)
    ensures (a + b)[..|a|] == a
  {
  }

  lemma ParseIntOfNatText(m: nat, rest: string)
    requires rest == [] || !IsDigit(rest[0])
    ensures ParseInt(NatToString(m) + rest) == Some(m)
  {
    var text := NatToString(m);
    NatToStringValue(m);
    DigitRunOfDigits(text, rest);
    PrefixOfAppend(text, rest);
    ParseIntUnpadded(text + rest);
  }

  lemma ParseIntOfNegativeText(m: nat, rest: string)
    requires m > 0
    requires rest == [] || !IsDigit(rest[0])
    ensures ParseInt(['-'] + NatToString(m) + rest) == Some(-(m as int))
  {
    var text := NatToString(m);
    NatToStringValue(m);
    DigitRunOfDigits(text, rest);
    PrefixOfAppend(text, rest);
    SplitAfterSign('-', text, rest);
    ParseIntUnpadded(['-'] + text + rest);
  }

  /**
   * parseInt reads back the decimal text of any integer, and ignores
   * whatever non-digit text follows it ("12abc" parses as 12).
   */
  lemma ParseIntOfDecimal(n: int, rest: string)
    requires rest == [] || !IsDigit(rest[0])
    ensures ParseInt(IntToString(n) + rest) == Some(n)
  {
    if n < 0 {
      ParseIntOfNegativeText(-n, rest);
    } else {
      ParseIntOfNatText(n, rest);
    }
  }

  lemma ParseIntRoundTrip(n: int)
    ensures ParseInt(IntToString(n)) == Some(n)
  {
    ParseIntOfDecimal(n, []);
    assert IntToString(n) + [] == IntToString(n);
  }

  /** Text without a single decimal digit parses as NaN. */
  lemma ParseIntWithoutDigits(s: string)
    requires forall i :: 0 <= i < |s| ==> !IsDigit(s[i])
    ensures ParseInt(s) == None
  {
    var t := s[LeadingSpace(s)..];
    var u := if |t| > 0 && (t[0] == '-' || t[0] == '+') then t[1..] else t;
    assert u == [] || !IsDigit(u[0]) by {
      if u != [] {
        if |t| > 0 && (t[0] == '-' || t[0] == '+') {
          assert u[0] == s[LeadingSpace(s) + 1];
        } else {
          assert u[0] == s[LeadingSpace(s)];
        }
      }
    }
  }
}
