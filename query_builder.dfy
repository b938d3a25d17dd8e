/**
 * How `loadRecipes` (static/app.js) turns the filter inputs and the page
 * cursor into the query parameters of `GET /api/recipes/search`. The query is
 * the ordered list of key/value pairs appended to a URLSearchParams; its
 * percent-encoding is not modelled.
 */
module QueryBuilder {
  import opened Wrappers
  import opened JsText

  /** The raw `value` of the five filter inputs and of the page-size input. */
  datatype Filters = Filters(title: string, cuisine: string, rating: string, totalTime: string, serves: string, limit: string)

  /** What `resetFilters` writes into the inputs: empty filters and a page size of 50. */
  const ClearedFilters := Filters("", "", "", "", "", "50")

  /** The parameter keys, declared in the order `loadRecipes` appends them. */
  datatype Key = Page | Limit | Title | Cuisine | Rating | TotalTime | Serves {
    /** The key as it appears in the query string. */
    function Name(): string
    {
      match this
      case Page => "page"
      case Limit => "limit"
      case Title => "title"
      case Cuisine => "cuisine"
      case Rating => "rating"
      case TotalTime => "total_time"
      case Serves => "serves"
    }

    function Rank(): nat
    {
      match this
      case Page => 0
      case Limit => 1
      case Title => 2
      case Cuisine => 3
      case Rating => 4
      case TotalTime => 5
      case Serves => 6
    }
  }

  type Query = seq<(Key, string)>

  /** The query as the list of name/value pairs of the URL. */
  function Pairs(q: Query): (pairs: seq<(string, string)>)
    ensures |pairs| == |q|
    ensures forall i :: 0 <= i < |q| ==> pairs[i] == (q[i].0.Name(), q[i].1)
  {
    if q == [] then [] else [(q[0].0.Name(), q[0].1)] + Pairs(q[1..])
  }

  /**
   * The page size sent: the integer parsed from the input when it is at
   * least 1, and 1 otherwise (no digits, zero or negative). There is no upper
   * bound.
   */
  function EffectiveLimit(input: string): (n: int)
    ensures n >= 1
  {
    match ParseInt(input)
    case Some(k) => if k < 1 then 1 else k
    case None => 1
  }

  /** The trimmed input, or None when nothing but white space is left. */
  function NonBlank(raw: string): Option<string>
  {
    var v := Trim(raw);
    if v == "" then None else Some(v)
  }

  /** `if (value) params.append(key, value)` for an already trimmed value. */
  function Optional(key: Key, v: string): Query
  {
    if v == "" then [] else [(key, v)]
  }

  /**
   * The parameters appended for page text `p`, limit text `l` and the
   * trimmed filter values, in the order `loadRecipes` appends them.
   */
  function Params(p: string, l: string, title: string, cuisine: string, rating: string, totalTime: string, serves: string): Query
  {
    [(Page, p), (Limit, l)] + FilterParams(title, cuisine, rating, totalTime, serves)
  }

  // The optional part of Params, and its suffixes from cuisine, rating and total_time on.
  function FilterParams(title: string, cuisine: string, rating: string, totalTime: string, serves: string): Query
  {
    Optional(Title, title) + FromCuisine(cuisine, rating, totalTime, serves)
  }

  function FromCuisine(cuisine: string, rating: string, totalTime: string, serves: string): Query
  {
    Optional(Cuisine, cuisine) + FromRating(rating, totalTime, serves)
  }

  function FromRating(rating: string, totalTime: string, serves: string): Query
  {
    Optional(Rating, rating) + FromTotalTime(totalTime, serves)
  }

  function FromTotalTime(totalTime: string, serves: string): Query
  {
    Optional(TotalTime, totalTime) + Optional(Serves, serves)
  }

  /** The parameters `loadRecipes` sends for filters `f` at page `page`. */
  function BuildQuery(f: Filters, page: int): (q: Query)
    ensures |q| >= 2
    ensures q[0] == (Page, IntToString(page))
    ensures q[1] == (Limit, IntToString(EffectiveLimit(f.limit)))
  {
    Params(IntToString(page), IntToString(EffectiveLimit(f.limit)),
           Trim(f.title), Trim(f.cuisine), Trim(f.rating), Trim(f.totalTime), Trim(f.serves))
  }

  /**
   * The statements of `loadRecipes` that build the parameters: trim the
   * inputs, parse and normalise the page size, append page and limit, then
   * append each filter whose trimmed value is non-empty.
   */
  method LoadParams(f: Filters, page: int) returns (q: Query)
    ensures q == BuildQuery(f, page)
  {
    var title, cuisine, rating, totalTime, serves :=
      Trim(f.title), Trim(f.cuisine), Trim(f.rating), Trim(f.totalTime), Trim(f.serves);
    var limit := ParseInt(f.limit);
    var size := if limit.None? || limit.value < 1 then 1 else limit.value;
    q := AppendParams(IntToString(page), IntToString(size), title, cuisine, rating, totalTime, serves);
  }

  /** The appends themselves, on the trimmed values. */
  method AppendParams(p: string, l: string, title: string, cuisine: string, rating: string, totalTime: string, serves: string)
    returns (q: Query)
    ensures q == Params(p, l, title, cuisine, rating, totalTime, serves)
  {
    var head := [(Page, p), (Limit, l)];
    q := head;
    if title != "" { q := q + [(Title, title)]; }
    AppendOptional(head, Title, title);
    ghost var done1 := head + Optional(Title, title);
    assert q == done1;
    if cuisine != "" { q := q + [(Cuisine, cuisine)]; }
    AppendOptional(done1, Cuisine, cuisine);
    ghost var done2 := done1 + Optional(Cuisine, cuisine);
    assert q == done2;
    if rating != "" { q := q + [(Rating, rating)]; }
    AppendOptional(done2, Rating, rating);
    ghost var done3 := done2 + Optional(Rating, rating);
    assert q == done3;
    if totalTime != "" { q := q + [(TotalTime, totalTime)]; }
    AppendOptional(done3, TotalTime, totalTime);
    ghost var done4 := done3 + Optional(TotalTime, totalTime);
    assert q == done4;
    if serves != "" { q := q + [(Serves, serves)]; }
    AppendOptional(done4, Serves, serves);
    assert q == done4 + Optional(Serves, serves);
    AppendsNest(head, Optional(Title, title), Optional(Cuisine, cuisine), Optional(Rating, rating),
                Optional(TotalTime, totalTime), Optional(Serves, serves));
  }

  /** One conditional append is an append of the optional parameter. */
  lemma AppendOptional(q: Query, key: Key, v: string)
    ensures (if v != "" then q + [(key, v)] else q) == q + Optional(key, v)
  {
    if v == "" {
      assert q + [] == q;
    }
  }

  /** Appending one by one builds the nested list of Params. */
  lemma AppendsNest(h: Query, a: Query, b: Query, c: Query, d: Query, e: Query)
    ensures h + a + b + c + d + e == h + (a + (b + (c + (d + e))))
  {
  }

  /** `params.get(key)`: the value of the first pair with that key. */
  function Find(q: Query, key: Key): Option<string>
  {
    if q == [] then None
    else if q[0].0 == key then Some(q[0].1)
    else Find(q[1..], key)
  }

  /** `get` answers the value of the first pair with the key, and None only when no pair has it. */
  lemma {:induction false} FindFirst(q: Query, key: Key)
    ensures Find(q, key).None? <==> forall i :: 0 <= i < |q| ==> q[i].0 != key
    ensures Find(q, key).Some? ==>
      exists i :: (0 <= i < |q| && q[i] == (key, Find(q, key).value)
                   && forall j :: 0 <= j < i ==> q[j].0 != key)
  {
    if q != [] && q[0].0 != key {
      FindFirst(q[1..], key);
      assert forall i :: 0 < i < |q| ==> q[i] == q[1..][i - 1];
      if Find(q, key).Some? {
        var i :| 0 <= i < |q[1..]| && q[1..][i] == (key, Find(q, key).value)
                 && forall j :: 0 <= j < i ==> q[1..][j].0 != key;
        assert q[i + 1] == (key, Find(q, key).value);
      }
    }
  }

  lemma {:induction false} FindAppend(a: Query, b: Query, key: Key)
    ensures Find(a + b, key) == if Find(a, key).Some? then Find(a, key) else Find(b, key)
  {
    if a == [] {
      assert a + b == b;
    } else {
      assert (a + b)[1..] == a[1..] + b;
      FindAppend(a[1..], b, key);
    }
  }

  /** Each key at most once, in the order of Key's declaration. */
  predicate InCanonicalOrder(q: Query)
  {
    forall i, j :: 0 <= i < j < |q| ==> q[i].0.Rank() < q[j].0.Rank()
  }

  /** In canonical order, with no key ranked below `lo`. */
  predicate RankedFrom(q: Query, lo: nat)
  {
    && InCanonicalOrder(q)
    && (forall i :: 0 <= i < |q| ==> lo <= q[i].0.Rank())
  }

  lemma PrependRanked(key: Key, v: string, rest: Query)
    requires RankedFrom(rest, key.Rank() + 1)
    ensures RankedFrom(Optional(key, v) + rest, key.Rank())
  {
    var q := Optional(key, v) + rest;
    if v != "" {
      assert forall i :: 0 < i < |q| ==> q[i] == rest[i - 1];
    } else {
      assert q == rest;
    }
  }

  lemma FilterParamsOrder(title: string, cuisine: string, rating: string, totalTime: string, serves: string)
    ensures RankedFrom(FromTotalTime(totalTime, serves), 5)
    ensures RankedFrom(FromRating(rating, totalTime, serves), 4)
    ensures RankedFrom(FromCuisine(cuisine, rating, totalTime, serves), 3)
    ensures RankedFrom(FilterParams(title, cuisine, rating, totalTime, serves), 2)
  {
    PrependRanked(Serves, serves, []);
    assert Optional(Serves, serves) + [] == Optional(Serves, serves);
    PrependRanked(TotalTime, totalTime, Optional(Serves, serves));
    PrependRanked(Rating, rating, FromTotalTime(totalTime, serves));
    PrependRanked(Cuisine, cuisine, FromRating(rating, totalTime, serves));
    PrependRanked(Title, title, FromCuisine(cuisine, rating, totalTime, serves));
  }

  /** Keys appear once each, in the order page, limit, title, cuisine, rating, total_time, serves. */
  lemma ParamsOrder(p: string, l: string, title: string, cuisine: string, rating: string, totalTime: string, serves: string)
    ensures InCanonicalOrder(Params(p, l, title, cuisine, rating, totalTime, serves))
  {
    var tail := FilterParams(title, cuisine, rating, totalTime, serves);
    FilterParamsOrder(title, cuisine, rating, totalTime, serves);
    var q := Params(p, l, title, cuisine, rating, totalTime, serves);
    assert forall i :: 2 <= i < |q| ==> q[i] == tail[i - 2];
  }

  lemma OptionalLookup(key: Key, v: string, rest: Query, k: Key)
    ensures Find(Optional(key, v) + rest, k) == if k == key && v != "" then Some(v) else Find(rest, k)
  {
    if v != "" {
      assert (Optional(key, v) + rest)[1..] == rest;
    } else {
      assert Optional(key, v) + rest == rest;
    }
  }


  /** The value of an optional parameter: present only when non-empty. */
  function Chosen(v: string): Option<string>
  {
    if v == "" then None else Some(v)
  }

  /** Which trimmed value the filter part of the query carries for `k`. */
  lemma {:induction false} FilterFind(title: string, cuisine: string, rating: string, totalTime: string, serves: string, k: Key)
    ensures Find(FilterParams(title, cuisine, rating, totalTime, serves), k) ==
      match k
      case Page => None
      case Limit => None
      case Title => Chosen(title)
      case Cuisine => Chosen(cuisine)
      case Rating => Chosen(rating)
      case TotalTime => Chosen(totalTime)
      case Serves => Chosen(serves)
  {
    OptionalLookup(Serves, serves, [], k);
    assert Optional(Serves, serves) + [] == Optional(Serves, serves);
    OptionalLookup(TotalTime, totalTime, Optional(Serves, serves), k);
    OptionalLookup(Rating, rating, FromTotalTime(totalTime, serves), k);
    OptionalLookup(Cuisine, cuisine, FromRating(rating, totalTime, serves), k);
    OptionalLookup(Title, title, FromCuisine(cuisine, rating, totalTime, serves), k);
  }

  /** The value found for each key of the parameter list. */
  lemma {:induction false} ParamsFind(p: string, l: string, title: string, cuisine: string, rating: string, totalTime: string, serves: string, k: Key)
    ensures Find(Params(p, l, title, cuisine, rating, totalTime, serves), k) ==
      match k
      case Page => Some(p)
      case Limit => Some(l)
      case Title => Chosen(title)
      case Cuisine => Chosen(cuisine)
      case Rating => Chosen(rating)
      case TotalTime => Chosen(totalTime)
      case Serves => Chosen(serves)
  {
    FindAppend([(Page, p), (Limit, l)], FilterParams(title, cuisine, rating, totalTime, serves), k);
    FilterFind(title, cuisine, rating, totalTime, serves, k);
  }

  /**
   * The full parameter list: page then limit come first, each optional
   * filter is present exactly when its trimmed input is non-empty and then
   * carries the trimmed value, and the keys appear once each in the fixed
   * order page, limit, title, cuisine, rating, total_time, serves.
   */
  lemma QueryParameters(f: Filters, page: int)
    ensures InCanonicalOrder(BuildQuery(f, page))
    ensures Find(BuildQuery(f, page), Page) == Some(IntToString(page))
    ensures Find(BuildQuery(f, page), Limit) == Some(IntToString(EffectiveLimit(f.limit)))
    ensures Find(BuildQuery(f, page), Title) == NonBlank(f.title)
    ensures Find(BuildQuery(f, page), Cuisine) == NonBlank(f.cuisine)
    ensures Find(BuildQuery(f, page), Rating) == NonBlank(f.rating)
    ensures Find(BuildQuery(f, page), TotalTime) == NonBlank(f.totalTime)
    ensures Find(BuildQuery(f, page), Serves) == NonBlank(f.serves)
  {
    var p, l := IntToString(page), IntToString(EffectiveLimit(f.limit));
    var t, c, r, tt, s := Trim(f.title), Trim(f.cuisine), Trim(f.rating), Trim(f.totalTime), Trim(f.serves);
    ParamsOrder(p, l, t, c, r, tt, s);
    ParamsFind(p, l, t, c, r, tt, s, Page);
    ParamsFind(p, l, t, c, r, tt, s, Limit);
    ParamsFind(p, l, t, c, r, tt, s, Title);
    ParamsFind(p, l, t, c, r, tt, s, Cuisine);
    ParamsFind(p, l, t, c, r, tt, s, Rating);
    ParamsFind(p, l, t, c, r, tt, s, TotalTime);
    ParamsFind(p, l, t, c, r, tt, s, Serves);
  }

  /** With every filter blank the query is exactly page and limit. */
  lemma BlankFiltersSendPageAndLimit(f: Filters, page: int)
    requires AllSpace(f.title) && AllSpace(f.cuisine) && AllSpace(f.rating)
    requires AllSpace(f.totalTime) && AllSpace(f.serves)
    ensures BuildQuery(f, page) == [(Page, IntToString(page)), (Limit, IntToString(EffectiveLimit(f.limit)))]
    ensures Pairs(BuildQuery(f, page)) == [("page", IntToString(page)), ("limit", IntToString(EffectiveLimit(f.limit)))]
  {
    TrimSpec(f.title);
    TrimSpec(f.cuisine);
    TrimSpec(f.rating);
    TrimSpec(f.totalTime);
    TrimSpec(f.serves);
  }

  /** The URL of `loadRecipes` always opens with `page` and then `limit`, both as decimal text. */
  lemma UrlOpensWithPageAndLimit(f: Filters, page: int)
    ensures |Pairs(BuildQuery(f, page))| >= 2
    ensures Pairs(BuildQuery(f, page))[0] == ("page", IntToString(page))
    ensures Pairs(BuildQuery(f, page))[1] == ("limit", IntToString(EffectiveLimit(f.limit)))
    ensures ParseInt(Pairs(BuildQuery(f, page))[1].1) == Some(EffectiveLimit(f.limit))
  {
    ParseIntRoundTrip(EffectiveLimit(f.limit));
  }

  /** A page size typed as a number is sent as that number when positive, however large. */
  lemma EffectiveLimitOfNumber(n: int)
    ensures EffectiveLimit(IntToString(n)) == if n >= 1 then n else 1
  {
    ParseIntRoundTrip(n);
  }

  /** A page size without any digit is sent as 1. */
  lemma EffectiveLimitWithoutDigits(input: string)
    requires forall i :: 0 <= i < |input| ==> !IsDigit(input[i])
    ensures EffectiveLimit(input) == 1
  {
    ParseIntWithoutDigits(input);
  }
}
