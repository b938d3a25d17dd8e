/**
 * The SQL that app.py hands to SQLite: the statement and the parameter list
 * that `search_recipes` builds from the optional filters, the paging offset
 * shared by the three list routes, and the cuisine route's check for a
 * missing cuisine. The database itself is not modelled; a response is the
 * statement that would be executed, the 400 answer, or the 500 answer raised
 * when `int()` rejects `page` or `limit`.
 *
 * The rating arrives already converted by Flask (`type=float`); its values are
 * those of the type parameter R, which the model never inspects.
 */
module SearchSql {
  import opened Wrappers

  /** A value bound to a `?` placeholder. */
  datatype Param<R> = Text(s: string) | Real(r: R) | Int(n: int)

  /** The fixed pieces of SQL text the routes put together. */
  datatype Fragment =
    | SelectWhere | TitleLike | CuisineIs | RatingAtLeast | TotalTimeIs | ServesLike
    | LimitWord | OffsetWord | SelectAll | SelectByCuisine
  {
    function Text(): string
    {
      match this
      case SelectWhere => "SELECT * FROM recipes WHERE 1=1"
      case TitleLike => " AND title LIKE "
      case CuisineIs => " AND cuisine = "
      case RatingAtLeast => " AND rating >= "
      case TotalTimeIs => " AND total_time = "
      case ServesLike => " AND serves LIKE "
      case LimitWord => " LIMIT "
      case OffsetWord => " OFFSET "
      case SelectAll => "SELECT * FROM recipes"
      case SelectByCuisine => "SELECT * FROM recipes WHERE cuisine = "
    }
  }

  /**
   * The SQL text as SQLite tokenizes it for binding: fixed text, and the `?`
   * placeholders that take the parameters in order.
   */
  datatype Token = Sql(fragment: Fragment) | Placeholder

  function TokenText(t: Token): string
  {
    match t
    case Sql(f) => f.Text()
    case Placeholder => "?"
  }

  /** The texts of `ts`, one after the other. */
  function Join<T>(ts: seq<T>, text: T -> string): string
  {
    if ts == [] then "" else Join(ts[..|ts| - 1], text) + text(ts[|ts| - 1])
  }

  /** The statement's text. */
  function Render(ts: seq<Token>): string
  {
    Join(ts, TokenText)
  }

  /** The number of `?` placeholders in a statement. */
  function Placeholders(ts: seq<Token>): nat
  {
    multiset(ts)[Placeholder]
  }

  /** A statement and its parameters, as passed to `cursor.execute`. */
  datatype Statement<R> = Statement(sql: seq<Token>, params: seq<Param<R>>)

  datatype Response<R> =
    | Run(statement: Statement<R>)
    | BadRequest(message: string)
    | ServerError

  /**
   * `int(request.args.get(key, default))`: the argument is absent, holds
   * text that `int()` accepts as `n`, or holds text it rejects.
   */
  datatype IntArg = Missing | Given(n: int) | Malformed

  /** The integer used for the argument, or None when `int()` raises. */
  function ArgOr(arg: IntArg, default: int): (r: Option<int>)
    ensures r.None? <==> arg.Malformed?
    ensures arg.Missing? ==> r == Some(default)
    ensures arg.Given? ==> r == Some(arg.n)
  {
    match arg
    case Missing => Some(default)
    case Given(n) => Some(n)
    case Malformed => None
  }

  /** The query arguments of `GET /api/recipes/search`. */
  datatype SearchArgs<R> = SearchArgs(
    title: Option<string>,
    cuisine: Option<string>,
    rating: Option<R>,
    totalTime: Option<string>,
    serves: Option<string>,
    page: IntArg,
    limit: IntArg)

  /** Python truthiness of an optional string: present and non-empty. */
  predicate Truthy(v: Option<string>)
  {
    v.Some? && v.value != ""
  }

  /** `(page - 1) * limit`, on Python's unbounded integers. */
  function Offset(page: int, limit: int): int
  {
    (page - 1) * limit
  }

  /** Page 1 starts at the first row, and each page starts where the previous one ends. */
  lemma OffsetPages(page: int, limit: int)
    ensures Offset(1, limit) == 0
    ensures Offset(page + 1, limit) == Offset(page, limit) + limit
    ensures page >= 1 && limit >= 0 ==> Offset(page, limit) >= 0
  {
    assert Offset(page + 1, limit) == page * limit;
    if page >= 1 && limit >= 0 {
      assert (page - 1) * limit >= 0;
    }
  }

  /** The filterable columns, in the order their conditions are appended. */
  datatype Column = TitleColumn | CuisineColumn | RatingColumn | TotalTimeColumn | ServesColumn {
    /** The text appended to the statement for this column's filter. */
    function Condition(): seq<Token>
    {
      match this
      case TitleColumn => [Sql(TitleLike), Placeholder]
      case CuisineColumn => [Sql(CuisineIs), Placeholder]
      case RatingColumn => [Sql(RatingAtLeast), Placeholder]
      case TotalTimeColumn => [Sql(TotalTimeIs), Placeholder]
      case ServesColumn => [Sql(ServesLike), Placeholder]
    }

    function Rank(): nat
    {
      match this
      case TitleColumn => 0
      case CuisineColumn => 1
      case RatingColumn => 2
      case TotalTimeColumn => 3
      case ServesColumn => 4
    }
  }

  /** One filter that takes part: its column's condition and the value bound to it. */
  datatype Filter<R> = Filter(column: Column, arg: Param<R>)

  /** `SELECT * FROM recipes WHERE 1=1` */
  const Base := [Sql(SelectWhere)]
  /** ` LIMIT ? OFFSET ?` */
  const Paging := [Sql(LimitWord), Placeholder, Sql(OffsetWord), Placeholder]

  /** The title filter, a LIKE that matches the title anywhere. */
  function TitleFilter<R>(a: SearchArgs<R>): Option<Filter<R>>
  {
    if Truthy(a.title) then Some(Filter(TitleColumn, Text("%" + a.title.value + "%"))) else None
  }

  function CuisineFilter<R>(a: SearchArgs<R>): Option<Filter<R>>
  {
    if Truthy(a.cuisine) then Some(Filter(CuisineColumn, Text(a.cuisine.value))) else None
  }

  /** The rating filter is tested with `is not None`, not for truthiness. */
  function RatingFilter<R>(a: SearchArgs<R>): Option<Filter<R>>
  {
    if a.rating.Some? then Some(Filter(RatingColumn, Real(a.rating.value))) else None
  }

  function TotalTimeFilter<R>(a: SearchArgs<R>): Option<Filter<R>>
  {
    if Truthy(a.totalTime) then Some(Filter(TotalTimeColumn, Text(a.totalTime.value))) else None
  }

  /** The serves filter, a LIKE that matches a prefix. */
  function ServesFilter<R>(a: SearchArgs<R>): Option<Filter<R>>
  {
    if Truthy(a.serves) then Some(Filter(ServesColumn, Text(a.serves.value + "%"))) else None
  }

  function AsList<R>(f: Option<Filter<R>>): seq<Filter<R>>
  {
    if f.Some? then [f.value] else []
  }

  /** What one filter contributes to the statement: its condition, or nothing. */
  function ClauseText<R>(f: Option<Filter<R>>): seq<Token>
  {
    if f.Some? then f.value.column.Condition() else []
  }

  /** What one filter contributes to the parameters: its value, or nothing. */
  function ClauseArgs<R>(f: Option<Filter<R>>): seq<Param<R>>
  {
    if f.Some? then [f.value.arg] else []
  }

  /** The filters that take part, in the order of the `if` statements. */
  function Included<R>(a: SearchArgs<R>): seq<Filter<R>>
  {
    AsList(TitleFilter(a)) + AsList(CuisineFilter(a)) + AsList(RatingFilter(a))
    + AsList(TotalTimeFilter(a)) + AsList(ServesFilter(a))
  }

  /** The conditions appended after the base statement. */
  function Conditions<R>(a: SearchArgs<R>): seq<Token>
  {
    ClauseText(TitleFilter(a)) + ClauseText(CuisineFilter(a)) + ClauseText(RatingFilter(a))
    + ClauseText(TotalTimeFilter(a)) + ClauseText(ServesFilter(a))
  }

  /** The values bound to the conditions. */
  function Values<R>(a: SearchArgs<R>): seq<Param<R>>
  {
    ClauseArgs(TitleFilter(a)) + ClauseArgs(CuisineFilter(a)) + ClauseArgs(RatingFilter(a))
    + ClauseArgs(TotalTimeFilter(a)) + ClauseArgs(ServesFilter(a))
  }

  /** The statement `search_recipes` builds for `a` at the given limit and offset. */
  function SearchStatement<R>(a: SearchArgs<R>, limit: int, offset: int): Statement<R>
  {
    Statement(Base + Conditions(a) + Paging, Values(a) + [Int(limit), Int(offset)])
  }

  /** What `search_recipes` executes for `a`, or the 500 answer when `int()` raises. */
  function Search<R>(a: SearchArgs<R>): Response<R>
  {
    var page, limit := ArgOr(a.page, 1), ArgOr(a.limit, 10);
    if page.None? || limit.None? then ServerError
    else Run(SearchStatement(a, limit.value, Offset(page.value, limit.value)))
  }

  /**
   * `search_recipes` up to `cursor.execute`: parse page and limit (a
   * malformed one raises, which Flask answers with 500), compute the
   * offset, then build the statement.
   */
  method SearchRecipes<R>(a: SearchArgs<R>) returns (resp: Response<R>)
    ensures resp == Search(a)
  {
    var page: int;
    match a.page {
      case Missing => page := 1;
      case Given(n) => page := n;
      case Malformed => return ServerError;
    }
    var limit: int;
    match a.limit {
      case Missing => limit := 10;
      case Given(n) => limit := n;
      case Malformed => return ServerError;
    }
    var offset := (page - 1) * limit;
    var query, params := BuildSearch(a, limit, offset);
    resp := Run(Statement(query, params));
  }

  /**
   * One `if` of `search_recipes`: appending the condition and the value of
   * a filter that takes part, or nothing otherwise, appends that filter's
   * share of the conditions and of the parameters.
   */
  lemma Extend<R>(query: seq<Token>, params: seq<Param<R>>, f: Option<Filter<R>>)
    ensures (if f.Some? then query + f.value.column.Condition() else query) == query + ClauseText(f)
    ensures (if f.Some? then params + [f.value.arg] else params) == params + ClauseArgs(f)
  {
    if f.None? {
      assert query + [] == query;
      assert params + [] == params;
    }
  }

  /**
   * The statement-building statements of `search_recipes`: start from the
   * base statement, append each filter's condition and value in turn, then
   * the paging placeholders with limit and offset.
   */
  method BuildSearch<R>(a: SearchArgs<R>, limit: int, offset: int) returns (query: seq<Token>, params: seq<Param<R>>)
    ensures Statement(query, params) == SearchStatement(a, limit, offset)
  {
    query := Base;
    params := [];
    Extend(query, params, TitleFilter(a));
    if Truthy(a.title) {
      query := query + TitleColumn.Condition();
      params := params + [Text("%" + a.title.value + "%")];
    }
    ghost var q1, p1 := Base + ClauseText(TitleFilter(a)), [] + ClauseArgs(TitleFilter(a));
    assert query == q1 && params == p1;
    Extend(query, params, CuisineFilter(a));
    if Truthy(a.cuisine) {
      query := query + CuisineColumn.Condition();
      params := params + [Text(a.cuisine.value)];
    }
    ghost var q2, p2 := q1 + ClauseText(CuisineFilter(a)), p1 + ClauseArgs(CuisineFilter(a));
    assert query == q2 && params == p2;
    Extend(query, params, RatingFilter(a));
    if a.rating.Some? {
      query := query + RatingColumn.Condition();
      params := params + [Real(a.rating.value)];
    }
    ghost var q3, p3 := q2 + ClauseText(RatingFilter(a)), p2 + ClauseArgs(RatingFilter(a));
    assert query == q3 && params == p3;
    Extend(query, params, TotalTimeFilter(a));
    if Truthy(a.totalTime) {
      query := query + TotalTimeColumn.Condition();
      params := params + [Text(a.totalTime.value)];
    }
    ghost var q4, p4 := q3 + ClauseText(TotalTimeFilter(a)), p3 + ClauseArgs(TotalTimeFilter(a));
    assert query == q4 && params == p4;
    Extend(query, params, ServesFilter(a));
    if Truthy(a.serves) {
      query := query + ServesColumn.Condition();
      params := params + [Text(a.serves.value + "%")];
    }
    assert query == q4 + ClauseText(ServesFilter(a)) && params == p4 + ClauseArgs(ServesFilter(a));
    Assemble(a);

    query := query + Paging;
    params := params + [Int(limit), Int(offset)];
  }

  /** Appending the filters' shares one by one builds the base statement followed by the conditions. */
  lemma Assemble<R>(a: SearchArgs<R>)
    ensures Base + ClauseText(TitleFilter(a)) + ClauseText(CuisineFilter(a)) + ClauseText(RatingFilter(a))
            + ClauseText(TotalTimeFilter(a)) + ClauseText(ServesFilter(a)) == Base + Conditions(a)
    ensures [] + ClauseArgs(TitleFilter(a)) + ClauseArgs(CuisineFilter(a)) + ClauseArgs(RatingFilter(a))
            + ClauseArgs(TotalTimeFilter(a)) + ClauseArgs(ServesFilter(a)) == Values(a)
  {
    var t, c, r, tt, s := ClauseText(TitleFilter(a)), ClauseText(CuisineFilter(a)), ClauseText(RatingFilter(a)),
                          ClauseText(TotalTimeFilter(a)), ClauseText(ServesFilter(a));
    assert Base + t + c + r + tt + s == Base + (t + c + r + tt + s);
    var pt := ClauseArgs(TitleFilter(a));
    assert [] + pt == pt;
  }

  /** The values bound, one per filter that takes part, in order. */
  function Args<R>(fs: seq<Filter<R>>): seq<Param<R>>
  {
    seq(|fs|, i requires 0 <= i < |fs| => fs[i].arg)
  }

  /** A filter that takes part contributes one placeholder and its value; one that does not, neither. */
  lemma ClauseMatches<R>(f: Option<Filter<R>>)
    ensures Placeholders(ClauseText(f)) == |AsList(f)|
    ensures ClauseArgs(f) == Args(AsList(f))
  {
    if f.Some? {
      match f.value.column {
        case TitleColumn =>
        case CuisineColumn =>
        case RatingColumn =>
        case TotalTimeColumn =>
        case ServesColumn =>
      }
    }
  }

  lemma ArgsAppend<R>(fs: seq<Filter<R>>, gs: seq<Filter<R>>)
    ensures Args(fs + gs) == Args(fs) + Args(gs)
  {
  }

  /**
   * The conditions and the values match up: there is one condition, holding
   * one placeholder, per filter that takes part, and the values are those
   * filters' values in the same order.
   */
  lemma ClausesMatchValues<R>(a: SearchArgs<R>)
    ensures Placeholders(Conditions(a)) == |Included(a)|
    ensures Values(a) == Args(Included(a))
  {
    ClauseMatches(TitleFilter(a));
    ClauseMatches(CuisineFilter(a));
    ClauseMatches(RatingFilter(a));
    ClauseMatches(TotalTimeFilter(a));
    ClauseMatches(ServesFilter(a));
    var t, c, r, tt, s := AsList(TitleFilter(a)), AsList(CuisineFilter(a)), AsList(RatingFilter(a)),
                          AsList(TotalTimeFilter(a)), AsList(ServesFilter(a));
    ArgsAppend(t, c);
    ArgsAppend(t + c, r);
    ArgsAppend(t + c + r, tt);
    ArgsAppend(t + c + r + tt, s);
  }

  /** The statement has exactly as many `?` placeholders as there are parameters. */
  lemma SearchPlaceholders<R>(a: SearchArgs<R>)
    ensures Search(a).Run? ==> Placeholders(Search(a).statement.sql) == |Search(a).statement.params|
  {
    if Search(a).Run? {
      var page, limit := ArgOr(a.page, 1).value, ArgOr(a.limit, 10).value;
      var st := SearchStatement(a, limit, Offset(page, limit));
      assert Search(a).statement == st;
      ClausesMatchValues(a);
      assert Placeholders(Base) == 0;
      assert Placeholders(Paging) == 2;
      assert Placeholders(st.sql) == Placeholders(Base) + Placeholders(Conditions(a)) + Placeholders(Paging);
    }
  }

  /**
   * The answer is 500 exactly when `page` or `limit` is rejected by `int()`.
   * Otherwise the statement starts with the base query and ends with the
   * paging clause, and the last two parameters are the limit and the offset
   * `(page - 1) * limit`, with page 1 and limit 10 when absent.
   */
  lemma SearchShape<R>(a: SearchArgs<R>)
    ensures Search(a).ServerError? <==> a.page.Malformed? || a.limit.Malformed?
    ensures Search(a).Run? ==>
      var sql, ps := Search(a).statement.sql, Search(a).statement.params;
      var page, limit := ArgOr(a.page, 1).value, ArgOr(a.limit, 10).value;
      && |Base| + |Paging| <= |sql| && sql[..|Base|] == Base && sql[|sql| - |Paging|..] == Paging
      && |ps| >= 2 && ps[|ps| - 2] == Int(limit) && ps[|ps| - 1] == Int(Offset(page, limit))
  {
    if Search(a).Run? {
      var sql := Base + Conditions(a) + Paging;
      assert sql[..|Base|] == Base;
      assert sql[|sql| - |Paging|..] == Paging;
    }
  }

  lemma {:induction false} JoinAppend<T>(xs: seq<T>, ys: seq<T>, text: T -> string)
    ensures Join(xs + ys, text) == Join(xs, text) + Join(ys, text)
    decreases |ys|
  {
    if ys == [] {
      assert xs + ys == xs;
    } else {
      var all := xs + ys;
      assert all[..|all| - 1] == xs + ys[..|ys| - 1] && all[|all| - 1] == ys[|ys| - 1];
      JoinAppend(xs, ys[..|ys| - 1], text);
    }
  }

  /** The text of two statement pieces put together is their texts put together. */
  lemma RenderAppend(xs: seq<Token>, ys: seq<Token>)
    ensures Render(xs + ys) == Render(xs) + Render(ys)
  {
    JoinAppend(xs, ys, TokenText);
  }

  /** The base statement reads `SELECT * FROM recipes WHERE 1=1`. */
  lemma BaseText()
    ensures Render(Base) == SelectWhere.Text()
  {
    assert Base[..0] == [];
  }

  /** The paging clause reads ` LIMIT ? OFFSET ?`. */
  lemma PagingText()
    ensures Render(Paging) == LimitWord.Text() + "?" + OffsetWord.Text() + "?"
  {
    var p1, p2, p3 := [Sql(LimitWord)], [Sql(LimitWord), Placeholder], [Sql(LimitWord), Placeholder, Sql(OffsetWord)];
    assert Render(p1) == LimitWord.Text() by { assert p1[..0] == []; }
    assert Render(p2) == Render(p1) + "?" by { assert p2[..1] == p1; }
    assert Render(p3) == Render(p2) + OffsetWord.Text() by { assert p3[..2] == p2; }
    assert Paging[..3] == p3;
  }

  /**
   * As text, the statement is the base statement, then the conditions, then
   * the paging clause (whose texts BaseText and PagingText give).
   */
  lemma SearchText<R>(a: SearchArgs<R>, limit: int, offset: int)
    ensures Render(SearchStatement(a, limit, offset).sql)
            == Render(Base) + Render(Conditions(a)) + Render(Paging)
  {
    var st := SearchStatement(a, limit, offset);
    var c := Conditions(a);
    assert st.sql == (Base + c) + Paging;
    RenderAppend(Base + c, Paging);
    RenderAppend(Base, c);
  }

  /** The conditions of the filters `fs`, one after the other. */
  function ConditionsOf<R>(fs: seq<Filter<R>>): seq<Token>
  {
    if fs == [] then [] else fs[0].column.Condition() + ConditionsOf(fs[1..])
  }

  lemma {:induction false} ConditionsOfAppend<R>(fs: seq<Filter<R>>, gs: seq<Filter<R>>)
    ensures ConditionsOf(fs + gs) == ConditionsOf(fs) + ConditionsOf(gs)
  {
    if fs == [] {
      assert fs + gs == gs;
    } else {
      assert (fs + gs)[0] == fs[0];
      assert (fs + gs)[1..] == fs[1..] + gs;
      ConditionsOfAppend(fs[1..], gs);
    }
  }

  /** Every condition is two tokens: its fragment, then its placeholder. */
  lemma ConditionShape(c: Column)
    ensures |c.Condition()| == 2 && c.Condition()[0].Sql? && c.Condition()[1] == Placeholder
  {
  }

  // A two-token window of `c` moves right by two when a pair is put in front.
  lemma WindowOfSuffix<T>(p: seq<T>, c: seq<T>, j: nat)
    requires |p| == 2 && j + 2 <= |c|
    ensures (p + c)[j + 2..j + 4] == c[j..j + 2]
  {
  }

  /**
   * The conditions of `fs` are those of `fs[0]`, `fs[1]`, ... at positions
   * 0, 2, ..., two tokens each.
   */
  lemma {:induction false} ConditionsOfPositions<R>(fs: seq<Filter<R>>)
    ensures |ConditionsOf(fs)| == 2 * |fs|
    ensures forall i :: 0 <= i < |fs| ==> ConditionsOf(fs)[2 * i..2 * i + 2] == fs[i].column.Condition()
  {
    if fs != [] {
      var rest := fs[1..];
      ConditionsOfPositions(rest);
      var first := fs[0].column.Condition();
      var c := ConditionsOf(rest);
      ConditionShape(fs[0].column);
      assert ConditionsOf(fs) == first + c;
      forall i | 0 <= i < |fs|
        ensures (first + c)[2 * i..2 * i + 2] == fs[i].column.Condition()
      {
        if i == 0 {
          assert (first + c)[0..2] == first;
        } else {
          assert fs[i] == rest[i - 1];
          WindowOfSuffix(first, c, 2 * (i - 1));
        }
      }
    }
  }

  // One filter's clause is the condition list of its singleton list.
  lemma ClauseTextAsList<R>(f: Option<Filter<R>>)
    ensures ClauseText(f) == ConditionsOf(AsList(f))
  {
    if f.Some? {
      assert AsList(f)[1..] == [];
    }
  }

  // `ConditionsOf` over five lists appended one after the other.
  lemma ConditionsOfFive<R>(t: seq<Filter<R>>, c: seq<Filter<R>>, r: seq<Filter<R>>, tt: seq<Filter<R>>, s: seq<Filter<R>>)
    ensures ConditionsOf(t + c + r + tt + s)
         == ConditionsOf(t) + ConditionsOf(c) + ConditionsOf(r) + ConditionsOf(tt) + ConditionsOf(s)
  {
    ConditionsOfAppend(t, c);
    ConditionsOfAppend(t + c, r);
    ConditionsOfAppend(t + c + r, tt);
    ConditionsOfAppend(t + c + r + tt, s);
  }

  /** The conditions appended are exactly those of the filters that take part, in their order. */
  lemma ConditionsFollowFilters<R>(a: SearchArgs<R>)
    ensures Conditions(a) == ConditionsOf(Included(a))
  {
    ClauseTextAsList(TitleFilter(a));
    ClauseTextAsList(CuisineFilter(a));
    ClauseTextAsList(RatingFilter(a));
    ClauseTextAsList(TotalTimeFilter(a));
    ClauseTextAsList(ServesFilter(a));
    ConditionsOfFive(AsList(TitleFilter(a)), AsList(CuisineFilter(a)), AsList(RatingFilter(a)),
                     AsList(TotalTimeFilter(a)), AsList(ServesFilter(a)));
  }

  /** Placeholder `i` of the conditions of `fs` closes the condition of `fs[i]`. */
  lemma PlaceholderAt<R>(fs: seq<Filter<R>>, i: nat)
    requires i < |fs|
    ensures |ConditionsOf(fs)| == 2 * |fs|
    ensures ConditionsOf(fs)[2 * i..2 * i + 2] == fs[i].column.Condition()
    ensures ConditionsOf(fs)[2 * i + 1] == Placeholder
  {
    ConditionsOfPositions(fs);
    ConditionShape(fs[i].column);
    var pair := ConditionsOf(fs)[2 * i..2 * i + 2];
    assert ConditionsOf(fs)[2 * i + 1] == pair[1];
  }

  /**
   * Condition `i` of the statement belongs to the `i`-th filter that takes
   * part and holds the `i`-th placeholder, and the `i`-th value bound is
   * that filter's value: no value is bound to another column's condition.
   */
  lemma ConditionsBindValues<R>(a: SearchArgs<R>)
    ensures |Conditions(a)| == 2 * |Included(a)| && |Values(a)| == |Included(a)|
    ensures forall i :: 0 <= i < |Included(a)| ==>
      && Conditions(a)[2 * i..2 * i + 2] == Included(a)[i].column.Condition()
      && Conditions(a)[2 * i + 1] == Placeholder
      && Values(a)[i] == Included(a)[i].arg
  {
    var fs := Included(a);
    ConditionsFollowFilters(a);
    ClausesMatchValues(a);
    ConditionsOfPositions(fs);
    forall i | 0 <= i < |fs|
      ensures Conditions(a)[2 * i + 1] == Placeholder
    {
      PlaceholderAt(fs, i);
    }
  }

  /** A fragment followed by a placeholder reads as the fragment's text then `?`. */
  lemma PairText(f: Fragment)
    ensures Render([Sql(f), Placeholder]) == f.Text() + "?"
  {
    var ts := [Sql(f), Placeholder];
    assert ts[..1] == [Sql(f)] && [Sql(f)][..0] == [];
    assert Join([Sql(f)], TokenText) == Join([], TokenText) + f.Text();
    assert Join([], TokenText) + f.Text() == f.Text();
    assert Join(ts, TokenText) == Join([Sql(f)], TokenText) + TokenText(Placeholder);
  }

  /**
   * The text of each column's condition: title and serves are matched with
   * LIKE, cuisine and total_time with `=`, rating with `>=`.
   */
  lemma ConditionText(c: Column)
    ensures Render(c.Condition()) == match c
      case TitleColumn => " AND title LIKE ?"
      case CuisineColumn => " AND cuisine = ?"
      case RatingColumn => " AND rating >= ?"
      case TotalTimeColumn => " AND total_time = ?"
      case ServesColumn => " AND serves LIKE ?"
  {
    match c
    case TitleColumn => PairText(TitleLike);
    case CuisineColumn => PairText(CuisineIs);
    case RatingColumn => PairText(RatingAtLeast);
    case TotalTimeColumn => PairText(TotalTimeIs);
    case ServesColumn => PairText(ServesLike);
  }

  /** Each filter's column ranks strictly after the one before. */
  predicate InColumnOrder<R>(fs: seq<Filter<R>>)
  {
    forall i, j :: 0 <= i < j < |fs| ==> fs[i].column.Rank() < fs[j].column.Rank()
  }

  predicate RanksBelow<R>(fs: seq<Filter<R>>, r: nat)
  {
    forall i :: 0 <= i < |fs| ==> fs[i].column.Rank() < r
  }

  lemma AppendInOrder<R>(fs: seq<Filter<R>>, next: Option<Filter<R>>, r: nat)
    requires InColumnOrder(fs) && RanksBelow(fs, r)
    requires next.Some? ==> next.value.column.Rank() == r
    ensures InColumnOrder(fs + AsList(next)) && RanksBelow(fs + AsList(next), r + 1)
  {
    assert forall i :: 0 <= i < |fs| ==> (fs + AsList(next))[i] == fs[i];
  }

  /**
   * The filters, and so the conditions and the values bound to them, come
   * in the fixed order title, cuisine, rating, total_time, serves, each at
   * most once.
   */
  lemma IncludedOrder<R>(a: SearchArgs<R>)
    ensures InColumnOrder(Included(a))
  {
    var x0 := AsList(TitleFilter(a));
    assert InColumnOrder(x0) && RanksBelow(x0, 1) by {
      AppendInOrder([], TitleFilter(a), 0);
      assert [] + x0 == x0;
    }
    var x1 := x0 + AsList(CuisineFilter(a));
    assert InColumnOrder(x1) && RanksBelow(x1, 2) by {
      AppendInOrder(x0, CuisineFilter(a), 1);
    }
    var x2 := x1 + AsList(RatingFilter(a));
    assert InColumnOrder(x2) && RanksBelow(x2, 3) by {
      AppendInOrder(x1, RatingFilter(a), 2);
    }
    var x3 := x2 + AsList(TotalTimeFilter(a));
    assert InColumnOrder(x3) && RanksBelow(x3, 4) by {
      AppendInOrder(x2, TotalTimeFilter(a), 3);
    }
    AppendInOrder(x3, ServesFilter(a), 4);
  }

  /** The value bound to the first filter on `column`, if any. */
  function ArgFor<R>(fs: seq<Filter<R>>, column: Column): Option<Param<R>>
  {
    if fs == [] then None
    else if fs[0].column == column then Some(fs[0].arg)
    else ArgFor(fs[1..], column)
  }

  lemma {:induction false} ArgForAppend<R>(fs: seq<Filter<R>>, gs: seq<Filter<R>>, column: Column)
    ensures ArgFor(fs + gs, column) == if ArgFor(fs, column).Some? then ArgFor(fs, column) else ArgFor(gs, column)
  {
    if fs == [] {
      assert fs + gs == gs;
    } else {
      assert (fs + gs)[1..] == fs[1..] + gs;
      ArgForAppend(fs[1..], gs, column);
    }
  }

  /**
   * Which filters take part and what is bound to them: title, cuisine,
   * total_time and serves when the argument is present and non-empty,
   * rating whenever it is present (so a rating of 0 still filters); title is
   * wrapped as the contains pattern `%title%`, serves as the prefix pattern
   * `serves%`, and cuisine, rating and total_time are bound as given.
   */
  lemma {:induction false} IncludedArgs<R>(a: SearchArgs<R>, column: Column)
    ensures ArgFor(Included(a), column) ==
      match column
      case TitleColumn => if Truthy(a.title) then Some(Text("%" + a.title.value + "%")) else None
      case CuisineColumn => if Truthy(a.cuisine) then Some(Text(a.cuisine.value)) else None
      case RatingColumn => if a.rating.Some? then Some(Real(a.rating.value)) else None
      case TotalTimeColumn => if Truthy(a.totalTime) then Some(Text(a.totalTime.value)) else None
      case ServesColumn => if Truthy(a.serves) then Some(Text(a.serves.value + "%")) else None
  {
    var t, c, r, tt, s := AsList(TitleFilter(a)), AsList(CuisineFilter(a)), AsList(RatingFilter(a)),
                          AsList(TotalTimeFilter(a)), AsList(ServesFilter(a));
    ArgForAppend(t, c, column);
    ArgForAppend(t + c, r, column);
    ArgForAppend(t + c + r, tt, column);
    ArgForAppend(t + c + r + tt, s, column);
  }

  /** With no filter given, the statement only pages through all recipes. */
  lemma UnfilteredSearch<R>(page: IntArg, limit: IntArg)
    requires !page.Malformed? && !limit.Malformed?
    ensures var a: SearchArgs<R> := SearchArgs(None, None, None, None, None, page, limit);
      Search(a) == Run(Statement(Base + Paging,
                                 [Int(ArgOr(limit, 10).value), Int(Offset(ArgOr(page, 1).value, ArgOr(limit, 10).value))]))
  {
    var a: SearchArgs<R> := SearchArgs(None, None, None, None, None, page, limit);
    assert Conditions(a) == [] && Values(a) == [];
    assert Base + [] == Base;
  }

  /** `SELECT * FROM recipes LIMIT ? OFFSET ?` */
  const ListAll := [Sql(SelectAll)] + Paging
  /** `SELECT * FROM recipes WHERE cuisine = ? LIMIT ? OFFSET ?` */
  const ListByCuisine := [Sql(SelectByCuisine), Placeholder] + Paging
  const CuisineRequired := "Cuisine parameter is required"

  /** `get_all_recipes` up to `cursor.execute`. */
  function AllRecipes<R>(page: IntArg, limit: IntArg): Response<R>
  {
    var p, l := ArgOr(page, 1), ArgOr(limit, 10);
    if p.None? || l.None? then ServerError
    else Run(Statement(ListAll, [Int(l.value), Int(Offset(p.value, l.value))]))
  }

  /**
   * `get_recipes_by_cuisine` up to `cursor.execute`: the cuisine check
   * comes before page and limit are parsed.
   */
  function ByCuisine<R>(cuisine: Option<string>, page: IntArg, limit: IntArg): Response<R>
  {
    if !Truthy(cuisine) then BadRequest(CuisineRequired)
    else
      var p, l := ArgOr(page, 1), ArgOr(limit, 10);
      if p.None? || l.None? then ServerError
      else Run(Statement(ListByCuisine, [Text(cuisine.value), Int(l.value), Int(Offset(p.value, l.value))]))
  }

  /**
   * The cuisine route answers 400 with its message exactly when the cuisine
   * is missing or empty, whatever page and limit hold, so no statement is
   * built; otherwise it is 500 exactly when page or limit is malformed.
   */
  lemma CuisineChecked<R>(cuisine: Option<string>, page: IntArg, limit: IntArg)
    ensures ByCuisine<R>(cuisine, page, limit).BadRequest? <==> cuisine.None? || cuisine.value == ""
    ensures ByCuisine<R>(cuisine, page, limit).BadRequest? ==> ByCuisine<R>(cuisine, page, limit).message == CuisineRequired
    ensures ByCuisine<R>(cuisine, page, limit).ServerError? <==> Truthy(cuisine) && (page.Malformed? || limit.Malformed?)
  {
  }

  /**
   * `get_all_recipes` pages the same way as the search: the same defaults,
   * the same offset, and one placeholder per parameter, limit then offset.
   */
  lemma AllRecipesPage<R>(page: IntArg, limit: IntArg)
    ensures AllRecipes<R>(page, limit).ServerError? <==> page.Malformed? || limit.Malformed?
    ensures AllRecipes<R>(page, limit).Run? ==>
      && Placeholders(ListAll) == |AllRecipes<R>(page, limit).statement.params|
      && AllRecipes<R>(page, limit).statement.params ==
           Search(SearchArgs<R>.SearchArgs(None, None, None, None, None, page, limit)).statement.params
  {
    if AllRecipes<R>(page, limit).Run? {
      assert Placeholders(ListAll) == 2;
      UnfilteredSearch<R>(page, limit);
    }
  }

  /**
   * `get_recipes_by_cuisine` binds the cuisine, then pages as the search
   * filtered on that cuisine alone does, one placeholder per parameter.
   */
  lemma ByCuisinePage<R>(cuisine: Option<string>, page: IntArg, limit: IntArg)
    ensures ByCuisine<R>(cuisine, page, limit).Run? ==>
      && Placeholders(ListByCuisine) == |ByCuisine<R>(cuisine, page, limit).statement.params|
      && ByCuisine<R>(cuisine, page, limit).statement.params ==
           Search(SearchArgs<R>.SearchArgs(None, cuisine, None, None, None, page, limit)).statement.params
  {
    if ByCuisine<R>(cuisine, page, limit).Run? {
      assert Placeholders(ListByCuisine) == 3;
      var a: SearchArgs<R> := SearchArgs(None, cuisine, None, None, None, page, limit);
      assert Values(a) == [Text(cuisine.value)];
    }
  }
}
