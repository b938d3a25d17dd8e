/**
 * The state of the recipe browser page (static/app.js) as a value, and one
 * transition function per event the page reacts to. The controller class in
 * ViewController keeps the same state in fields and is proved to follow
 * these transitions; the lemmas here state what the transitions promise.
 */
module ViewModel {
  import opened Wrappers
  import opened JsText
  import opened Recipes
  import opened QueryBuilder

  /** What the result area `#recipeList` shows. */
  datatype Display =
    | Unrendered              // the page's initial markup, before any response
    | Table(rows: seq<Row>)   // the recipe table
    | NoResults               // the "No recipes found" fallback
    | LoadFailed              // the "Failed to load recipes" message

  /**
   * `page` is `currentPage`, `cache` is `currentData`, `filters` the input
   * values, `indicator` the text of the page number span, and the drawer is
   * open with `detail` after a row click.
   */
  datatype View = View(
    page: int,
    cache: seq<Recipe>,
    filters: Filters,
    indicator: string,
    display: Display,
    drawerOpen: bool,
    detail: Option<Detail>)

  /**
   * The page's invariant: the cursor is at least 1, the page number span
   * shows the cursor, and a table on screen has one row per cached record, in
   * cache order.
   */
  predicate Consistent(v: View)
  {
    && v.page >= 1
    && v.indicator == IntToString(v.page)
    && (v.display.Table? ==> v.cache != [] && v.display.rows == Rows(v.cache))
  }

  /** The query a load issued in state `v` sends. */
  function Request(v: View): Query
  {
    BuildQuery(v.filters, v.page)
  }

  /** `loadRecipes` up to the fetch: the span is set to the cursor. */
  function StartLoad(v: View): View
  {
    v.(indicator := IntToString(v.page))
  }

  /** The state once the page has loaded and issued its first load, with the inputs' initial values. */
  function Init(f: Filters): View
  {
    StartLoad(View(1, [], f, "", Unrendered, false, None))
  }

  /** The user edits the filter inputs. */
  function Edit(v: View, f: Filters): View
  {
    v.(filters := f)
  }

  /** Apply: back to page 1, then load. */
  function Apply(v: View): View
  {
    StartLoad(v.(page := 1))
  }

  /** Reset: clear the inputs, page size 50, back to page 1, then load. */
  function Reset(v: View): View
  {
    StartLoad(v.(page := 1, filters := ClearedFilters))
  }

  /** Previous page: only above page 1, and only then a load. */
  function Prev(v: View): View
  {
    if v.page > 1 then StartLoad(v.(page := v.page - 1)) else v
  }

  /** Next page: always, then load. */
  function Next(v: View): View
  {
    StartLoad(v.(page := v.page + 1))
  }

  /**
   * A response `data` arrived. The cache is replaced; an empty page shows the
   * fallback and, above page 1, steps the cursor and the span back by one;
   * otherwise the table is rendered from the data.
   */
  function Loaded(v: View, data: seq<Recipe>): View
  {
    if data == [] then
      if v.page > 1 then
        v.(cache := [], page := v.page - 1, indicator := IntToString(v.page - 1), display := NoResults)
      else
        v.(cache := [], display := NoResults)
    else
      v.(cache := data, display := Table(Rows(data)))
  }

  /** The fetch or the JSON decoding failed: only the message changes. */
  function LoadError(v: View): View
  {
    v.(display := LoadFailed)
  }

  /** The record behind table row `i`, if the table is shown and has that row. */
  function RowRecord(v: View, i: int): Option<Recipe>
  {
    if v.display.Table? && 0 <= i < |v.display.rows| && i < |v.cache| then Some(v.cache[i]) else None
  }

  /** A click on row `i` opens the drawer on that row's record. */
  function Select(v: View, i: int): View
  {
    match RowRecord(v, i)
    case Some(r) => v.(drawerOpen := true, detail := Some(ProjectDetail(r)))
    case None => v
  }

  function CloseDrawer(v: View): View
  {
    v.(drawerOpen := false)
  }

  /** The events the page reacts to. */
  datatype Event =
    | EditFilters(f: Filters)
    | ApplyClicked
    | ResetClicked
    | PrevClicked
    | NextClicked
    | Responded(data: seq<Recipe>)
    | Failed
    | RowClicked(i: int)
    | DrawerClosed

  function Step(v: View, e: Event): View
  {
    match e
    case EditFilters(f) => Edit(v, f)
    case ApplyClicked => Apply(v)
    case ResetClicked => Reset(v)
    case PrevClicked => Prev(v)
    case NextClicked => Next(v)
    case Responded(data) => Loaded(v, data)
    case Failed => LoadError(v)
    case RowClicked(i) => Select(v, i)
    case DrawerClosed => CloseDrawer(v)
  }

  function Run(v: View, events: seq<Event>): View
    decreases |events|
  {
    if events == [] then v else Run(Step(v, events[0]), events[1..])
  }

  /** The query the handler of `e` sends in state `v`, if it sends one. */
  function Issued(v: View, e: Event): Option<Query>
  {
    match e
    case ApplyClicked => Some(Request(Apply(v)))
    case ResetClicked => Some(Request(Reset(v)))
    case PrevClicked => if v.page > 1 then Some(Request(Prev(v))) else None
    case NextClicked => Some(Request(Next(v)))
    case _ => None
  }

  lemma InitConsistent(f: Filters)
    ensures Consistent(Init(f))
    ensures Init(f).page == 1 && Init(f).cache == []
  {
  }

  /** Every event keeps the invariant. */
  lemma StepConsistent(v: View, e: Event)
    requires Consistent(v)
    ensures Consistent(Step(v, e))
  {
  }

  /**
   * The cursor stays at least 1, and the span and the table stay in step with
   * the cursor and the cache, whatever clicks, responses and failures arrive
   * and in whatever order.
   */
  lemma {:induction false} RunConsistent(v: View, events: seq<Event>)
    requires Consistent(v)
    ensures Consistent(Run(v, events))
    ensures Run(v, events).page >= 1
    decreases |events|
  {
    if events != [] {
      StepConsistent(v, events[0]);
      RunConsistent(Step(v, events[0]), events[1..]);
    }
  }

  /** The page moves: apply and reset go to page 1, next adds one, previous subtracts one above page 1. */
  lemma PageMoves(v: View)
    requires Consistent(v)
    ensures Apply(v).page == 1 && Reset(v).page == 1
    ensures Next(v).page == v.page + 1
    ensures v.page > 1 ==> Prev(v).page == v.page - 1
  {
  }

  /** Previous at page 1 changes nothing and issues no request. */
  lemma PrevAtFirstPage(v: View)
    requires Consistent(v) && v.page == 1
    ensures Prev(v) == v && Issued(v, PrevClicked) == None
  {
  }

  /** Previous undoes next; next undoes previous above page 1. */
  lemma PrevUndoesNext(v: View)
    requires Consistent(v)
    ensures Prev(Next(v)) == v
    ensures v.page > 1 ==> Next(Prev(v)) == v
  {
  }

  /** Every request starts with the page cursor and the effective page size. */
  lemma RequestsCarryCursor(v: View, e: Event)
    requires Consistent(v)
    ensures Issued(v, e).Some? ==>
      var q := Issued(v, e).value;
      q[0] == (Page, IntToString(Step(v, e).page)) && q[1] == (Limit, IntToString(EffectiveLimit(Step(v, e).filters.limit)))
  {
  }

  /** Reset twice is reset once: same inputs, same cursor, same request. */
  lemma ResetIdempotent(v: View)
    ensures Reset(Reset(v)) == Reset(v)
    ensures Request(Reset(Reset(v))) == Request(Reset(v))
    ensures Reset(v).filters == ClearedFilters && Reset(v).page == 1
  {
  }

  /** After reset the request is exactly page 1 with 50 records. */
  lemma ResetRequest(v: View)
    ensures Request(Reset(v)) == [(Page, "1"), (Limit, "50")]
  {
    EffectiveLimitOfNumber(50);
    assert IntToString(50) == "50";
    BlankFiltersSendPageAndLimit(ClearedFilters, 1);
  }

  /**
   * An empty response empties the cache and shows the fallback; above page 1
   * the cursor and the span go back by exactly one, on page 1 they stay.
   */
  lemma EmptyResponse(v: View)
    requires Consistent(v)
    ensures var w := Loaded(v, []);
      && w.cache == [] && w.display == NoResults
      && w.page == (if v.page > 1 then v.page - 1 else 1)
      && w.indicator == IntToString(w.page)
      && w.filters == v.filters
  {
  }

  /** An empty next page lands back on the page the user was on. */
  lemma EmptyNextPageRollsBack(v: View)
    requires Consistent(v)
    ensures Loaded(Next(v), []).page == v.page
    ensures Loaded(Next(v), []).indicator == v.indicator
  {
  }

  /** A non-empty response replaces the cache and renders one row per record. */
  lemma NonEmptyResponse(v: View, data: seq<Recipe>)
    requires data != []
    ensures var w := Loaded(v, data);
      w.cache == data && w.page == v.page && w.display == Table(Rows(data))
  {
  }

  /**
   * A failure leaves the cursor, the span and the cache alone; after a failed
   * next page the span still shows the page that was asked for.
   */
  lemma FailureKeepsState(v: View)
    requires Consistent(v)
    ensures LoadError(v).page == v.page && LoadError(v).cache == v.cache
    ensures LoadError(v).indicator == v.indicator
    ensures LoadError(Next(v)).page == v.page + 1
    ensures LoadError(Next(v)).indicator == IntToString(v.page + 1)
  {
  }

  /** Row `i` of a shown table selects `cache[i]`; anything else selects nothing. */
  lemma SelectionIsPositional(v: View, i: int)
    requires Consistent(v)
    ensures RowRecord(v, i) == if v.display.Table? && 0 <= i < |v.cache| then Some(v.cache[i]) else None
    ensures RowRecord(v, i).Some? ==> Select(v, i).detail == Some(ProjectDetail(v.cache[i]))
  {
  }

  /**
   * Responses are applied in the order they arrive, not the order they were
   * asked for: when two next-page loads overlap and the earlier one answers
   * last, its records stay on screen under the later page number.
   */
  lemma LateResponseWins(v: View, second: seq<Recipe>, first: seq<Recipe>)
    requires Consistent(v) && first != [] && second != []
    ensures var w := Loaded(Loaded(Next(Next(v)), second), first);
      w.page == v.page + 2 && w.cache == first
  {
  }

  /**
   * From page 3, previous asks for page 2; ten records in answer leave the
   * cursor on 2 with those records cached, and row 0 selects the first.
   */
  lemma PrevThenTenRecords(v: View, data: seq<Recipe>)
    requires Consistent(v) && v.page == 3 && |data| == 10
    ensures Request(Prev(v))[0] == (Page, "2")
    ensures var w := Loaded(Prev(v), data);
      w.page == 2 && w.cache == data && RowRecord(w, 0) == Some(data[0])
  {
    assert IntToString(2) == "2";
  }
}
