/**
 * The page controller of static/app.js as an object: the cursor
 * `currentPage`, the cache `currentData`, the filter inputs and what the page
 * shows are fields, and each click handler and fetch callback is a method.
 * Every method is proved to move the object along the matching transition of
 * ViewModel, so the lemmas proved there hold of the object.
 *
 * A load is split in two: the handler that starts it returns the query it
 * sends, and later exactly one of OnLoadSuccess or OnLoadFailure completes it.
 * Loads may overlap; nothing ties a completion to the load it answers.
 */
module ViewController {
  import opened Wrappers
  import opened JsText
  import opened Recipes
  import opened QueryBuilder
  import opened ViewModel

  class RecipeBrowser {
    var page: int
    var cache: seq<Recipe>
    var title: string
    var cuisine: string
    var rating: string
    var totalTime: string
    var serves: string
    var limit: string
    var indicator: string
    var display: Display
    var drawerOpen: bool
    var detail: Option<Detail>
    /** Loads started and not yet completed. */
    ghost var pending: nat

    function Inputs(): Filters
      reads this
    {
      Filters(title, cuisine, rating, totalTime, serves, limit)
    }

    function State(): View
      reads this
    {
      View(page, cache, Inputs(), indicator, display, drawerOpen, detail)
    }

    predicate Valid()
      reads this
    {
      Consistent(State())
    }

    /** The page is set up with the inputs' initial values and issues its first load. */
    constructor (initial: Filters)
      ensures Valid() && State() == Init(initial) && pending == 1
    {
      page := 1;
      cache := [];
      title, cuisine, rating, totalTime, serves, limit :=
        initial.title, initial.cuisine, initial.rating, initial.totalTime, initial.serves, initial.limit;
      indicator := "";
      display := Unrendered;
      drawerOpen := false;
      detail := None;
      pending := 0;
      new;
      var _ := LoadRecipes();
    }

    /** `loadRecipes` up to the fetch: builds the parameters and sets the span. */
    method LoadRecipes() returns (q: Query)
      modifies this
      ensures q == Request(old(State())) && q == Request(State())
      ensures State() == StartLoad(old(State()))
      ensures pending == old(pending) + 1
    {
      ghost var v := State();
      q := LoadParams(Inputs(), page);
      assert q == Request(v);
      indicator := IntToString(page);
      pending := pending + 1;
      assert State() == v.(indicator := IntToString(v.page));
      assert Request(State()) == BuildQuery(v.filters, v.page);
    }

    method Apply() returns (q: Query)
      requires Valid()
      modifies this
      ensures Valid() && State() == ViewModel.Apply(old(State()))
      ensures q == Request(State()) && pending == old(pending) + 1
    {
      page := 1;
      q := LoadRecipes();
    }

    /**
     * The reset button: `resetFilters` clears the inputs, writes 50 into
     * the page size, sets the cursor to 1 and loads. The click handler's own
     * `currentPage = 1` is repeated by `resetFilters` before anything reads
     * the cursor, so the model makes that assignment once, through Apply.
     */
    method Reset() returns (q: Query)
      requires Valid()
      modifies this
      ensures Valid() && State() == ViewModel.Reset(old(State()))
      ensures q == Request(State()) && pending == old(pending) + 1
    {
      EditFilters(ClearedFilters);
      q := Apply();
    }

    method Prev() returns (q: Option<Query>)
      requires Valid()
      modifies this
      ensures Valid() && State() == ViewModel.Prev(old(State()))
      ensures q == (if old(page) > 1 then Some(Request(State())) else None)
      ensures pending == old(pending) + (if old(page) > 1 then 1 else 0)
    {
      if page > 1 {
        page := page - 1;
        var sent := LoadRecipes();
        q := Some(sent);
      } else {
        q := None;
      }
    }

    method Next() returns (q: Query)
      requires Valid()
      modifies this
      ensures Valid() && State() == ViewModel.Next(old(State()))
      ensures q == Request(State()) && pending == old(pending) + 1
    {
      page := page + 1;
      q := LoadRecipes();
    }

    /** The user types into the filter inputs. */
    method EditFilters(f: Filters)
      requires Valid()
      modifies this
      ensures Valid() && State() == Edit(old(State()), f) && pending == old(pending)
    {
      ghost var v := State();
      title, cuisine, rating, totalTime, serves, limit := f.title, f.cuisine, f.rating, f.totalTime, f.serves, f.limit;
      assert Inputs() == f;
      assert State() == v.(filters := f);
    }

    /** The fetch resolved with the JSON array `data`. */
    method OnLoadSuccess(data: seq<Recipe>)
      requires Valid() && pending > 0
      modifies this
      ensures Valid() && State() == Loaded(old(State()), data) && pending == old(pending) - 1
    {
      cache := data;
      if |data| == 0 {
        if page > 1 {
          page := page - 1;
          indicator := IntToString(page);
        }
        display := NoResults;
      } else {
        var rows := RenderTable(data);
        display := Table(rows);
      }
      pending := pending - 1;
    }

    /** The fetch or the decoding of its body failed. */
    method OnLoadFailure()
      requires Valid() && pending > 0
      modifies this
      ensures Valid() && State() == LoadError(old(State())) && pending == old(pending) - 1
    {
      display := LoadFailed;
      pending := pending - 1;
    }

    /**
     * A click on table row `i`: the row's handler looks up `currentData[i]`
     * and opens the drawer on it. Without such a row nothing happens.
     */
    method Select(i: int) returns (r: Option<Recipe>)
      requires Valid()
      modifies this
      ensures Valid() && State() == ViewModel.Select(old(State()), i) && pending == old(pending)
      ensures r == RowRecord(old(State()), i)
    {
      if display.Table? && 0 <= i < |display.rows| {
        var recipe := cache[i];
        var nutrition := NutritionTable(NutrientSource(recipe));
        detail := Some(Detail(recipe.title, recipe.cuisine,
                              OrDefault(recipe.description, "No description available."),
                              OrDefault(recipe.totalTime, "N/A"), OrDefault(recipe.cookTime, "N/A"),
                              OrDefault(recipe.prepTime, "N/A"), nutrition));
        drawerOpen := true;
        r := Some(recipe);
      } else {
        r := None;
      }
    }

    method CloseDrawer()
      requires Valid()
      modifies this
      ensures Valid() && State() == ViewModel.CloseDrawer(old(State())) && pending == old(pending)
    {
      drawerOpen := false;
    }
  }
}
