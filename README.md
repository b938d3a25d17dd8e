# Recipe browser: page controller and search query builder

This project models two small pieces of logic from the recipe browser web
application:

- the browser-side controller in `static/app.js`, which owns the page cursor
  `currentPage` and the result cache `currentData`. Its click handlers
  (apply, reset, previous, next) move the cursor and start a load.
  `loadRecipes` turns the filter inputs into the query parameters of
  `GET /api/recipes/search`. The fetch callbacks replace the cache, roll the
  cursor back after an empty page, or show the failure message. A row click
  opens the detail drawer on the record at that row's position.
- the statement building in `app.py`. `search_recipes` grows an SQL string and
  a parameter list from the optional filters. The three list routes compute
  the paging offset `(page - 1) * limit`, and the cuisine route answers 400
  when no cuisine is given.

Modules, one per file:

- `wrappers.dfy` (`Wrappers`): the `Option` type.
- `js_text.dfy` (`JsText`): the three JavaScript string operations the
  controller relies on: `trim`, `parseInt(s, 10)` and the decimal text of
  an integral number.
- `recipes.dfy` (`Recipes`): a recipe record as parsed JSON. Also the table
  row rendered for it, with JavaScript `||` defaults, and the detail drawer
  projection, including the nutrient table filtered against the fixed list
  of nine keys. The two `forEach` loops are methods proved against the
  functions that specify them.
- `query_builder.dfy` (`QueryBuilder`): the filter inputs, the page-size
  normalisation, and the ordered list of query parameters.
  `LoadParams`/`AppendParams` are the successive `append` calls, proved
  equal to the function `BuildQuery`. The lemmas state order, presence and
  values.
- `view_model.dfy` (`ViewModel`): the page state as a value `View`, one
  transition function per event, and the lemmas about them. Among these is
  the invariant that the cursor is at least 1 and the page number span
  shows it, after any sequence of events.
- `view_controller.dfy` (`ViewController`): the class `RecipeBrowser` whose
  fields are the cursor, the cache, the inputs and what the page shows.
  Each handler and callback is a method proved to move the object along the
  matching `ViewModel` transition and to keep the invariant. A load is a
  start step (`LoadRecipes`, which returns the query sent) followed by
  exactly one completion, `OnLoadSuccess` or `OnLoadFailure`. A ghost
  counter tracks loads started and not yet completed. As in the source,
  nothing ties a completion to the load it answers.
- `search_sql.dfy` (`SearchSql`): the statements the three list routes hand
  to SQLite, as tokens (fixed SQL fragments and `?` placeholders) with their
  parameter lists. `SearchRecipes`/`BuildSearch` are the straight-line
  appends of `search_recipes`, proved equal to the function `Search`. The
  lemmas state the placeholder count, the clause order, the inclusion rules
  and the LIKE patterns. They also relate the other two routes to the search.

Notes on what the code does:

- The page size is only bounded below (`EffectiveLimitOfNumber`), although
  a comment in `loadRecipes` speaks of a range of 1 to 50.
- `loadRecipes` appends the optional parameters in the order title,
  cuisine, rating, total_time, serves (`QueryParameters`).
- A page size that starts with digits and continues with other text
  (`"12abc"`) is sent as the number its digits spell, as `parseInt` does.
  Text whose first non-space character, after an optional sign, is not a
  digit (`"abc12"`, `"x5"`, empty text) becomes 1, and so does a number
  below 1.

## Model

| member | source | states |
|---|---|---|
| JsText.TrimSpec | static/app.js:61-65 | `trim` drops exactly the leading and trailing white space. The result is the slice right after the leading space, only white space follows it, neither of its ends is white space, and it is empty exactly when the input is all white space. |
| JsText.TrimSlice | static/app.js:61-65 | What `trim` keeps is the slice of the input right after its leading white space, and only white space follows it. |
| JsText.TrimEmpty | static/app.js:61-65 | `trim` gives the empty string exactly when the input is all white space. |
| JsText.TrimIdempotent | static/app.js:61-65 | Trimming a trimmed value changes nothing. |
| JsText.ParseIntOfDecimal | static/app.js:67 | `parseInt` reads back the decimal text of any integer, including a negative one, and ignores non-digit text after it. |
| JsText.ParseIntRoundTrip | static/app.js:67 | `parseInt(String(n), 10) == n` for every integer `n`. |
| JsText.ParseIntWithoutDigits | static/app.js:67-70 | Text without a decimal digit parses as NaN. |
| QueryBuilder.Pairs | static/app.js:74-85 | The URL carries one name/value pair per parameter, in the same order, under the key's query-string name. |
| QueryBuilder.EffectiveLimit | static/app.js:66-72 | The page size sent is always at least 1. |
| QueryBuilder.EffectiveLimitOfNumber | static/app.js:66-72 | A number typed as the page size is sent unchanged when it is at least 1, however large, and as 1 otherwise. |
| QueryBuilder.EffectiveLimitWithoutDigits | static/app.js:66-72 | A page size without digits (empty, letters only) is sent as 1. |
| QueryBuilder.BuildQuery | static/app.js:74-77 | The query always starts with `page` set to the cursor, then `limit` set to the effective page size. |
| QueryBuilder.LoadParams | static/app.js:60-83 | The trim, parse, clamp and append statements of `loadRecipes` produce exactly `BuildQuery` of the inputs and the cursor. |
| QueryBuilder.AppendParams | static/app.js:75-83 | The two unconditional appends followed by the five conditional ones produce the parameter list, with each filter appended only when non-empty. |
| QueryBuilder.FilterParamsOrder | static/app.js:79-83 | The optional parameters come in the order title, cuisine, rating, total_time, serves, each at most once. |
| QueryBuilder.ParamsOrder | static/app.js:76-83 | The keys of the whole list appear once each, in the order page, limit, title, cuisine, rating, total_time, serves. |
| QueryBuilder.FilterFind | static/app.js:79-83 | The optional part carries each filter's value exactly when that value is non-empty, and never carries page or limit. |
| QueryBuilder.ParamsFind | static/app.js:76-83 | Looking up any key in the list gives page and limit as appended, and each filter exactly when non-empty. |
| QueryBuilder.QueryParameters | static/app.js:61-83 | For any inputs and cursor, the sent query has the canonical key order, page and limit first, and each optional filter present exactly when its trimmed input is non-empty, carrying the trimmed value. |
| QueryBuilder.BlankFiltersSendPageAndLimit | static/app.js:61-83 | With every filter blank or all white space, the query is exactly page and limit, and so is the list of URL pairs. |
| QueryBuilder.UrlOpensWithPageAndLimit | static/app.js:74-77 | The URL pairs open with `page` and then `limit`, the limit written as decimal text that parses back to the page size sent. |
| Recipes.OrDefault | static/app.js:128-132 | `v \|\| placeholder` shows a truthy value as it is and replaces a falsy one (absent, null, false, zero, empty text) by the placeholder. With a non-empty placeholder the value shown is never falsy. |
| Recipes.Rows | static/app.js:125-135 | The table has one row per record, in list order, row `i` rendering record `i`. |
| Recipes.RenderTable | static/app.js:125-135 | The `data.forEach` loop builds exactly `Rows(data)`. |
| Recipes.Pick | static/app.js:168-174 | Every nutrient row lists a known key with its value in the record, and every known key the record defines is listed. |
| Recipes.PickFollowsKeyOrder | static/app.js:164-174 | With distinct keys, the nutrient rows follow the order of the key list. |
| Recipes.NutritionTable | static/app.js:168-174 | The `nutrientKeys.forEach` loop builds exactly the picked rows for the nine known keys. |
| Recipes.NutrientKeysDistinct | static/app.js:164-167 | The nine nutrient keys are pairwise distinct. |
| Recipes.DetailNutrition | static/app.js:161-174 | The drawer's nutrient table holds exactly the known keys the record defines, each with its value, in the fixed order. Unknown keys are dropped, and undefined ones are left out rather than shown. |
| Recipes.PlaceholdersNeverBlank | static/app.js:156-159 | The description, the three times and all five table cells are never falsy, thanks to their placeholders. |
| ViewModel.InitConsistent | static/app.js:8-9 | After the initial load starts, the cursor is 1, the cache is empty and the page invariant holds. |
| ViewModel.StepConsistent | static/app.js:11-31 | Every click, response, failure, row click and drawer close keeps the invariant: cursor at least 1, span showing the cursor, table matching the cache. |
| ViewModel.RunConsistent | static/app.js:8-107 | Any sequence of events, in any order, keeps the invariant, so the cursor is at least 1 afterwards. |
| ViewModel.PageMoves | static/app.js:11-31 | Apply and reset go to page 1, next adds one, and previous subtracts one above page 1. |
| ViewModel.PrevAtFirstPage | static/app.js:21-26 | Previous on page 1 changes nothing and sends no request. |
| ViewModel.PrevUndoesNext | static/app.js:21-31 | Previous undoes next, and next undoes previous above page 1. |
| ViewModel.RequestsCarryCursor | static/app.js:74-86 | Every request a click sends starts with the new cursor and the effective page size. |
| ViewModel.ResetIdempotent | static/app.js:49-58 | Reset clears the inputs and sets page 1. Resetting twice gives the same state and the same request as resetting once. |
| ViewModel.ResetRequest | static/app.js:49-58 | After reset the request is exactly `page=1`, `limit=50`. |
| ViewModel.EmptyResponse | static/app.js:91-106 | An empty response empties the cache and shows the fallback. Above page 1 the cursor and the span go back by exactly one; on page 1 they stay. |
| ViewModel.EmptyNextPageRollsBack | static/app.js:95-100 | An empty next page lands back on the page and the span text the user had. |
| ViewModel.NonEmptyResponse | static/app.js:91-137 | A non-empty response replaces the cache, keeps the cursor and renders one row per record. |
| ViewModel.FailureKeepsState | static/app.js:141-144 | A failure leaves the cursor, span and cache alone. After a failed next page the span shows the page that was asked for. |
| ViewModel.SelectionIsPositional | static/app.js:147-151 | Row `i` of a shown table selects `cache[i]`, and the drawer shows its projection. Any other index selects nothing. |
| ViewModel.LateResponseWins | static/app.js:88-91 | Responses are applied in arrival order. When two next-page loads overlap and the earlier one answers last, its records stay under the later page number. |
| ViewModel.PrevThenTenRecords | static/app.js:21-26 | From page 3, previous asks for page 2. Ten records in answer leave the cursor on 2 with those records cached, and row 0 selects the first. |
| ViewController.RecipeBrowser.constructor | static/app.js:8-47 | The page starts on cursor 1 with an empty cache and issues its first load. |
| ViewController.RecipeBrowser.LoadRecipes | static/app.js:60-86 | `loadRecipes` sends `BuildQuery` of the current inputs and cursor, and sets the span to the cursor. |
| ViewController.RecipeBrowser.Apply | static/app.js:11-14 | The apply handler moves the object along `Apply`, keeps the invariant and sends the new state's request. |
| ViewController.RecipeBrowser.Reset | static/app.js:49-58 | The reset handler with `resetFilters` moves the object along `Reset`, keeps the invariant and sends the request of the cleared state. |
| ViewController.RecipeBrowser.Prev | static/app.js:21-26 | The previous handler moves the object along `Prev`, and sends a request exactly when the cursor was above 1. |
| ViewController.RecipeBrowser.Next | static/app.js:28-31 | The next handler moves the object along `Next` and sends the request for the next page. |
| ViewController.RecipeBrowser.EditFilters | static/app.js:61-66 | Typing into the inputs changes only the values `loadRecipes` reads. |
| ViewController.RecipeBrowser.OnLoadSuccess | static/app.js:90-139 | The success callback moves the object along `Loaded` and keeps the invariant. |
| ViewController.RecipeBrowser.OnLoadFailure | static/app.js:141-144 | The failure callback moves the object along `LoadError`, changing only the message. |
| ViewController.RecipeBrowser.Select | static/app.js:147-174 | A row click returns the record at that position, if the table has that row, and opens the drawer on its projection. |
| ViewController.RecipeBrowser.CloseDrawer | static/app.js:182-187 | Closing the drawer changes only its visibility. |
| SearchSql.OffsetPages | app.py:49 | Page 1 starts at offset 0, each page starts where the previous one ends, and the offset is non-negative for page at least 1 and a non-negative limit. |
| SearchSql.SearchRecipes | app.py:42-75 | `search_recipes` up to `execute` answers 500 on a malformed page or limit, and otherwise builds exactly `Search`'s statement. |
| SearchSql.BuildSearch | app.py:54-75 | The successive `+=`, `append` and `extend` statements build the base statement, the included conditions, then the paging clause, with values, limit and offset. |
| SearchSql.ClausesMatchValues | app.py:57-72 | There is one condition with one placeholder per filter that takes part, and the values are those filters' values in the same order. |
| SearchSql.ConditionsFollowFilters | app.py:57-72 | The conditions of the statement are, in order, the condition of each filter that takes part, in the order title, cuisine, rating, total_time, serves. |
| SearchSql.ConditionsBindValues | app.py:57-72 | Condition `i` of the statement is the condition of the `i`-th filter that takes part, its placeholder is the `i`-th placeholder, and the `i`-th parameter is that filter's value. |
| SearchSql.ConditionText | app.py:57-72 | As text, the conditions are " AND title LIKE ?", " AND cuisine = ?", " AND rating >= ?", " AND total_time = ?" and " AND serves LIKE ?". |
| SearchSql.SearchPlaceholders | app.py:54-75 | The statement has exactly as many `?` placeholders as parameters. |
| SearchSql.SearchShape | app.py:47-75 | The answer is 500 exactly when page or limit is malformed. Otherwise the statement starts with the base statement and ends with the paging clause, and the last two parameters are the limit and `(page - 1) * limit`, with defaults 1 and 10. |
| SearchSql.BaseText | app.py:54 | The base statement reads `SELECT * FROM recipes WHERE 1=1`. |
| SearchSql.PagingText | app.py:74 | The paging clause reads ` LIMIT ? OFFSET ?`. |
| SearchSql.SearchText | app.py:54-74 | As text, the statement is the base statement, then the conditions, then the paging clause. |
| SearchSql.IncludedOrder | app.py:57-72 | Conditions and values come in the fixed order title, cuisine, rating, total_time, serves, each at most once. |
| SearchSql.IncludedArgs | app.py:57-72 | Title, cuisine, total_time and serves take part exactly when present and non-empty, and rating whenever present, even 0. Title is bound as `%title%`, serves as `serves%`, and cuisine, rating and total_time as given. |
| SearchSql.UnfilteredSearch | app.py:54-75 | With no filter, the statement is the base statement and the paging clause, bound to limit and offset. |
| SearchSql.CuisineChecked | app.py:111-116 | The cuisine route answers 400 with its message exactly when the cuisine is missing or empty, before page and limit are parsed. Otherwise it answers 500 exactly when one of them is malformed. |
| SearchSql.AllRecipesPage | app.py:23-28 | `get_all_recipes` answers 500 exactly when page or limit is malformed. Otherwise it binds one value per placeholder, the same limit and offset as the unfiltered search. |
| SearchSql.ByCuisinePage | app.py:114-121 | `get_recipes_by_cuisine` binds one value per placeholder: the cuisine, then the limit and offset of the search filtered on that cuisine alone. |

## Left out

- The DOM is abstracted into the fields of `View`: element lookups, `innerHTML` templates, the drawer and overlay classes, and `aria-expanded`. The table and the fallback are values of `Display`; the drawer is a flag and a `Detail`.
- The total-time expand/collapse toggle (`static/app.js:38-44`) is purely presentational and is not modelled.
- `fetch` and its promises are not modelled as asynchrony. A load is a start step and one later completion call, and overlapping loads are allowed in any order. `response.json()` failing is one of the failures `OnLoadFailure` covers.
- A successful response that is not a JSON array (an error object, say) is not modelled: responses are sequences of records.
- `URLSearchParams.toString` percent-encoding is not modelled. The query is the ordered list of key/value pairs.
- `currentPage` and the page size are unbounded integers. JavaScript numbers are doubles, which lose precision above 2^53, and `parseInt` of a very long digit string gives an inexact or infinite value.
- JsText.ParseIntWithoutDigits: states only that text with no digit at all is NaN. Text whose digits come after other non-space characters (`"abc12"`) is also NaN, but the model's `ParseInt` computes that case without a lemma stating it.
- `querySelectorAll('tbody tr')` would also match rows of the nutrition table if it were inside a `tbody` on the page. `index.html` is not part of this model, so row `i` is taken to be recipe table row `i`.
- The handler that prints a failed load to `console.error` only writes a log line; that line is not modelled.
- SQLite is not modelled: execution, `fetchall`, `row_factory`, the connection, and how a negative `LIMIT` or `OFFSET` is treated. A response is the statement that would be executed.
- The `json.loads` of the ingredient, instruction and nutrient columns, the result loops and `jsonify` are not modelled.
- Flask routing and static file serving, `get_recipe_by_title` (one lookup by key) and `load_recipes_to_db.py` (a one-shot import script) are not modelled.
- Flask's `type=float` conversion of `rating` is not modelled. The rating is a value of an uninspected type parameter, and text Flask cannot convert arrives as `None`, which the model does not distinguish from an absent rating.
- `int()` parsing of `page` and `limit` is abstracted as given, missing or malformed. The malformed case is the 500 answer of the uncaught `ValueError`.
- The SQL text is modelled as tokens, fixed fragments and `?` placeholders, rather than character strings. `Render` gives the text, and the placeholder count is counted on tokens.
- `%` and `_` typed into title or serves are not escaped by the source and act as LIKE wildcards. The model binds the text as the source does and says nothing about matching.
- The reset click handler assigns `currentPage = 1` and `resetFilters` assigns it again before anything reads it. The model makes the assignment once.
