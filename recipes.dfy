/**
 * What the browser does with one recipe record it received from the search
 * endpoint: the table row it renders for it and the detail drawer it opens
 * for it (static/app.js).
 */
module Recipes {
  import opened Wrappers

  /** A JSON value as `response.json()` produces it. */
  datatype Value =
    | Null
    | Bool(b: bool)
    | Num(x: real)
    | Str(s: string)
    | Arr(items: seq<Value>)
    | Obj(fields: map<string, Value>)

  /**
   * A recipe record; each field is the property read `recipe.<name>`, where
   * None stands for `undefined` (the key is missing).
   */
  datatype Recipe = Recipe(
    title: Option<Value>,
    cuisine: Option<Value>,
    rating: Option<Value>,
    totalTime: Option<Value>,
    serves: Option<Value>,
    description: Option<Value>,
    cookTime: Option<Value>,
    prepTime: Option<Value>,
    nutrients: Option<Value>)

  /** JavaScript truthiness: undefined, null, false, 0 and "" are falsy. */
  predicate Truthy(v: Option<Value>)
  {
    match v
    case None => false
    case Some(Null) => false
    case Some(Bool(b)) => b
    case Some(Num(x)) => x != 0.0
    case Some(Str(s)) => s != ""
    case Some(_) => true
  }

  /**
   * `v || placeholder`: a truthy value is shown as it is, anything falsy is
   * replaced, so with a non-empty placeholder the shown value is never falsy.
   */
  function OrDefault(v: Option<Value>, placeholder: string): (shown: Value)
    ensures Truthy(v) ==> shown == v.value
    ensures !Truthy(v) ==> shown == Str(placeholder)
    ensures placeholder != "" ==> Truthy(Some(shown))
  {
    if Truthy(v) then v.value else Str(placeholder)
  }

  /** The five cells of one row of the recipe table. */
  datatype Row = Row(title: Value, cuisine: Value, rating: Value, totalTime: Value, serves: Value)

  function RenderRow(r: Recipe): Row
  {
    Row(OrDefault(r.title, "Untitled"), OrDefault(r.cuisine, "N/A"), OrDefault(r.rating, "N/A"),
        OrDefault(r.totalTime, "N/A"), OrDefault(r.serves, "N/A"))
  }

  /** The table body for a result list: one row per record, in list order. */
  function Rows(data: seq<Recipe>): (rows: seq<Row>)
    ensures |rows| == |data|
    ensures forall i :: 0 <= i < |data| ==> rows[i] == RenderRow(data[i])
  {
    if data == [] then [] else Rows(data[..|data| - 1]) + [RenderRow(data[|data| - 1])]
  }

  /** The `data.forEach` loop that appends one row per record to the table body. */
  method RenderTable(data: seq<Recipe>) returns (rows: seq<Row>)
    ensures rows == Rows(data)
  {
    rows := [];
    var i := 0;
    while i < |data|
      invariant 0 <= i <= |data|
      invariant rows == Rows(data[..i])
    {
      rows := rows + [RenderRow(data[i])];
      i := i + 1;
      assert data[..i][..i - 1] == data[..i - 1];
    }
    assert data[..i] == data;
  }

  /** The nutrient keys the detail drawer knows, in the order it lists them. */
  const NutrientKeys: seq<string> := [
    "calories", "carbohydrateContent", "cholesterolContent", "fiberContent",
    "proteinContent", "saturatedFatContent", "sodiumContent", "sugarContent", "fatContent"
  ]

  /** `v[key]` for a value that is not null or undefined; None is `undefined`. */
  function Property(v: Value, key: string): Option<Value>
  {
    if v.Obj? && key in v.fields then Some(v.fields[key]) else None
  }

  /** `recipe.nutrients || {}` */
  function NutrientSource(r: Recipe): Value
  {
    if Truthy(r.nutrients) then r.nutrients.value else Obj(map[])
  }

  /**
   * The rows of the nutrition table for `source`, one per key of `keys` that
   * is defined in it, carrying its value. Every key it lists is one of
   * `keys` with its value in `source`, and every defined key is listed.
   */
  function Pick(source: Value, keys: seq<string>): (rows: seq<(string, Value)>)
    ensures forall e :: e in rows ==> e.0 in keys && Property(source, e.0) == Some(e.1)
    ensures forall k :: k in keys && Property(source, k).Some? ==> (k, Property(source, k).value) in rows
  {
    if keys == [] then []
    else
      var last := keys[|keys| - 1];
      var before := Pick(source, keys[..|keys| - 1]);
      assert forall k :: k in keys ==> k in keys[..|keys| - 1] || k == last;
      match Property(source, last)
      case Some(v) => before + [(last, v)]
      case None => before
  }

  predicate Distinct(keys: seq<string>)
  {
    forall i, j :: 0 <= i < j < |keys| ==> keys[i] != keys[j]
  }

  /** The position of `k` in `keys`. */
  function IndexOf(keys: seq<string>, k: string): (i: nat)
    requires k in keys
    ensures i < |keys| && keys[i] == k
    ensures forall j :: 0 <= j < i ==> keys[j] != k
  {
    if keys[0] == k then 0 else 1 + IndexOf(keys[1..], k)
  }

  lemma IndexOfPrefix(keys: seq<string>, k: string)
    requires keys != [] && k in keys[..|keys| - 1]
    ensures IndexOf(keys[..|keys| - 1], k) == IndexOf(keys, k)
  {
    var i := IndexOf(keys[..|keys| - 1], k);
    assert keys[..|keys| - 1][i] == keys[i];
  }

  /** The keys of `rows` are keys of `keys` and come in the same order. */
  predicate InKeyOrder(rows: seq<(string, Value)>, keys: seq<string>)
  {
    && (forall i :: 0 <= i < |rows| ==> rows[i].0 in keys)
    && (forall i, j :: 0 <= i < j < |rows| ==> IndexOf(keys, rows[i].0) < IndexOf(keys, rows[j].0))
  }

  /** When the keys are distinct, the picked rows follow the order of `keys`. */
  lemma {:induction false} PickFollowsKeyOrder(source: Value, keys: seq<string>)
    requires Distinct(keys)
    ensures InKeyOrder(Pick(source, keys), keys)
  {
    if keys != [] {
      var init := keys[..|keys| - 1];
      var last := keys[|keys| - 1];
      var before := Pick(source, init);
      PickFollowsKeyOrder(source, init);
      forall e | e in before
        ensures e.0 in init && IndexOf(keys, e.0) == IndexOf(init, e.0) < |keys| - 1
      {
        IndexOfPrefix(keys, e.0);
      }
      assert IndexOf(keys, last) == |keys| - 1;
      var rows := Pick(source, keys);
      assert rows == before || (Property(source, last).Some? && rows == before + [(last, Property(source, last).value)]);
      forall i, j | 0 <= i < j < |rows|
        ensures IndexOf(keys, rows[i].0) < IndexOf(keys, rows[j].0)
      {
        assert rows[i] == before[i];
        if j < |before| {
          assert rows[j] == before[j];
          assert before[i] in before && before[j] in before;
          assert IndexOf(init, before[i].0) < IndexOf(init, before[j].0);
        } else {
          assert rows[j].0 == last;
          assert before[i] in before;
        }
      }
    }
  }

  /** The `nutrientKeys.forEach` loop that appends one table row per defined key. */
  method NutritionTable(source: Value) returns (rows: seq<(string, Value)>)
    ensures rows == Pick(source, NutrientKeys)
  {
    rows := [];
    var i := 0;
    while i < |NutrientKeys|
      invariant 0 <= i <= |NutrientKeys|
      invariant rows == Pick(source, NutrientKeys[..i])
    {
      var key := NutrientKeys[i];
      var value := Property(source, key);
      if value.Some? {
        rows := rows + [(key, value.value)];
      }
      i := i + 1;
      assert NutrientKeys[..i][..i - 1] == NutrientKeys[..i - 1];
    }
    assert NutrientKeys[..i] == NutrientKeys;
  }

  /** What the detail drawer shows for one recipe. */
  datatype Detail = Detail(
    title: Option<Value>,
    cuisine: Option<Value>,
    description: Value,
    totalTime: Value,
    cookTime: Value,
    prepTime: Value,
    nutrition: seq<(string, Value)>)

  /**
   * The drawer contents: the heading uses title and cuisine as they are, the
   * description and the three times get placeholders, and the nutrition
   * table lists the known nutrient keys the record defines.
   */
  function ProjectDetail(r: Recipe): (d: Detail)
  {
    Detail(r.title, r.cuisine,
           OrDefault(r.description, "No description available."),
           OrDefault(r.totalTime, "N/A"), OrDefault(r.cookTime, "N/A"), OrDefault(r.prepTime, "N/A"),
           Pick(NutrientSource(r), NutrientKeys))
  }

  lemma NutrientKeysDistinct()
    ensures Distinct(NutrientKeys)
  {
    forall i, j | 0 <= i < j < |NutrientKeys|
      ensures NutrientKeys[i] != NutrientKeys[j]
    {
      var a, b := NutrientKeys[i], NutrientKeys[j];
      assert |a| != |b| || a[0] != b[0];
    }
  }

  /**
   * The nutrition table of the drawer holds exactly the known keys the
   * record defines, each with its value, in the fixed key order; any other
   * key is dropped and an undefined one is left out rather than shown.
   */
  lemma DetailNutrition(r: Recipe)
    ensures var rows := ProjectDetail(r).nutrition;
      && (forall e :: e in rows ==> e.0 in NutrientKeys && Property(NutrientSource(r), e.0) == Some(e.1))
      && (forall k :: k in NutrientKeys && Property(NutrientSource(r), k).Some? ==>
            (k, Property(NutrientSource(r), k).value) in rows)
      && InKeyOrder(rows, NutrientKeys)
  {
    NutrientKeysDistinct();
    PickFollowsKeyOrder(NutrientSource(r), NutrientKeys);
  }

  /** The placeholders make every text field of the drawer and every table cell truthy. */
  lemma PlaceholdersNeverBlank(r: Recipe)
    ensures var d := ProjectDetail(r);
      Truthy(Some(d.description)) && Truthy(Some(d.totalTime)) && Truthy(Some(d.cookTime)) && Truthy(Some(d.prepTime))
    ensures var row := RenderRow(r);
      Truthy(Some(row.title)) && Truthy(Some(row.cuisine)) && Truthy(Some(row.rating))
      && Truthy(Some(row.totalTime)) && Truthy(Some(row.serves))
  {
  }
}
