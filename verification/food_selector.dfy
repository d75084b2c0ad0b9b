/**
 * The logic of the `FoodSelector` component: the quantity clamp applied to
 * user input, the per-100 g scaling of a food record's nutrients, the lookup
 * of the record behind a selected option, and the list of options offered.
 *
 * The component reports its results through the `onFoodChange` and
 * `onQuantityChange` callbacks; here each report is the value returned.
 * The food catalog is a parameter, taken in the order the component uses it.
 */
module FoodSelector {

  import opened Wrappers

  // ---------------------------------------------------------------------
  // Nutrient amounts, as exact reals rather than IEEE doubles
  // ---------------------------------------------------------------------

  /** Grams of each nutrient (kilocalories for `calories`). */
  datatype Nutrients = Nutrients(
    protein: real,
    carbohydrates: real,
    fat: real,
    saturatedFat: real,
    calories: real,
    fiber: real,
    sugar: real,
    salt: real)

  /** Nothing of anything. */
  const Zero := Nutrients(0.0, 0.0, 0.0, 0.0, 0.0, 0.0, 0.0, 0.0)

  /** Field-wise sum. */
  function Add(a: Nutrients, b: Nutrients): Nutrients
  {
    Nutrients(
      a.protein + b.protein,
      a.carbohydrates + b.carbohydrates,
      a.fat + b.fat,
      a.saturatedFat + b.saturatedFat,
      a.calories + b.calories,
      a.fiber + b.fiber,
      a.sugar + b.sugar,
      a.salt + b.salt)
  }

  /** Every field multiplied by the factor `k`. */
  function Times(n: Nutrients, k: real): Nutrients
  {
    Nutrients(
      n.protein * k,
      n.carbohydrates * k,
      n.fat * k,
      n.saturatedFat * k,
      n.calories * k,
      n.fiber * k,
      n.sugar * k,
      n.salt * k)
  }

  /** No field is negative. */
  predicate NonNegative(n: Nutrients)
  {
    n.protein >= 0.0 && n.carbohydrates >= 0.0 && n.fat >= 0.0 &&
    n.saturatedFat >= 0.0 && n.calories >= 0.0 && n.fiber >= 0.0 &&
    n.sugar >= 0.0 && n.salt >= 0.0
  }

  /** Field-wise `a <= b`. */
  predicate AtMost(a: Nutrients, b: Nutrients)
  {
    a.protein <= b.protein && a.carbohydrates <= b.carbohydrates &&
    a.fat <= b.fat && a.saturatedFat <= b.saturatedFat &&
    a.calories <= b.calories && a.fiber <= b.fiber &&
    a.sugar <= b.sugar && a.salt <= b.salt
  }

  // ---------------------------------------------------------------------
  // Catalog records and the component's reports
  // ---------------------------------------------------------------------

  /** A catalog record: a name and eight nutrient amounts per 100 g. */
  datatype Food = Food(
    name: string,
    protein: real,
    carbohydrates: real,
    fat: real,
    saturatedFat: real,
    calories: real,
    fiber: real,
    sugar: real,
    salt: real)

  /**
   * One entry of the drop-down: the `value` it reports and the `label` it
   * shows (`label` is a Dafny keyword, hence `text`).
   */
  datatype SelectOption = SelectOption(value: string, text: string)

  /** What `onFoodChange` is called with. */
  datatype FoodChanged = FoodChanged(id: int, food: Option<Food>)

  /** What `onQuantityChange` is called with. */
  datatype QuantityChanged = QuantityChanged(id: int, quantity: real)

  /** The accepted quantity range, in grams. */
  const MinQuantity: real := 0.0
  const MaxQuantity: real := 5000.0

  /** The record's amounts per 100 g, as a `Nutrients` value. */
  function PerHundred(f: Food): Nutrients
  {
    Nutrients(f.protein, f.carbohydrates, f.fat, f.saturatedFat,
              f.calories, f.fiber, f.sugar, f.salt)
  }

  /** A record whose per-100 g amounts are all non-negative. */
  predicate NoNegativeAmounts(f: Food)
  {
    NonNegative(PerHundred(f))
  }

  // ---------------------------------------------------------------------
  // Quantity clamp
  // ---------------------------------------------------------------------

  /**
   * The input quantity, first raised to 0 if it is below 0, then lowered to
   * 5000 if it is above 5000.
   */
  function Clamp(value: real): (r: real)
    ensures MinQuantity <= r <= MaxQuantity
    ensures MinQuantity <= value <= MaxQuantity ==> r == value
    ensures value < MinQuantity ==> r == MinQuantity
    ensures value > MaxQuantity ==> r == MaxQuantity
  {
    var raised := if value < MinQuantity then MinQuantity else value;
    if raised > MaxQuantity then MaxQuantity else raised
  }

  function Distance(a: real, b: real): real
  {
    if a < b then b - a else a - b
  }

  /** The clamped quantity is the point of the range nearest the input. */
  lemma ClampIsNearest(value: real, x: real)
    requires MinQuantity <= x <= MaxQuantity
    ensures Distance(Clamp(value), value) <= Distance(x, value)
  {
  }

  /** Clamping twice is clamping once. */
  lemma ClampIdempotent(value: real)
    ensures Clamp(Clamp(value)) == Clamp(value)
  {
  }

  /** A larger input never gives a smaller clamped quantity. */
  lemma ClampMonotone(a: real, b: real)
    requires a <= b
    ensures Clamp(a) <= Clamp(b)
  {
  }

  /** `handleQuantityChange`: report the clamped quantity under the component's id. */
  function HandleQuantityChange(id: int, value: real): (e: QuantityChanged)
    ensures e.id == id
    ensures MinQuantity <= e.quantity <= MaxQuantity
    ensures MinQuantity <= value <= MaxQuantity ==> e.quantity == value
    ensures value < MinQuantity ==> e.quantity == MinQuantity
    ensures value > MaxQuantity ==> e.quantity == MaxQuantity
  {
    QuantityChanged(id, Clamp(value))
  }

  // ---------------------------------------------------------------------
  // Per-100 g scaling
  // ---------------------------------------------------------------------

  /** One amount per 100 g, scaled to the quantity. */
  function Amount(v: real, quantity: real): (a: real)
    ensures a == v * (quantity / 100.0)
    ensures quantity == 0.0 ==> a == 0.0
    ensures quantity == 100.0 ==> a == v
    ensures v >= 0.0 && quantity >= 0.0 ==> a >= 0.0
  {
    v * quantity / 100.0
  }

  /** `calculateNutrition`: each amount per 100 g, times the quantity, over 100. */
  function Scale(f: Food, quantity: real): (r: Nutrients)
    ensures r == Times(PerHundred(f), quantity / 100.0)
    ensures quantity == 0.0 ==> r == Zero
    ensures quantity == 100.0 ==> r == PerHundred(f)
    ensures NoNegativeAmounts(f) && quantity >= 0.0 ==> NonNegative(r)
  {
    Nutrients(
      Amount(f.protein, quantity),
      Amount(f.carbohydrates, quantity),
      Amount(f.fat, quantity),
      Amount(f.saturatedFat, quantity),
      Amount(f.calories, quantity),
      Amount(f.fiber, quantity),
      Amount(f.sugar, quantity),
      Amount(f.salt, quantity))
  }

  /** Scaling by a sum of quantities is the sum of the two scalings. */
  lemma ScaleAdditive(f: Food, q1: real, q2: real)
    ensures Scale(f, q1 + q2) == Add(Scale(f, q1), Scale(f, q2))
  {
  }

  /** A worked example: a record scaled to 250 g. */
  lemma ScaleExample()
    ensures Scale(Food("example", 20.0, 0.0, 5.0, 1.0, 120.0, 0.0, 0.0, 0.1), 250.0)
         == Nutrients(50.0, 0.0, 12.5, 2.5, 300.0, 0.0, 0.0, 0.25)
  {
  }

  /** For a valid record, more grams never mean less of any nutrient. */
  lemma {:induction false} ScaleMonotone(f: Food, q1: real, q2: real)
    requires NoNegativeAmounts(f)
    requires q1 <= q2
    ensures AtMost(Scale(f, q1), Scale(f, q2))
  {
    ScaleAdditive(f, q1, q2 - q1);
    assert q1 + (q2 - q1) == q2;
    assert NonNegative(Scale(f, q2 - q1));
  }

  /**
   * For a record with no negative amounts, every amount `Scale` computes at a
   * clamped quantity is non-negative and at most 50 times the per-100 g amount.
   */
  lemma {:induction false} ClampedScaleBounded(f: Food, value: real)
    requires NoNegativeAmounts(f)
    ensures NonNegative(Scale(f, Clamp(value)))
    ensures AtMost(Scale(f, Clamp(value)), Times(PerHundred(f), 50.0))
  {
    ScaleMonotone(f, Clamp(value), MaxQuantity);
    assert Scale(f, MaxQuantity) == Times(PerHundred(f), 50.0);
  }

  // ---------------------------------------------------------------------
  // Catalog lookup
  // ---------------------------------------------------------------------

  /** No record of the catalog carries the name. */
  predicate NoneNamed(catalog: seq<Food>, name: string)
  {
    forall i :: 0 <= i < |catalog| ==> catalog[i].name != name
  }

  /** Index `i` holds the first record of the catalog carrying the name. */
  predicate FirstNamed(catalog: seq<Food>, name: string, i: int)
  {
    0 <= i < |catalog| && catalog[i].name == name &&
    forall j :: 0 <= j < i ==> catalog[j].name != name
  }

  /** `Array.prototype.find` with an exact name comparison. */
  function FindByName(catalog: seq<Food>, name: string): (r: Option<Food>)
    ensures r.None? <==> NoneNamed(catalog, name)
    ensures r.Some? ==> exists i :: FirstNamed(catalog, name, i) && catalog[i] == r.value
  {
    if |catalog| == 0 then None
    else if catalog[0].name == name then
      assert FirstNamed(catalog, name, 0);
      Some(catalog[0])
    else
      var r := FindByName(catalog[1..], name);
      assert r.None? ==> NoneNamed(catalog, name) by {
        if r.None? {
          forall i | 0 < i < |catalog| ensures catalog[i].name != name {
            assert catalog[i] == catalog[1..][i - 1];
          }
        }
      }
      assert r.Some? ==> exists i :: FirstNamed(catalog, name, i) && catalog[i] == r.value by {
        if r.Some? {
          var k :| FirstNamed(catalog[1..], name, k) && catalog[1..][k] == r.value;
          assert FirstNamed(catalog, name, k + 1);
        }
      }
      r
  }

  /** The first record carrying the name is exactly what the lookup finds. */
  lemma {:induction false} FindByNameFirst(catalog: seq<Food>, name: string, i: int)
    requires FirstNamed(catalog, name, i)
    ensures FindByName(catalog, name) == Some(catalog[i])
  {
    if i > 0 {
      assert FirstNamed(catalog[1..], name, i - 1);
      FindByNameFirst(catalog[1..], name, i - 1);
    }
  }

  /**
   * `handleSelectFood`: a cleared selection reports no food; otherwise the
   * first record whose name equals the option's value, or no food when none
   * does. The option's text plays no part.
   */
  function HandleSelectFood(id: int, catalog: seq<Food>, selected: Option<SelectOption>): (e: FoodChanged)
    ensures e.id == id
    ensures selected.None? ==> e.food.None?
    ensures selected.Some? ==> (e.food.None? <==> NoneNamed(catalog, selected.value.value))
    ensures e.food.Some? ==> selected.Some? && e.food.value.name == selected.value.value
    ensures e.food.Some? ==> exists i :: FirstNamed(catalog, selected.value.value, i) && catalog[i] == e.food.value
  {
    match selected
    case None => FoodChanged(id, None)
    case Some(option) => FoodChanged(id, FindByName(catalog, option.value))
  }

  // ---------------------------------------------------------------------
  // Options
  // ---------------------------------------------------------------------

  /** The option offered for one record: its name as both value and label. */
  function OptionOf(f: Food): SelectOption
  {
    SelectOption(f.name, f.name)
  }

  /** `foodOptions`: one option per record, in catalog order. */
  function FoodOptions(catalog: seq<Food>): (options: seq<SelectOption>)
    ensures |options| == |catalog|
    ensures forall i :: 0 <= i < |catalog| ==>
      options[i].value == catalog[i].name && options[i].text == catalog[i].name
  {
    if |catalog| == 0 then []
    else [OptionOf(catalog[0])] + FoodOptions(catalog[1..])
  }

  /**
   * Selecting any offered option reports a food, never null: the first record
   * carrying that option's name, which is the record the option was built
   * from when no earlier record shares its name.
   */
  lemma {:induction false} SelectOfferedOption(id: int, catalog: seq<Food>, i: int)
    requires 0 <= i < |catalog|
    ensures HandleSelectFood(id, catalog, Some(FoodOptions(catalog)[i])).food.Some?
    ensures HandleSelectFood(id, catalog, Some(FoodOptions(catalog)[i])).food.value.name == catalog[i].name
    ensures (forall j :: 0 <= j < i ==> catalog[j].name != catalog[i].name) ==>
      HandleSelectFood(id, catalog, Some(FoodOptions(catalog)[i])).food == Some(catalog[i])
  {
    var name := catalog[i].name;
    assert !NoneNamed(catalog, name);
    if forall j :: 0 <= j < i ==> catalog[j].name != name {
      FindByNameFirst(catalog, name, i);
    }
  }
}
