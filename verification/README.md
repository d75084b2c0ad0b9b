# NutritionScore: the FoodSelector rules in Dafny

NutritionScore is a client-side React form. The user picks foods from a
catalog, sets a quantity in grams for each, and reads off the nutrients for
that quantity. The only logic in its `FoodSelector` component is four small
rules. This project models them as pure Dafny functions and proves what they
promise:

- **Quantity clamp** (`handleQuantityChange`). An entered quantity is raised
  to 0 when negative, then lowered to 5000 when above 5000. The clamped value
  is reported through `onQuantityChange` with the component's id.
- **Per-100 g scaling** (`calculateNutrition`). A food record holds eight
  amounts per 100 g: protein, carbohydrates, fat, saturated fat, calories,
  fiber, sugar and salt. Each becomes `value * quantity / 100` for the chosen
  quantity.
- **Catalog lookup** (`handleSelectFood`). A cleared selection reports no food.
  Otherwise the component reports the first record whose name equals the
  option's value exactly, or no food when none matches.
- **Options** (`foodOptions`). There is one drop-down option per record, in
  catalog order, and both its value and its label are the record's name.

Files:

- `wrappers.dfy`: module `Wrappers`, the `Option` type that stands in for
  `null`.
- `food_selector.dfy`: module `FoodSelector`. It holds the `Nutrients` record
  of eight amounts with its field-wise `Add`, `Times`, `NonNegative` and
  `AtMost`, the `Food` record, and the four rules with their lemmas.

Quantities and amounts are exact `real`s, not IEEE doubles. The callbacks
`onFoodChange` and `onQuantityChange` become returned values, `FoodChanged`
and `QuantityChanged`. The food catalog is a `seq<Food>` parameter, taken in
the order the component already uses, which is after its sort. The option
field `label` is named `text` in the model because `label` is a Dafny keyword.

The clamp follows the code in `src/components/FoodSelector.tsx`, with the
range [0, 5000].

## Model

| member | source | states |
|---|---|---|
| `FoodSelector.Clamp` | src/components/FoodSelector.tsx:69-71 | The result always lies in [0, 5000]. A quantity already in range is returned unchanged. A negative quantity becomes 0, and a quantity above 5000 becomes 5000. |
| `FoodSelector.ClampIsNearest` | src/components/FoodSelector.tsx:69-71 | The clamped quantity is at least as close to the input as every other point of [0, 5000]. |
| `FoodSelector.ClampIdempotent` | src/components/FoodSelector.tsx:69-71 | Clamping a clamped quantity changes nothing. |
| `FoodSelector.ClampMonotone` | src/components/FoodSelector.tsx:69-71 | A larger input never gives a smaller clamped quantity. |
| `FoodSelector.HandleQuantityChange` | src/components/FoodSelector.tsx:68-73 | The report carries the component's own id and a quantity in [0, 5000]. That quantity equals the input when the input is in range, and the nearer bound otherwise. |
| `FoodSelector.Amount` | src/components/FoodSelector.tsx:45-52 | One nutrient scaled to the quantity: quantity 0 gives 0, quantity 100 gives the per-100 g value itself, and a non-negative value at a non-negative quantity gives a non-negative amount. |
| `FoodSelector.Scale` | src/components/FoodSelector.tsx:44-53 | Each of the eight results is the record's per-100 g amount times quantity/100. Quantity 0 gives all zeros. Quantity 100 gives exactly the per-100 g amounts. A record with no negative amounts, at a non-negative quantity, gives no negative result. |
| `FoodSelector.ScaleAdditive` | src/components/FoodSelector.tsx:44-53 | Scaling by q1+q2 equals the field-wise sum of scaling by q1 and scaling by q2. |
| `FoodSelector.ScaleExample` | src/components/FoodSelector.tsx:44-53 | At 250 g, the record (20, 0, 5, 1, 120, 0, 0, 0.1) per 100 g gives (50, 0, 12.5, 2.5, 300, 0, 0, 0.25). |
| `FoodSelector.ScaleMonotone` | src/components/FoodSelector.tsx:44-53 | For a record with no negative amounts, a larger quantity never gives less of any nutrient. |
| `FoodSelector.ClampedScaleBounded` | src/components/FoodSelector.tsx:44-53 | For a record with no negative amounts, every amount `Scale` computes at a clamped quantity is non-negative and at most 50 times the per-100 g amount. |
| `FoodSelector.FindByName` | src/components/FoodSelector.tsx:62-64 | The lookup finds nothing exactly when no record carries the name. Otherwise it finds the record at the first index that carries the name. |
| `FoodSelector.FindByNameFirst` | src/components/FoodSelector.tsx:62-64 | If index i holds the first record carrying the name, the lookup returns exactly that record. This is the converse of `FindByName`'s contract. |
| `FoodSelector.HandleSelectFood` | src/components/FoodSelector.tsx:55-66 | The report carries the component's own id. A cleared selection reports no food. For a selected option, no food is reported exactly when no record's name equals the option's value. Any food reported carries the selected name and is the first catalog record with it. |
| `FoodSelector.FoodOptions` | src/components/FoodSelector.tsx:38-41 | There is one option per record, in catalog order. Option i has value and label both equal to record i's name. |
| `FoodSelector.SelectOfferedOption` | src/components/FoodSelector.tsx:38-66 | Selecting any offered option always reports a food with that option's name. If no earlier record shares the name, the food reported is the very record the option was built from. |

## Left out

- Floating point: quantities and amounts are exact reals, not IEEE doubles. `ScaleAdditive`, `ScaleMonotone` and the quantity-100 identity of `Scale` hold for exact reals only; in doubles, `0.1*(0.1+0.2)/100` and `0.1*0.1/100 + 0.1*0.2/100` differ in the last digit.
- ClampedScaleBounded: bounds the exact amounts `Scale` computes at a clamped quantity, not the strings displayed. The component displays `calculateNutrition(food, quantity)` with its `quantity` prop (src/components/FoodSelector.tsx:124-135), so the lemma assumes the parent passes the reported clamped quantity back as that prop; the parent is not part of this model. After `toFixed(2)` a displayed value can exceed the bound (salt 0.0001 per 100 g at 5000 g shows "0.01").
- The `.toFixed(2)` rounding and string formatting of each scaled amount (src/components/FoodSelector.tsx:45-52). The model keeps exact reals.
- `Number(event.target.value)` parsing, including NaN and Infinity. NaN passes both comparisons unclamped, which is a floating-point edge case. The clamp takes an already-parsed real.
- The `localeCompare` sort of the catalog (src/components/FoodSelector.tsx:35). It is locale-dependent and mutates the shared array in place. The catalog is a parameter, taken as already sorted.
- The `foodData` catalog itself. `src/data/foodData` is not part of this model.
- All rendering: the JSX, react-select, the Navbar menu toggle, routing, and the App, Layout, Home and Calculator pages. None of these holds logic worth a contract.
- The entry list (adding and removing rows with fresh ids) and totals across entries. No code for them is part of this model.
