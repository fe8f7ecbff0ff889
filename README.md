# Food-details order draft, in Dafny

This project models the order draft that the food-details screen of the
GoRestaurant mobile app keeps while the user composes an order
(`src/pages/FoodDetails/index.tsx`). The draft has three parts:

- the loaded food;
- its extras (optional add-ons), each with a selected quantity;
- the number of units of the food.

The screen's handlers change the draft one tap at a time. From it the screen
derives the cart total and the order it posts when the user finishes.

- `extras.dfy`, module `Extras`: the `Extra` record and the pure list
  transforms behind the handlers. `ResetQuantities` runs on load, `IncExtra`
  on "+", `DecExtra` on "-", and `OrderedExtras` is the filter applied when
  the order is sent. Lemmas state the floor invariant and the "only the
  targeted extra changes" frame properties. They also show that the ordered
  extras are exactly the selected ones, kept in list order.
- `totals.dfy`, module `Totals`: the cart total computed the way the screen
  computes it, by mapping each extra to `quantity * value` and reducing with
  `+` from 0. It is proved equal to the closed form
  `foodQuantity * price + Σ quantity * value`. Further lemmas give how much
  each handler changes the total.
- `food_details.dfy`, module `FoodDetails`: the screen's state as the class
  `FoodDetailsState`, with fields `food`, `extras` and `foodQuantity`. Its
  methods are the handlers. `Valid()` is the invariant that every method
  keeps: no extra's quantity is below 0 and the food quantity is at least 1.
  Two client methods replay two example sessions of the screen.

Money is held as integer cents. Quantities and prices are unbounded integers.
Before its food arrives, the screen's `food` is an empty object, so its price
is undefined and the total is not a number. The model represents this with
`food == None` and `CartTotal() == None`.

Three behaviours of the code shape the model:

- The posted order is the food's fields, the selected extras and a fresh
  identifier (index.tsx:160-164). It does not carry the food quantity, so
  `Order` has no quantity field.
- Loading a food resets the extras' quantities but not the food quantity
  (index.tsx:82-88). `LoadFood` leaves `foodQuantity` unchanged. The food
  "+" and "-" buttons work before the food arrives, so the food quantity may
  already be above 1 at the first load. The total right after a load is
  therefore `foodQuantity * price`, which equals the price while the food
  quantity is still 1.
- The favorite toggle flips the flag only after its request completes
  (index.tsx:141-146). The toggle is left out of the model (see below).

## Model

| member | source | states |
|---|---|---|
| `Extras.ResetQuantities` | src/pages/FoodDetails/index.tsx:82-85 | every loaded extra has quantity 0; its id, name and value are kept and the list keeps its length and order |
| `Extras.IncExtra` | src/pages/FoodDetails/index.tsx:101-108 | same length; at every position id, name and value are unchanged; the quantity is one more where the id matches and unchanged elsewhere |
| `Extras.DecExtra` | src/pages/FoodDetails/index.tsx:110-123 | same length; at every position id, name and value are unchanged; the quantity is one less where the id matches and the quantity is above 0, and unchanged otherwise |
| `Extras.OrderedExtras` | src/pages/FoodDetails/index.tsx:162 | an extra is in the ordered list if and only if it is in the draft with quantity > 0; the list is never longer than the draft |
| `Extras.IncExtraUnchangedIff` | src/pages/FoodDetails/index.tsx:103-106 | "+" leaves the whole list unchanged if and only if no extra carries the tapped id |
| `Extras.IncExtraKeepsNonNegative` | src/pages/FoodDetails/index.tsx:101-108 | "+" keeps every quantity ≥ 0, and a tapped extra ends with quantity ≥ 1 |
| `Extras.DecExtraKeepsNonNegative` | src/pages/FoodDetails/index.tsx:110-123 | "-" never makes a non-negative quantity negative |
| `Extras.DecExtraUnchangedIff` | src/pages/FoodDetails/index.tsx:112-116 | "-" leaves the whole list unchanged if and only if every extra with the tapped id has quantity ≤ 0 |
| `Extras.DecExtraUndoesIncExtra` | src/pages/FoodDetails/index.tsx:101-123 | on non-negative quantities, "-" after "+" on the same id gives back the original list |
| `Extras.IncExtraOnlyTarget` | src/pages/FoodDetails/index.tsx:101-108 | when extra k's id is unique, "+" on it gives extra k one more unit and leaves every other extra exactly as it was |
| `Extras.DecExtraOnlyTarget` | src/pages/FoodDetails/index.tsx:110-123 | when extra k's id is unique, "-" on it lowers only extra k, by one while its quantity is positive, and leaves every other extra exactly as it was |
| `Extras.SubsequenceKeep` | src/pages/FoodDetails/index.tsx:162 | a filter step that keeps the head extends the picked subsequence by one position |
| `Extras.SubsequenceSkip` | src/pages/FoodDetails/index.tsx:162 | a filter step that drops the head keeps the picked subsequence, shifted by one position |
| `Extras.OrderedExtrasIsSubsequence` | src/pages/FoodDetails/index.tsx:162 | the ordered extras are the draft's extras at strictly increasing positions: a subsequence in the original order |
| `Extras.PositiveIndicesExact` | src/pages/FoodDetails/index.tsx:162 | the positions picked are exactly those whose quantity is > 0 |
| `Totals.Subtotals` | src/pages/FoodDetails/index.tsx:150-151 | one entry per extra, equal to its quantity times its value |
| `Totals.ReduceSum` | src/pages/FoodDetails/index.tsx:152 | the reduce with + from a start value, as a left fold; it has no contract of its own, and ReduceSubtotals pins down what it computes on the subtotals |
| `Totals.ReduceSubtotals` | src/pages/FoodDetails/index.tsx:150-152 | reducing the subtotals with + from any start value adds Σ quantity * value |
| `Totals.Total` | src/pages/FoodDetails/index.tsx:149-157 | the total computed by map/reduce equals foodQuantity * price + Σ quantity * value |
| `Totals.SumOfResetIsZero` | src/pages/FoodDetails/index.tsx:82-85 | freshly loaded extras contribute nothing to the total |
| `Totals.TotalAfterLoad` | src/pages/FoodDetails/index.tsx:149-157 | right after a load the total is foodQuantity * price, and it is the price when the food quantity is 1 |
| `Totals.SumOfOneChange` | src/pages/FoodDetails/index.tsx:150-152 | changing one extra's quantity by delta changes Σ quantity * value by delta times its value |
| `Totals.IncExtraRaisesTotal` | src/pages/FoodDetails/index.tsx:149-157 | when an extra's id is unique, "+" on it raises the total by exactly its value |
| `Totals.DecExtraLowersTotal` | src/pages/FoodDetails/index.tsx:149-157 | when an extra's id is unique, "-" on it lowers the total by its value while its quantity is positive, and leaves it unchanged otherwise |
| `Totals.IncFoodRaisesTotal` | src/pages/FoodDetails/index.tsx:149-157 | one more unit of food raises the total by exactly the price |
| `FoodDetails.OrderedFoodOf` | src/pages/FoodDetails/index.tsx:161 | the food fields the order payload spreads in (name, description, price, image); it has no contract of its own, and HandleFinishOrder's ensures states that the order carries them |
| `FoodDetails.DecrementedFoodQuantity` | src/pages/FoodDetails/index.tsx:129-132 | the new food quantity is ≥ 1, and it is one less than before unless the old one was at most 1, in which case it is 1 |
| `FoodDetails.FoodDetailsState.constructor` | src/pages/FoodDetails/index.tsx:64-67 | no food yet, no extras and food quantity 1; the invariant holds |
| `FoodDetails.FoodDetailsState.CartTotal` | src/pages/FoodDetails/index.tsx:149-157 | defined exactly when a food is loaded, and then equal to foodQuantity * price + Σ quantity * value |
| `FoodDetails.FoodDetailsState.LoadFood` | src/pages/FoodDetails/index.tsx:74-88 | stores the food with every extra's quantity reset to 0 and the food quantity unchanged; the total becomes foodQuantity * price; the invariant is kept |
| `FoodDetails.FoodDetailsState.HandleIncrementExtra` | src/pages/FoodDetails/index.tsx:101-108 | the extras become IncExtra of the old extras; nothing else changes; the invariant is kept |
| `FoodDetails.FoodDetailsState.HandleDecrementExtra` | src/pages/FoodDetails/index.tsx:110-123 | the extras become DecExtra of the old extras; nothing else changes; the invariant is kept |
| `FoodDetails.FoodDetailsState.HandleIncrementFood` | src/pages/FoodDetails/index.tsx:125-127 | the food quantity grows by exactly 1 with no upper bound, and the total by exactly the price |
| `FoodDetails.FoodDetailsState.HandleDecrementFood` | src/pages/FoodDetails/index.tsx:129-132 | the food quantity becomes max(old - 1, 1), so it stays 1 at 1; above 1 the total drops by the price; the invariant is kept |
| `FoodDetails.FoodDetailsState.HandleFinishOrder` | src/pages/FoodDetails/index.tsx:159-164 | the order carries the given id, the food's fields, and exactly the extras with quantity > 0 as a subsequence of the draft's extras in their original order |

## Left out

- The HTTP calls (index.tsx:76, 90-95, 141, 143, 160) are network I/O through a client that is not part of this model. `LoadFood` takes the fetched food as a parameter, and `HandleFinishOrder` returns the order that would be posted.
- The favorite flag, its lookup on load (index.tsx:90-95) and `toggleFavorite` (index.tsx:134-147) are left out. They are I/O-bound, the flag changes only after the awaited request, and the toggle mutates the shared food object in place with `delete`.
- `formatValue` and the `formattedPrice` field (index.tsx:13, 79, 156) are left out, because the currency formatter is not part of this model. The total is modelled as a number of cents, not as a display string.
- Floating-point arithmetic on `price` and `value` is not modelled. Money is exact integer cents, so the model does not capture rounding in the source's double-precision sums.
- The order identifier `new Date().getTime()` (index.tsx:163) is a clock reading. `HandleFinishOrder` takes it as the parameter `orderId`.
- Navigation after the order (index.tsx:165), the header wiring in `useLayoutEffect`, the rendering, styles and icons (index.tsx:168-269) are UI and are left out.
- The ordering of async effects and stale responses arriving after navigation (index.tsx:74-99) are left out. They are about concurrency and the React lifecycle; `LoadFood` applies one response atomically.
- Totals.IncExtraRaisesTotal: stated only for an extra whose id no other extra carries. With duplicate ids, "+" raises every matching extra, so the total grows by the sum of their values.
- Totals.DecExtraLowersTotal: stated only for an extra whose id no other extra carries, for the same reason.
