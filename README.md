# Cart and catalogue logic of the food-ordering storefront

This project models, in Dafny, the client-side business logic of a React/Redux
food-ordering storefront. The model covers:

- the Redux cart slice: lines, plus running `totalQuantity` and `totalAmount`;
- the size and topping price rule shared by the product card and the cart line;
- the quantity picker and the updaters of the `useCart` hook;
- the CRUD-by-id menu and user slices of the admin back-office.

Each Redux slice is a class. Its reducers are methods that reassign the class's
fields, and each is proved against pure functions on the line lists: `AddedLines`,
`RemoveAll`, `QuantityUpdated` and `PatchedLines`. Lemmas about those functions
state what the cart promises:

- one line per product id;
- the totals agree with the lines;
- adding and then removing a product restores the cart;
- each reducer moves the totals by the amount stated.

React components with `useState` fields are small classes whose handlers
dispatch to the store. The hook's updaters are pure functions.

Modules, one per source file plus three shared ones:

- `Wrappers`: `Option`, for a field that may be `undefined`.
- `ListOps`: `findIndex`, `some`, `filter` by key, replace-first and `reduce(+)`, each proved once.
- `Catalog`: product and modifier records and the catalogue of `src/utils/constants.js`.
- `Pricing`: the price rule and the topping toggle.
- `CartSlice`, `UseCart`, `AddToCartButton`, `ProductCard`, `CartProduct`, `FoodSlice`, `UserSlice`: one per source file.

Prices and quantities are unbounded integers. On the item handed to the hook's
`addToCart`, a quantity of 0 also stands for a missing one, because
`item.quantity || 1` treats the two alike. Entries the hook stores always carry
a numeric quantity, because every updater writes one.

## Model

| member | source | states |
|---|---|---|
| `ListOps.FindIndex` | src/store/slices/foodSlice.js:22 | result is -1 exactly when no element has the key; otherwise it indexes the first element with the key |
| `ListOps.RemoveAll` | src/store/slices/foodSlice.js:29 | no survivor has the key; survivors come from the input; every element without the key survives |
| `ListOps.ReplaceFirst` | src/store/slices/foodSlice.js:21-27 | same length; unchanged when no element has the key; otherwise the first match is overwritten and nothing else |
| `ListOps.HasKeyIffFound` | src/store/slices/cartSlice.js:14-15 | `find` succeeding (truthy) and `some` agree with `findIndex` not being -1 |
| `ListOps.RemoveAllAppend` | src/hooks/useCart.js:127 | `filter` distributes over concatenation, so survivors keep their relative order |
| `ListOps.RemoveAllAbsent` | src/store/slices/cartSlice.js:28 | filtering out an absent key changes nothing |
| `ListOps.RemoveAllIdempotent` | src/store/slices/userSlice.js:28-31 | deleting the same id twice equals deleting it once |
| `ListOps.RemoveAllKeepsDistinct` | src/store/slices/cartSlice.js:28 | filtering keeps ids distinct |
| `ListOps.ReplaceFirstKeepsKeys` | src/store/slices/foodSlice.js:21-27 | replace-first keeps the id at every position, so distinctness of ids is kept in both directions |
| `ListOps.ReplaceFirstIdempotent` | src/store/slices/userSlice.js:21-27 | applying the same update twice equals applying it once |
| `ListOps.RemoveAllUpdateSameKey` | src/store/slices/foodSlice.js:24-29 | overwriting an element with one of the same id is invisible to a filter on that id |
| `ListOps.ReplaceThenRemove` | src/store/slices/foodSlice.js:21-31 | deleting an id after updating it equals deleting it outright |
| `ListOps.SumAppend` | src/hooks/useCart.js:89 | `reduce(+)` over a concatenation is the sum of the two reductions |
| `ListOps.SumUpdate` | src/store/slices/cartSlice.js:43 | overwriting one element shifts the sum by the difference of the two terms |
| `ListOps.SumRemoveAll` | src/store/slices/cartSlice.js:26-28 | with distinct ids, filtering a present id removes exactly that element's term |
| `ListOps.SumNonNegative` | src/hooks/useCart.js:89 | a sum of non-negative terms is non-negative |
| `Pricing.ToppingsPrice` | src/components/Product/ProductCard.jsx:46 | the toppings' price is 0 for no toppings and never negative when no topping price is |
| `Pricing.UnitPrice` | src/components/Product/ProductCard.jsx:47 | one unit costs the base price plus the size's price for no toppings, and at least that with toppings of non-negative price |
| `Pricing.LinePrice` | src/components/Cart/CartProduct.jsx:14-15 | the line price is 0 for no units, one unit's price for one, and at least one unit's price for any positive quantity |
| `Catalog.ToppingCatalogue` | src/utils/constants.js:7-16 | every catalogue topping costs 5000 and topping ids are distinct |
| `Pricing.ToggleTopping` | src/components/Product/ProductCard.jsx:69-78 | a toggle flips whether the topping id is selected; other selected toppings are kept; nothing else is added; an absent topping is appended |
| `Pricing.ToggleKeepsDistinct` | src/components/Product/ProductCard.jsx:69-78 | the selected topping ids stay distinct |
| `Pricing.ToggleTwiceRestores` | src/components/Cart/CartProduct.jsx:41-43 | selecting and then deselecting a topping restores the selection |
| `Pricing.TogglePrice` | src/components/Cart/CartProduct.jsx:41-46 | a toggle adds the topping's price or subtracts the removed topping's price |
| `Pricing.CatalogueToppingsPrice` | src/components/Product/ProductCard.jsx:46 | any choice of catalogue toppings costs 5000 per topping |
| `Pricing.CatalogueUnitPrice` | src/components/Product/ProductCard.jsx:46-47 | with catalogue modifiers, the unit price is base + 0, 10000 or 20000 + 5000 per topping |
| `Pricing.PricingScenario` | src/components/Product/ProductCard.jsx:46-47 | base 40000, medium size, two toppings: 60000 a unit, 180000 for quantity 3 |
| `CartSlice.AddItemMergesById` | src/store/slices/cartSlice.js:13-19 | `addItem` appends only a new id and otherwise raises only the first matching line's quantity, so one line per id is kept |
| `CartSlice.AddedLines` | src/store/slices/cartSlice.js:14-19 | `addItem`'s lines: one more line exactly when the id is new; the ids already there are kept in place; the payload's id is present afterwards |
| `CartSlice.QuantityUpdated` | src/store/slices/cartSlice.js:38-41 | `updateQuantity`'s lines: same length; a line either stays as it was or has the id and takes the new quantity and nothing else; a present id ends with that quantity |
| `CartSlice.PatchedLines` | src/store/slices/cartSlice.js:48-54 | `updateItem`'s lines: same length; a line either stays as it was or has the patch's id and is patched; no quantity and no id changes |
| `CartSlice.AddItemTotals` | src/store/slices/cartSlice.js:13-21 | the lines gain the payload's quantity, and its amount at the price of the line it lands in |
| `CartSlice.AddItemAgreement` | src/store/slices/cartSlice.js:14-21 | `addItem`'s increment of `totalAmount` equals what the lines gain exactly when the payload's price agrees with the line it merges into |
| `CartSlice.AddThenRemoveRestores` | src/store/slices/cartSlice.js:13-29 | adding a new product and then removing its id gives back the original lines |
| `CartSlice.RemoveItemTotals` | src/store/slices/cartSlice.js:23-29 | removing a present id lowers the sums by exactly that line's quantity and amount, and keeps one line per id |
| `CartSlice.UpdateQuantityTotals` | src/store/slices/cartSlice.js:36-44 | only the first matching line changes; the sums shift by (new - old) and `totalPrice` × (new - old) |
| `CartSlice.UpdateItemTotals` | src/store/slices/cartSlice.js:46-57 | `updateItem` changes no quantity and no id; `totalAmount` shifts by (new - old price) × quantity only when a truthy price is given |
| `CartSlice.SumsNonNegative` | src/store/slices/cartSlice.js:20-21 | with non-negative prices and quantities, both totals are non-negative |
| `CartSlice.AddTwiceOneLine` | src/store/slices/cartSlice.js:13-19 | adding the same new product twice gives one line holding twice the quantity |
| `CartSlice.ZeroQuantityKeepsLine` | src/store/slices/cartSlice.js:36-44 | `updateQuantity` to 0 keeps the line, with quantity 0; it is not a removal |
| `CartSlice.AddItemDrift` | src/store/slices/cartSlice.js:14-21 | merging a payload priced differently from its line makes `totalAmount` disagree with the lines |
| `CartSlice.AddItemDriftExample` | src/store/slices/cartSlice.js:14-21 | a 50000 line plus the same product at 60000: the lines are worth 100000, while `totalAmount` says 110000 |
| `CartSlice.CartStore.constructor` | src/store/slices/cartSlice.js:3-7 | empty cart, both totals 0 |
| `CartSlice.CartStore.AddItem` | src/store/slices/cartSlice.js:13-22 | new lines = `AddedLines`; totals move by the payload; one line per id kept; totals keep agreeing with the lines exactly when the payload's price agrees |
| `CartSlice.CartStore.AddItemReconciled` | src/store/slices/cartSlice.js:13-22 | the same lines; `totalQuantity` rises by the payload's quantity; `totalAmount` rises by that quantity at the merged line's price, or at the payload's price for a new id; so the totals keep agreeing |
| `CartSlice.CartStore.RemoveItem` | src/store/slices/cartSlice.js:23-30 | no-op on an absent id; otherwise every line with the id goes and the totals drop by that line; the id is gone; invariants kept |
| `CartSlice.CartStore.ClearCart` | src/store/slices/cartSlice.js:31-35 | no lines and both totals 0 |
| `CartSlice.CartStore.UpdateQuantity` | src/store/slices/cartSlice.js:36-45 | new lines = `QuantityUpdated`; totals shift by the difference; invariants kept |
| `CartSlice.CartStore.UpdateItem` | src/store/slices/cartSlice.js:46-58 | new lines = `PatchedLines`; `totalQuantity` unchanged; `totalAmount` shifts by the price change × quantity (`PatchShift`); invariants kept |
| `UseCart.AddToCart` | src/hooks/useCart.js:99-113 | a present id: every entry with it gains `quantity`, or 1 when missing; nothing else changes; a new id: appended with exactly `quantity`, or 1 when missing |
| `UseCart.CalculateTotal` | src/hooks/useCart.js:88-92 | the total of no items is 0, and never negative for non-negative prices and quantities |
| `UseCart.ItemCount` | src/hooks/useCart.js:181 | the count of no items is 0, and never negative for non-negative quantities |
| `UseCart.RemoveFromCart` | src/hooks/useCart.js:126-130 | the id is gone and every other entry is kept |
| `UseCart.UpdateQuantity` | src/hooks/useCart.js:143-150 | ignored below 1; otherwise every entry with the id takes the quantity, and nothing else changes |
| `UseCart.ClearCart` | src/hooks/useCart.js:158-164 | no items and total 0, consistent with `calculateTotal` and `itemCount` |
| `UseCart.AddExistingIsUpdateAt` | src/hooks/useCart.js:100-108 | with one entry per id, adding a present id updates exactly that entry |
| `UseCart.AddToCartKeepsDistinct` | src/hooks/useCart.js:99-113 | `addToCart` keeps one entry per id |
| `UseCart.AddToCartTotals` | src/hooks/useCart.js:88-113 | `itemCount` rises by `quantity`, or 1 when missing; `calculateTotal` rises by that many units at the landing entry's price |
| `UseCart.AddExistingTotals` | src/hooks/useCart.js:102-106 | raising one entry by q units raises the count by q and the total by q × price |
| `UseCart.AddThenRemoveRestores` | src/hooks/useCart.js:110-127 | adding a new item and removing its id restores the items |
| `UseCart.RemoveFromCartLaws` | src/hooks/useCart.js:127 | removal is idempotent and distributes over concatenation |
| `UseCart.RemoveFromCartTotals` | src/hooks/useCart.js:121-130 | removing a present id lowers count and total by exactly that entry |
| `UseCart.UpdateQuantityTotals` | src/hooks/useCart.js:138-150 | a quantity update shifts count by (new - old) and total by price × (new - old) |
| `AddToCartButton.Increment` | src/components/Cart/AddToCartButton.jsx:34-36 | one more, capped at 10 |
| `AddToCartButton.Decrement` | src/components/Cart/AddToCartButton.jsx:38-40 | one fewer, floored at 1 |
| `AddToCartButton.ClicksStayInRange` | src/components/Cart/AddToCartButton.jsx:34-40 | from a quantity in 1..10, any sequence of clicks stays in 1..10 |
| `AddToCartButton.PlusMinusRoundTrip` | src/components/Cart/AddToCartButton.jsx:34-40 | below the cap minus undoes plus; above the floor plus undoes minus |
| `AddToCartButton.CartItemFor` | src/components/Cart/AddToCartButton.jsx:14-22 | the cart item carries the product's fields and the picked quantity |
| `AddToCartButton.Component.constructor` | src/components/Cart/AddToCartButton.jsx:7 | the quantity starts at 1 |
| `AddToCartButton.Component.IncrementQuantity` | src/components/Cart/AddToCartButton.jsx:34-36 | quantity becomes `Increment` of the old one; 1..10 is kept |
| `AddToCartButton.Component.DecrementQuantity` | src/components/Cart/AddToCartButton.jsx:38-40 | quantity becomes `Decrement` of the old one; 1..10 is kept |
| `AddToCartButton.Component.HandleAddToCart` | src/components/Cart/AddToCartButton.jsx:10-32 | the hook's `addToCart` with the built item and the picked quantity; the quantity goes back to 1 |
| `ProductCard.PayloadScenario` | src/components/Product/ProductCard.jsx:45-56 | base 40000, medium, two toppings, quantity 3: the payload's `totalPrice` is 180000 |
| `ProductCard.Payload` | src/components/Product/ProductCard.jsx:50-56 | the payload carries the product's id, the selection and the quantity; its `totalPrice` equals one unit's price only for quantity 1 |
| `ProductCard.UnitPayload` | src/components/Product/ProductCard.jsx:46-56 | the per-unit payload carries the same id, selection and quantity, and its `totalPrice` × quantity is the line price |
| `ProductCard.PayloadCountsQuantityTwice` | src/components/Product/ProductCard.jsx:46-56 | on an empty cart, `totalAmount` becomes unit price × quantity² |
| `ProductCard.DoubleCountExample` | src/components/Product/ProductCard.jsx:46-56 | 40000, small, quantity 2: the line is 80000 and `totalAmount` says 160000 |
| `ProductCard.UnitPayloadAddsLinePrice` | src/components/Product/ProductCard.jsx:46-56 | a per-unit payload adds exactly the line price to the lines and to `totalAmount` |
| `ProductCard.Component.constructor` | src/components/Product/ProductCard.jsx:10-12 | quantity 1, the first size option, no toppings |
| `ProductCard.Component.HandleQuantityChange` | src/components/Product/ProductCard.jsx:59-63 | only a positive quantity is taken; the selection is unchanged |
| `ProductCard.Component.HandleSizeChange` | src/components/Product/ProductCard.jsx:65-67 | the size is replaced; the rest is unchanged |
| `ProductCard.Component.HandleToppingChange` | src/components/Product/ProductCard.jsx:69-78 | the selection becomes the toggle of the old one; distinct ids are kept |
| `ProductCard.Component.HandleAddToCart` | src/components/Product/ProductCard.jsx:45-56 | `addItem` of the priced payload; totals move by the quantity and by line price × quantity |
| `ProductCard.Component.HandleAddToCartIntended` | src/components/Product/ProductCard.jsx:45-56 | with a per-unit payload, `totalAmount` rises by exactly the line price, and the totals keep agreeing for a new product |
| `CartProduct.RepricedLine` | src/components/Cart/CartProduct.jsx:27-55 | a size or topping change sets that line's size, toppings and (non-zero) price for its own quantity; other lines are unchanged |
| `CartProduct.QuantityPatch` | src/components/Cart/CartProduct.jsx:17-23 | the patch targets the line's id, carries the new quantity, and `updateItem` applies its price exactly when the line price for the new quantity is not 0 |
| `CartProduct.RepricePatch` | src/components/Cart/CartProduct.jsx:32-37 | the patch targets the line's id, carries no quantity, and `updateItem` applies its price exactly when the line price for the current quantity is not 0 |
| `CartProduct.RepriceCountsQuantityTwice` | src/components/Cart/CartProduct.jsx:29-37 | after a reprice, the line adds unit price × quantity² to the lines' amount |
| `CartProduct.RepriceDoubleCountExample` | src/components/Cart/CartProduct.jsx:29-37 | two small bowls at 40000 changed to medium: `totalPrice` becomes 100000, and the line adds 200000 to the amount |
| `CartProduct.UnitRepricePatch` | src/components/Cart/CartProduct.jsx:29-37 | a per-unit reprice patch: its price is applied exactly when the unit price is not 0, and that price × quantity is the line price |
| `CartProduct.UnitRepricedLine` | src/components/Cart/CartProduct.jsx:27-55 | with a per-unit reprice, the line's amount becomes its line price, and the lines' amount moves by the difference |
| `CartProduct.QuantityButtonKeepsQuantity` | src/components/Cart/CartProduct.jsx:12-25 | the plus and minus buttons leave the line's quantity unchanged, while its price becomes that of the new quantity |
| `CartProduct.Component.constructor` | src/components/Cart/CartProduct.jsx:9-10 | the line's size or the first size option; the line's toppings or none |
| `CartProduct.Component.HandleQuantityChange` | src/components/Cart/CartProduct.jsx:12-25 | for a positive quantity: `updateItem` with the quantity patch, `totalQuantity` unchanged, and `totalAmount` moved by `updateItem`'s shift; otherwise nothing changes |
| `CartProduct.Component.HandleQuantityChangeIntended` | src/components/Cart/CartProduct.jsx:12-25 | for a positive quantity on a present line: the quantity becomes the new one, and the totals shift by (new - old) and price × (new - old); otherwise the totals are unchanged |
| `CartProduct.Component.HandleSizeChange` | src/components/Cart/CartProduct.jsx:27-38 | the size is selected and the reprice patch is dispatched; `totalQuantity` is unchanged and `totalAmount` moves by `updateItem`'s shift |
| `CartProduct.Component.HandleSizeChangeIntended` | src/components/Cart/CartProduct.jsx:27-38 | the same with the per-unit reprice patch; the totals keep agreeing |
| `CartProduct.Component.HandleToppingChange` | src/components/Cart/CartProduct.jsx:40-55 | the toppings are toggled and the reprice patch with the new toppings is dispatched; `totalQuantity` is unchanged and `totalAmount` moves by `updateItem`'s shift |
| `CartProduct.Component.HandleToppingChangeIntended` | src/components/Cart/CartProduct.jsx:40-55 | the same with the per-unit reprice patch; the totals keep agreeing |
| `CartProduct.Component.HandleRemove` | src/components/Cart/CartProduct.jsx:57-59 | every line with this id is removed; the totals drop by the first such line's quantity and amount, or stay unchanged for an absent id |
| `FoodSlice.FoodStore.constructor` | src/store/slices/foodSlice.js:3-7 | no foods, not loading, no error |
| `FoodSlice.FoodStore.SetFoods` | src/store/slices/foodSlice.js:13-16 | the list is replaced and the error cleared |
| `FoodSlice.FoodStore.AddFood` | src/store/slices/foodSlice.js:17-20 | appended at the end without an id check; error cleared |
| `FoodSlice.FoodStore.UpdateFood` | src/store/slices/foodSlice.js:21-27 | replace-first by id; same length; no-op on an absent id; distinct ids kept; error cleared |
| `FoodSlice.FoodStore.DeleteFood` | src/store/slices/foodSlice.js:28-31 | every food with the id goes; distinct ids kept; error cleared |
| `FoodSlice.FoodStore.SetLoading` | src/store/slices/foodSlice.js:32-34 | only `loading` changes |
| `FoodSlice.FoodStore.SetError` | src/store/slices/foodSlice.js:35-37 | only `error` changes |
| `UserSlice.UserStore.constructor` | src/store/slices/userSlice.js:3-7 | no users, not loading, no error |
| `UserSlice.UserStore.SetUsers` | src/store/slices/userSlice.js:13-16 | the list is replaced and the error cleared |
| `UserSlice.UserStore.AddUser` | src/store/slices/userSlice.js:17-20 | appended at the end without an id check; error cleared |
| `UserSlice.UserStore.UpdateUser` | src/store/slices/userSlice.js:21-27 | replace-first by id; same length; no-op on an absent id; distinct ids kept; error cleared |
| `UserSlice.UserStore.DeleteUser` | src/store/slices/userSlice.js:28-31 | every user with the id goes; distinct ids kept; error cleared |
| `UserSlice.UserStore.SetLoading` | src/store/slices/userSlice.js:32-34 | only `loading` changes |
| `UserSlice.UserStore.SetError` | src/store/slices/userSlice.js:35-37 | only `error` changes |

## Behaviour of the code worth knowing

- The slice does not recompute its totals from the lines. It adjusts `totalQuantity` and `totalAmount` step by step. `CartStore.TotalsMatch` states that the totals equal the sums over the lines. Every reducer is proved to keep it, except `addItem` when it merges a payload at a different price (Finding 1).
- A quantity below 1 does not remove a line. The hook's `updateQuantity` ignores it. The slice's `updateQuantity` stores it as given (`ZeroQuantityKeepsLine`).
- Only the quantity picker clamps quantities, to 1..10. The reducers store whatever they are sent.
- `addItem`, `removeItem`, `updateQuantity` and `updateItem` multiply a line's `totalPrice` by its quantity, so they read it as the price of one unit. ProductCard and CartProduct both write the price of the whole line into it (Findings 2 and 4).

## Left out

- Persistence is left out because it is I/O against external services. This covers loading from and saving to Firestore and `localStorage` in the `useCart` effects, redux-persist, and `setTotal` after a save.
- `UseCart` covers only the pure updaters and folds. The hook's `isLoading` and `error` state and its `try`/`catch` are left out, since the updaters do not throw.
- The asynchronous scheduling of the hook's updaters is left out. Each updater is modelled as a function applied to the previous items.
- `ProductCard` leaves out `isAdding`, `showDetails` and the flying-element animation. These are DOM effects and timers.
- `AddToCartButton` leaves out `isAdding`, a display flag set around the add (AddToCartButton.jsx:8, 12 and 30). It leaves out the `catch` path too: `addToCart` only schedules an updater, which does not throw.
- Rendering, routing, authentication, the admin screens, the cart page and the order checkout are left out. They are outside the cart and catalogue logic.
- Prices and quantities are unbounded integers, while JavaScript uses floating-point numbers. Fractional values, `NaN` and rounding are not modelled.
- A missing quantity on the item given to `addToCart` is modelled as 0, which `item.quantity || 1` treats alike. Stored hook entries without a quantity are not modelled. Such entries can only come from storage, and for them `calculateTotal` (`price * quantity`) and a merge (`i.quantity + ...`) give `NaN`.
- `ProductCard.Component.constructor` requires a non-empty `sizeOptions`. The component reads `sizeOptions[0]` as its initial size, and an empty list would leave it `undefined`, which the model does not represent.
- The test screen's payloads, which dispatch `addItem` without a `totalPrice`, are not modelled. In the model every line carries a number.
- `User` keeps the fields the admin user-management screen shows: `displayName`, `email`, `role` and `status`. The slice reads only `id`.

## Findings

| source | as written | input that shows it | evidently intended | confidence | as-written member | corrected member |
|---|---|---|---|---|---|---|
| src/store/slices/cartSlice.js:14-21 | on an existing id `addItem` raises the line's quantity but adds `payload.totalPrice * payload.quantity` to `totalAmount` | a line of 50000 × 1, then the same product added at 60000 × 1: the lines are worth 100000, `totalAmount` is 110000 | the amount added is the merged line's price × the added quantity, so `totalAmount` keeps equal to the sum of the lines | not executed | `CartSlice.AddItemDriftExample` | `CartSlice.CartStore.AddItemReconciled` |
| src/components/Product/ProductCard.jsx:46-56 | the payload's `totalPrice` is already multiplied by the quantity, and `addItem` multiplies it by the quantity again | base 40000, small size, no toppings, quantity 2: the line is 80000, `totalAmount` is 160000 | `totalPrice` is the unit price, as the reducers read it | not executed | `ProductCard.DoubleCountExample` | `ProductCard.UnitPayloadAddsLinePrice` |
| src/components/Cart/CartProduct.jsx:12-25 | the plus and minus buttons dispatch `updateItem` with the new quantity, which `updateItem` ignores | a line of quantity 1, plus pressed: the quantity stays 1 while `totalPrice` becomes the price for 2 | dispatch `updateQuantity` so that the line's quantity changes | not executed | `CartProduct.QuantityButtonKeepsQuantity` | `CartProduct.Component.HandleQuantityChangeIntended` |
| src/components/Cart/CartProduct.jsx:27-55 | a size or topping change writes the price × `item.quantity` into `totalPrice`, and the slice multiplies by the quantity again | two small bowls at base 40000 changed to medium: `totalPrice` becomes 100000, what the two bowls cost, and the line adds 200000 to the amount | the reprice patch carries the unit price, as the reducers read it | not executed | `CartProduct.RepriceDoubleCountExample` | `CartProduct.UnitRepricedLine` |
