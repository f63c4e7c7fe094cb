# Shopping-cart reducer, modelled and verified in Dafny

This project models the cart state of a browser storefront. The cart holds an
ordered list of line items and two running totals, `totalQuantity` and
`totalPrice`. A line item is a product's fields plus a `quantity`. Four
reducer cases change the cart:

- `addToCart` appends a new line of quantity 1, or adds one unit to the line
  that already has the product's id;
- `removeFromCart` drops the line with that id and takes its contribution off
  both totals;
- `updateQuantity` sets a line's quantity when the new value is positive;
- `clearCart` resets everything.

Two files, two modules:

- `cart_model.dfy`, module `CartModel`. The data model (`Product`, `CartItem`,
  `CartState`, `Action`, `InitialState`) and each reducer case as a pure
  transition function: `Add`, `Remove`, `Update` and `Clear`. It also holds
  `Step` (apply one action) and `Run` (apply a sequence of actions in order).
  `Valid` is the cart invariant: both totals equal their sums over the lines,
  every quantity is at least 1, and ids are unique. The lemmas state what each
  case does and that the invariant is kept.
- `cart_slice.dfy`, module `CartSlice`. The slice as a mutable object: class
  `Cart` has the fields `items`, `totalQuantity` and `totalPrice`. Each method
  updates them in place, as the reducers do through Immer. Each method is
  proved to reach exactly the state the matching transition function gives.
  Each also keeps `Valid`; for `AddToCart`, and for `Dispatch` of an add,
  only under the price condition described below.
  - `FindIndex` models `Array.prototype.find` as a linear search.
  - `FilterOut` models `Array.prototype.filter` as a loop.

Prices and totals are integer cents, so every sum is exact. The cart reads
only a product's `id` and `price`; the other fields of `Product` (title,
description, category, images) are carried along unchanged. `Product` is
declared in `src/features/productSlice.ts`, which is not part of this model,
so its shape here follows what the pages read from it.

One subtlety of the source is captured explicitly. When the id is already in
the cart, `addToCart` keeps the stored line's fields, including its price
(`src/features/cartSlice.ts:27`, `:34`). It still adds the new product's price
to `totalPrice` (`:37`). So the price invariant is kept only when an id always
comes with the same price.

- `AddToCartPreservesValid` requires that.
- `AddToCartPriceDrift` proves that otherwise `totalPrice` drifts from the
  lines' sum by exactly the price difference.
- `AddToCartPriceMismatch` gives a concrete cart where this happens.
- `ReachableValid` proves the invariant for every sequence of intents from
  the initial state, given a fixed price table that every add agrees with.
- `RunKeepsValidPerStep` proves it under the weaker per-step condition: each
  add agrees with the lines holding its id at that moment. So an id may come
  back at a new price after its line was removed or the cart cleared.

The lines are an ordered array, searched front to back for the first line
with the id. A quantity of 0 or less passed to `updateQuantity` leaves the
line alone; it is not removed. As a result the cart page's minus button does
nothing on a line of quantity 1 (`src/pages/Cart.tsx:85` sends
`quantity - 1`).

## Model

| member | source | states |
|---|---|---|
| `CartModel.IndexOf` | src/features/cartSlice.ts:27 | `items.find` by id: a result is the index of a line with that id, and no earlier line has it; no result means no line has the id |
| `CartModel.Without` | src/features/cartSlice.ts:45 | `items.filter(item.id !== id)`: the result is never longer than the cart |
| `CartModel.WithoutMembers` | src/features/cartSlice.ts:45 | the filter keeps a line exactly when it was in the cart and has another id |
| `CartModel.WithoutUnique` | src/features/cartSlice.ts:45 | with unique ids, the filter deletes exactly the one line at the id's position and keeps all other lines in their order |
| `CartModel.AddToCartLines` | src/features/cartSlice.ts:25-38 | totals go up by 1 and by the product's price; a new id appends `CartItem(p, 1)` at the end; a present id raises that line's quantity by 1, keeps its stored fields, and leaves every other line as it was |
| `CartModel.AddToCartOneLine` | src/features/cartSlice.ts:27-35 | from a cart with unique ids, afterwards exactly one line has the id and ids remain unique |
| `CartModel.AddToCartPreservesValid` | src/features/cartSlice.ts:25-38 | the invariant (exact totals, quantities at least 1, unique ids) is kept when the lines already holding the id carry the product's price |
| `CartModel.AddToCartPriceDrift` | src/features/cartSlice.ts:34-37 | re-adding a present id at another price leaves `totalPrice` off from the lines' sum by exactly the new price minus the stored price |
| `CartModel.AddToCartPriceMismatch` | src/features/cartSlice.ts:27-37 | a concrete consistent cart with id 1 at 10 cents, re-added at 12 cents, ends with total 22 and breaks the invariant |
| `CartModel.RemoveFromCartAbsent` | src/features/cartSlice.ts:41-42 | removing an id no line has leaves items and both totals exactly unchanged |
| `CartModel.RemoveFromCartPresent` | src/features/cartSlice.ts:42-46 | with unique ids, removing a present id deletes its line, keeps the other lines in order, lowers `totalQuantity` by the line's quantity and `totalPrice` by price times quantity, and no line with the id remains |
| `CartModel.RemoveFromCartPreservesValid` | src/features/cartSlice.ts:39-47 | removal keeps the invariant |
| `CartModel.UpdateQuantityEffect` | src/features/cartSlice.ts:48-57 | the number of lines never changes; an absent id or a quantity of 0 or less is a no-op; otherwise only the matching line's quantity becomes the new value, and the totals shift by the difference and by price times the difference |
| `CartModel.UpdateQuantityPreservesValid` | src/features/cartSlice.ts:48-57 | updating keeps the invariant, so no quantity ever drops below 1 through this path |
| `CartModel.ClearCartLaws` | src/features/cartSlice.ts:58-62 | clearing yields the initial state (no lines, both totals 0), which satisfies the invariant, and clearing twice equals clearing once |
| `CartModel.StepPreservesValid` | src/features/cartSlice.ts:24-63 | each of the four reducer cases keeps the invariant and keeps every line at its table price, when an added product agrees with the price table |
| `CartModel.RunPreservesValid` | src/features/cartSlice.ts:21-67 | any sequence of intents whose adds all agree with one price table keeps the invariant, starting from any valid cart priced by that table |
| `CartModel.RunKeepsValidPerStep` | src/features/cartSlice.ts:24-63 | any sequence of intents from a valid cart, in which each add brings the price of the lines holding its id at that moment, ends in a valid cart |
| `CartModel.ReachableValid` | src/features/cartSlice.ts:15-62 | from the initial state, any sequence of intents whose adds all agree with one price table ends in a cart with exact totals, quantities at least 1 and unique ids |
| `CartModel.ScenarioSequence` | src/features/cartSlice.ts:25-56 | worked runs: the same product added twice gives one line of quantity 2; add, add, remove leaves the other line; quantity 0 keeps the line; removing an unknown id from an empty cart changes nothing |
| `CartSlice.FindIndex` | src/features/cartSlice.ts:27 | the linear search returns exactly the first-match index `IndexOf` specifies |
| `CartSlice.FilterOut` | src/features/cartSlice.ts:45 | the filtering loop returns exactly `Without`, the lines with other ids in their order |
| `CartSlice.Cart.constructor` | src/features/cartSlice.ts:15-19 | a new cart has no lines, both totals 0, and satisfies the invariant |
| `CartSlice.Cart.AddToCart` | src/features/cartSlice.ts:25-38 | the object reaches the state `Add` gives; totals rise by 1 and by the price; the invariant is kept under the price condition; exactly one line has the id afterwards when ids were unique |
| `CartSlice.Cart.RemoveFromCart` | src/features/cartSlice.ts:39-47 | the object reaches the state `Remove` gives; an absent id changes no field; from a valid cart the invariant is kept and the id is gone |
| `CartSlice.Cart.UpdateQuantity` | src/features/cartSlice.ts:48-57 | the object reaches the state `Update` gives; an absent id or a quantity of 0 or less changes no field; the number of lines is unchanged; the invariant is kept |
| `CartSlice.Cart.ClearCart` | src/features/cartSlice.ts:58-62 | the object is reset to no lines and zero totals, the state `Clear` gives, and satisfies the invariant |
| `CartSlice.Cart.Dispatch` | src/features/cartSlice.ts:66-67 | dispatching an action to the slice's reducer reaches the state `Step` gives for that action, and keeps the invariant when an added product's price agrees with the lines holding its id |

## Left out

- The product catalog loader (`fetchProducts`, and the idle, loading and failed statuses). It is an asynchronous HTTP request, and `src/features/productSlice.ts` is not part of this model.
- The pages (`src/pages/Cart.tsx`, `src/pages/ProductDetail.tsx`, `src/pages/ProductList.tsx`), `src/components/Navbar.tsx` and `src/App.tsx`. They are rendering, animation and routing. This includes the image-URL bracket stripping, the displayed `totalPrice * 1.1` markup and the product lookup by route id.
- Floating-point arithmetic. The source keeps prices and totals as JavaScript numbers, which can drift and are shown with `.toFixed(2)`. Here prices are exact integer cents.
- Quantities are Dafny integers. `updateQuantity` in the source would also accept a fractional number; the only caller sends the old quantity plus or minus 1.
- Redux Toolkit and Immer mechanics (`createSlice`, `PayloadAction`, action creators, draft proxies). Each reducer case is a method that changes the object's fields directly, and `Dispatch` stands for the generated reducer.
- `CartModel.RemoveFromCartPresent`: stated only for carts with unique ids. On a cart with duplicate ids, the source subtracts only the first matching line's contribution but filters out every matching line. The transition `Remove` models that as written. `Valid` rules such carts out.
- `CartModel.AddToCartPreservesValid`: requires that the cart's lines with the product's id carry the same price, because the source does not keep the invariant otherwise (see `AddToCartPriceDrift`).
