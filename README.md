# Cart quantity arithmetic of the storefront client

This project models the cart-value transformations of the storefront's cart
view (`client/src/components/cart.jsx`): the "+" button
(`handleIncreaseQuantity`), the "-" button (`handleDecreaseQuantity`) and the
total shown under the lines (`calculateTotalAmount`). Each one is a pure function
from a cart value to a new cart value. Storing that value (`setCart`) and
syncing it with the server (`debouncedUpdateCart`) are left to the caller.

- `wrappers.dfy`, module `Wrappers`: `Option`. The cart's `items` may be `null` or `undefined`.
- `cart.dfy`, module `CartView`: the data model and the three operations.
  - A cart is a status tag plus optional items.
  - An item has an id (the product's `_id`), a name, a price in whole rupees, a quantity and a stock.
  - Each operation is written the way the code computes it: a `map`, or a left `reduce`.
  - The as-written bodies are `BumpItem` (the `map` callback of cart.jsx:33, used by `IncreaseItems`), `DecreaseStep` and `DecreaseFold` (the `reduce` callback and the `reduce` of cart.jsx:46-55, used by `Decrease`) and `TotalFold` (the `reduce` of cart.jsx:62, used by `TotalAmount`).
  - Decrease and the total each have a reference definition beside the fold (`Decremented`, `Sum`). A lemma proves each fold equal to its reference: `DecreaseFoldIsDecremented` and `TotalFoldIsSum`.
  - Increase has no separate reference definition. The postconditions of `IncreaseItems` characterise its result line by line.
- `cart_properties.dfy`, module `CartProperties`: what the operations promise.
  - The stock cap.
  - Removal at quantity one.
  - The relative order of the other lines.
  - Preservation of the validity invariant: each line has `1 <= quantity <= stock`, and ids are unique.
  - How the total moves.
  - "+" and "-" undo each other.
  - Two concrete scenarios.

Behaviour of the handlers worth noting:

- When `items` is absent, both handlers return before calling `setCart`. So the cart is left exactly as it was, status included. The status becomes `Fetched` only when items are present.
- "-" removes a line whose quantity is at most 1, so a line at 0 or below is removed too.
- An empty item array is truthy in JavaScript. So `Some([])` goes through the normal path and gets status `Fetched`.

## Model

| member | source | states |
|---|---|---|
| `CartView.IncreaseItems` | client/src/components/cart.jsx:32-34 | same length; each line keeps its position and every field but the quantity; a quantity changes iff the line has the id and is below its stock, and then by exactly one; a line within its stock stays within it |
| `CartView.Increase` | client/src/components/cart.jsx:26-38 | absent items: the cart is returned unchanged; otherwise the status is `Fetched` whether or not a line changed, and the items are those of `IncreaseItems` |
| `CartView.DecreaseFoldIsDecremented` | client/src/components/cart.jsx:46-55 | the left `reduce` that pushes into an accumulator equals the accumulator followed by the line-by-line filter-map `Decremented` |
| `CartView.Decrease` | client/src/components/cart.jsx:40-59 | absent items: the cart is returned unchanged; otherwise the status is `Fetched` and the items are the filter-map `Decremented` of the old items |
| `CartView.TotalFoldIsSum` | client/src/components/cart.jsx:62 | the left `reduce` of `total + price * quantity` equals its start value plus the sum over the lines |
| `CartView.SumNonNegative` | client/src/components/cart.jsx:62 | when no quantity is negative, the sum of price times quantity is non-negative |
| `CartView.TotalAmount` | client/src/components/cart.jsx:61-63 | 0 when items are absent or empty, otherwise the sum of price times quantity over the lines; non-negative when no quantity is negative |
| `CartProperties.IncreaseUnchangedIff` | client/src/components/cart.jsx:33 | "+" leaves the lines identical iff every line with that id is already at or above its stock (this covers an id that is not present) |
| `CartProperties.IncreaseAt` | client/src/components/cart.jsx:32-34 | with unique ids, "+" on the line at k replaces it with one unit more if it is below its stock, and otherwise changes nothing |
| `CartProperties.IncreasePreservesValid` | client/src/components/cart.jsx:33 | "+" keeps every line within `1 <= quantity <= stock` and keeps the ids unique |
| `CartProperties.IncreaseKeepsOthers` | client/src/components/cart.jsx:32-34 | the lines with other ids come out of "+" identical and in the same order |
| `CartProperties.DecreaseKeepsOthers` | client/src/components/cart.jsx:46-55 | the lines with other ids come out of "-" identical and in their original relative order |
| `CartProperties.DecreaseAbsent` | client/src/components/cart.jsx:46-55 | "-" with an id that no line has returns the same lines |
| `CartProperties.DecreaseUnchangedIff` | client/src/components/cart.jsx:46-55 | "-" returns the lines unchanged iff no line has that id |
| `CartProperties.DecreaseAt` | client/src/components/cart.jsx:47-52 | with unique ids, "-" on the line at k lowers it by one in place if it holds more than one unit; otherwise it removes the line, leaving one line fewer and the rest in order |
| `CartProperties.DecreasePreservesValid` | client/src/components/cart.jsx:46-55 | "-" keeps every line within `1 <= quantity <= stock` and keeps the ids unique (a line is never left at 0) |
| `CartProperties.SumAppend` | client/src/components/cart.jsx:62 | the total is additive: the sum over a concatenation is the sum of the parts' sums |
| `CartProperties.TotalAfterIncrease` | client/src/components/cart.jsx:32-34 | with unique ids, "+" raises the total by the line's price, or leaves it unchanged when the line is at its stock |
| `CartProperties.TotalAfterDecrease` | client/src/components/cart.jsx:46-55 | with unique ids and a line holding at least one unit, "-" lowers the total by exactly that line's price, whether the line is decremented or removed |
| `CartProperties.DecreaseUndoesIncrease` | client/src/components/cart.jsx:26-59 | on a valid cart, "+" then "-" on a line below its stock gives back the original cart with status `Fetched` |
| `CartProperties.IncreaseUndoesDecrease` | client/src/components/cart.jsx:26-59 | on a valid cart, "-" then "+" on a line holding more than one unit gives back the original cart with status `Fetched` |
| `CartProperties.StockCappedScenario` | client/src/components/cart.jsx:33 | a line with price 10, quantity 1 and stock 1 stays at quantity 1 after "+", and the total stays 10 |
| `CartProperties.RemoveAtOneScenario` | client/src/components/cart.jsx:46-55 | "-" on the first of two lines when it holds one unit leaves only the second line, unchanged |

## Left out

- `debounce` and `debouncedUpdateCart` (cart.jsx:16-24, 37, 58): a timer on the event loop around a network call. Timing is not modelled; the caller receives the new cart value.
- `handleProceedCheckout` and the mount-time cart fetch (cart.jsx:65-117): browser storage, `fetch`, redirects and React state setters, all I/O.
- The JSX render (cart.jsx:119-154): markup only.
- server/src/routes.js: it only wires paths to controllers and token verification. The controllers and `jwt.js` are not part of this model.
- Prices are whole numbers (`nat`), not JavaScript floating-point numbers. Quantities and stocks are unbounded integers, not IEEE doubles.
- The status is a four-valued datatype, not an arbitrary string.
- The cart value holds only `status` and `items`. Any other field the store keeps is carried along unchanged by the object spread, and is not represented here.
- Ids are compared as strings with `==`. JavaScript's `===` on ids of other types is not modelled.
