# Cart state manager of the nutrition-bars shop

A model of the shopping cart kept by `script.js`: an ordered list of line
items `{name, price, quantity}` persisted under the single local-storage key
`"cart"`, the handlers that change it (`addToCart`, `updateQuantity`,
`removeItem`, `clearCart`), the read and write helpers (`getCart`,
`saveCart`) and the two derived numbers (the badge count of
`updateCartCount` and the total of `loadCartItems`).

- `cart_state.dfy`, module `CartState`: the values. `LineItem`, `Cart`,
  lookup by name (`FindByName`, the first match, as `Array.prototype.find`
  returns), one left fold `SumOf` that gives both `ItemCount` and
  `TotalPrice` (the sums that the store's `CartCount` and `CartTotal` are
  measured against), and the three edits `AddItem`, `ChangeQuantity` and
  `RemoveAt` as functions whose contracts say element by element what the
  new cart is and which cart invariants they keep. Lemmas relate each edit
  to the two totals.
- `cart_storage.dfy`, module `CartStorage`: the state. `Stored` is what the
  `"cart"` slot holds (absent, a saved cart, or text that does not parse);
  class `CartStore` holds that slot as a field. The three editing handlers
  (`AddToCart`, `UpdateQuantity`, `RemoveItem`) are methods that read the
  cart, edit it step by step as the JavaScript does, and write it back
  through `SaveCart`. Each of their contracts ties the new slot to the edit
  function applied to the old cart, says when the slot is left alone, and
  keeps `WellFormed` (unique names, non-empty names, positive prices,
  quantities of at least 1). `ClearCart` writes nothing back: it sets the
  slot to `Absent`, as `localStorage.removeItem` does. `CartCount` is the
  `reduce` of `updateCartCount` over the stored cart, and `CartTotal` is the `forEach` loop of
  `loadCartItems`, proved equal to `TotalPrice`.

Prices are integers (whole units of the smallest currency unit) so totals are
exact sums. The storage's answer to a write (accepted, or refused because the
quota is exceeded) is a parameter `accepted` of each of the three editing handlers.

Behaviour of script.js worth noting:
- `addToCart` only requires the price to be a number above zero after
  `parseFloat`; a rejected call returns silently (a console message), with no
  error value.
- A stored payload that is valid JSON but not a list is returned by `getCart`
  as it is, not replaced by the empty cart; that case is left out below.
- A stored cart with two items of the same name is handled as the code does:
  `addToCart` raises the first of them.
- script.js writes no checkout record.

## Model

| member | source | states |
|---|---|---|
| CartState.FindByName | script.js:68 | finds an item exactly when the name occurs, and then the first position holding it |
| CartState.AddItem | script.js:68-75 | an existing name: same length, that first item's quantity up by 1 with name and price kept even if the new price differs, every other item unchanged; a new name: old items in order followed by `{name, price, 1}`; unique names, positive quantities and well-formedness are kept |
| CartState.AddItemTotals | script.js:68-77 | after an add the item count is exactly one higher and the total rises by the stored price of the raised item, or by the new price when appended |
| CartState.ChangeQuantity | script.js:215-219 | out-of-range index: cart unchanged; in range with a positive result: only that quantity changes, to old + change; otherwise the item is removed and the later items shift down in order; unique names, positive quantities and well-formedness are kept |
| CartState.ChangeQuantityTotals | script.js:216-219 | the count moves by `change` (or by minus the old quantity when the item is dropped) and the total by price × change (or by minus the row subtotal) |
| CartState.RemoveAt | script.js:201-202 | in range: exactly that element is removed, length one less, earlier items in place, later items shifted down in order; out of range: unchanged; invariants kept |
| CartState.RemoveAtTotals | script.js:201-202 | removing a row lowers the count by its quantity and the total by its subtotal |
| CartState.CountCoversRows | script.js:136 | with every quantity at least 1 the badge count is at least the number of rows |
| CartState.TotalZeroIffEmpty | script.js:160-170 | for a well-formed cart the total is at least the number of rows, so it is 0 exactly for the empty cart |
| CartState.SumOfAppend | script.js:168-170 | the fold behind both totals is additive over concatenation |
| CartStorage.Load | script.js:92-100 | an absent or unparsable slot reads as the empty cart, a saved cart reads back as itself, and reading never fails |
| CartStorage.CartStore.SaveCart | script.js:102-108 | an accepted write stores the cart so that the next read returns it; a refused write leaves the slot unchanged and is reported |
| CartStorage.CartStore.AddToCart | script.js:56-90 | rejected exactly for an empty name, NaN or a price not above 0, leaving storage unchanged; otherwise the slot holds `AddItem` of the old cart and the badge count is one higher; a refused write leaves storage unchanged; well-formedness is kept |
| CartStorage.CartStore.UpdateQuantity | script.js:211-226 | an index outside the cart leaves storage unchanged; otherwise the slot holds `ChangeQuantity` of the old cart; well-formedness is kept |
| CartStorage.CartStore.RemoveItem | script.js:197-209 | an index outside the cart leaves storage unchanged; otherwise the slot holds `RemoveAt` of the old cart; well-formedness is kept |
| CartStorage.CartStore.ClearCart | script.js:228-237 | the key is removed, so the next read yields the empty cart |
| CartStorage.CartStore.CartCount | script.js:134-136 | the badge number: the quantities of the stored cart added up in list order from 0, so 0 for an empty or missing cart and at least the number of rows when every quantity is at least 1 |
| CartStorage.CartStore.CartTotal | script.js:160-170 | the displayed total equals the sum over items of price × quantity, 0 for an empty cart |

## Left out

- DOM work: `initializeCart` and its button wiring (including its check of the `data-name`/`data-price` attributes), the row templates and `onclick` strings of `loadCartItems`, and the re-render each handler triggers; they only draw the cart.
- `showSuccessMessage`, `alert`, `setTimeout` and console logging: user-interface effects with no bearing on the cart.
- JSON text: `JSON.stringify`/`JSON.parse` are library calls; the slot holds the cart itself, with a separate state for text that does not parse.
- Payloads that parse but are not a list of items (for example `"5"`, `"{}"` or `"null"`): `getCart` returns them as they are. For a number or an object, `cart.length` is undefined, so `removeItem` and `updateQuantity` quietly do nothing, while `addToCart` throws at `cart.find` and `loadCartItems` at `cart.forEach`, each caught by its `try`. For `null`, `addToCart`, `removeItem`, `updateQuantity` and `loadCartItems` throw and catch; `clearCart` removes the key before reading, so it does not. Not modelled: the slot holds a cart, nothing to parse, or unparsable text.
- Floating point: `parseFloat`, `toFixed` and rounding of JavaScript numbers; prices and totals are exact integers here, so an infinite price cannot be expressed.
- Non-integer indices passed to `updateQuantity` or `removeItem`, and a `change` that is fractional or NaN: with NaN the row is kept with a NaN quantity (`NaN <= 0` is false), and a fractional change leaves a fractional quantity. The model's index and `change` are integers; the page only passes row positions and a change of +1 or -1.
- Several tabs writing the same key at once (last writer wins); the model is single-threaded.
- Failure of `localStorage.removeItem` in `clearCart`: not modelled as failing.
