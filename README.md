# Storefront cart and selection state machine

A model of the state kept by the `App` component of a burger-shop storefront
(`src/App.js`). Without rendering and fetching, the component is a small
synchronous state machine over seven slots: the expanded menu section
(`expandedTopic`), the banner image (`imageTopo`), the menu sections (`data`),
the item open in the configuration modal (`selectedItem`), the draft's
`quantity` and `selectedModifier`, and the `cart`. Each event handler is an
atomic update of those slots.

Layout:

- `catalog.dfy` (module `Catalog`): the read-only records `Topic`, `Item`,
  `ModifierGroup`, `Modifier` and `Image`, plus `Option` and `FetchResult`.
- `pricing.dfy` (module `Pricing`): the effective-price rule. A chosen
  modifier's price replaces the item's price; it is not added to it.
- `accordion.dfy` (module `Accordion`): the single-open accordion toggle.
- `quantity.dfy` (module `Quantity`): the "-" rule, floored at 1. The modal
  and the cart lines share it.
- `cart.dfy` (module `Cart`): cart lines and the subtotal. The subtotal is
  the `reduce` fold, proved equal to a reference sum of price × quantity.
- `app.dfy` (module `App`): class `Storefront`, which holds the seven slots.
  It has one method per handler and reads the subtotal and the effective price
  through the functions above.

Prices and quantities are exact integers (for example cents).

Where the code and the intended design differ, the model follows the code:

- Closing the modal clears only `selectedItem`. `quantity` and
  `selectedModifier` keep their values until the next item is opened, and
  opening an item resets both.
- A zero-priced draft is not rejected by the add handler. The "Add order"
  button is simply not rendered (line 225). `PressAddOrder` models a press on
  that gated button: it returns `false` and changes nothing when the button is
  not offered.
- A cart index with no line behind it makes the handler throw before
  `setCart` runs. The cart methods model that as `ok == false` with the state
  unchanged.

## Model

| member | source | states |
|---|---|---|
| `Pricing.EffectivePrice` | src/App.js:43-45 | the unit price is the chosen modifier's price when one is chosen, otherwise the item's base price |
| `Pricing.ModifierReplacesBase` | src/App.js:43-45 | with a modifier chosen, the price does not depend on the item's base price, and equals base + modifier only when the base is 0 (replacement, not surcharge) |
| `Pricing.PurchasableIff` | src/App.js:225 | the add button's condition `price > 0` holds exactly when the chosen modifier (or, with none chosen, the item) has a positive price |
| `Accordion.Toggle` | src/App.js:15-17 | clicking topic x leaves x expanded exactly when x was not the expanded topic, and otherwise nothing expanded |
| `Accordion.ToggleTwice` | src/App.js:15-17 | two clicks on x restore the state from "none" or from "x expanded"; from another open topic they end with none expanded |
| `Accordion.AtMostOneExpanded` | src/App.js:136 | any two panels rendered as expanded have the same topic id |
| `Accordion.LastClickedOrNone` | src/App.js:15-17 | after any non-empty click sequence the expanded topic is the last one clicked or none |
| `Accordion.RepeatedClicks` | src/App.js:15-17 | n clicks on one topic from the collapsed state leave it expanded exactly when n is odd |
| `Quantity.FlooredDecrement` | src/App.js:33-37 | "-" subtracts 1 exactly when the quantity exceeds 1, is a no-op otherwise, and keeps a quantity ≥ 1 at ≥ 1 |
| `Quantity.DecrementTimesFloor` | src/App.js:33-37 | n presses of "-" from q ≥ 1 give max(1, q − n), never less than 1 |
| `Cart.SumFromIsSum` | src/App.js:73 | the left-to-right accumulating fold equals its start value plus the sum of price × quantity over the lines |
| `Cart.Subtotal` | src/App.js:72-74 | the subtotal (fold from 0) is the sum of price × quantity over all lines, and 0 for an empty cart |
| `Cart.SubtotalAppend` | src/App.js:47-56 | appending a line raises the subtotal by exactly that line's price × quantity |
| `Cart.SubtotalUpdate` | src/App.js:58-70 | replacing one line changes the subtotal by the difference of the old and new line totals only |
| `Cart.SubtotalSign` | src/App.js:72-74 | with prices ≥ 0 and quantities ≥ 1 the subtotal is ≥ 0, and > 0 once some line has a positive price |
| `Cart.SubtotalExample` | src/App.js:72-74 | lines (5 × 2) and (3 × 1) give a subtotal of 13 |
| `App.Storefront.constructor` | src/App.js:7-13 | initial state: nothing expanded, empty catalog and banner, no item open, quantity 1, no modifier, empty cart |
| `App.Storefront.HandleTopicClick` | src/App.js:15-17 | the expanded slot becomes the toggle of its old value; no other slot changes |
| `App.Storefront.HandleItemClick` | src/App.js:19-23 | opening an item selects it, resets quantity to 1 and the modifier to none whatever the earlier draft, and leaves the cart unchanged |
| `App.Storefront.HandleCloseModal` | src/App.js:25-27 | closing clears the selected item only; cart, quantity and modifier are untouched |
| `App.Storefront.HandleIncreaseQuantity` | src/App.js:29-31 | the draft quantity grows by exactly 1 and nothing else changes |
| `App.Storefront.HandleDecreaseQuantity` | src/App.js:33-37 | the draft quantity drops by 1 only when above 1, stays 1 at 1, and stays ≥ 1 |
| `App.Storefront.HandleModifierChange` | src/App.js:39-41 | the single modifier slot is overwritten by the chosen modifier, whatever group it belongs to |
| `App.Storefront.GetItemPrice` | src/App.js:43-45 | the open draft's unit price is its effective price, the chosen modifier's price when there is one |
| `App.Storefront.HandleAddToCart` | src/App.js:47-56 | the cart grows by exactly one line, and the earlier lines are unchanged. The new last line carries the item's fields, the draft quantity, the effective price and the modifier. The subtotal grows by price × quantity, and the modal is closed |
| `App.Storefront.PressAddOrder` | src/App.js:225 | the gated button adds a line exactly when an item is open with positive effective price; otherwise cart and selection are unchanged |
| `App.Storefront.HandleCartItemIncrease` | src/App.js:58-62 | a valid index gets exactly that line's quantity + 1, the length and other lines are unchanged, and the subtotal rises by that line's price. An invalid index fails and changes nothing |
| `App.Storefront.HandleCartItemDecrease` | src/App.js:64-70 | a valid index gets that line's quantity − 1, floored at 1. The line is never removed and other lines are unchanged. An invalid index fails and changes nothing |
| `App.Storefront.CalculateSubtotal` | src/App.js:72-74 | the displayed subtotal and total are the sum of price × quantity over the cart, 0 when empty |
| `App.Storefront.LoadMenu` | src/App.js:76-90 | a successful menu fetch replaces the sections wholesale; a failed one leaves them unchanged |
| `App.Storefront.LoadBanner` | src/App.js:92-106 | a successful venue fetch replaces the banner image; a failed one leaves it unchanged |
| `App.OrderScenario` | src/App.js:19-56 | opening an item priced 8, pressing "+" twice and adding gives one line of quantity 3 at price 8 and a subtotal of 24 |

## Left out

- Network I/O: the two `fetch` effects, their promise chains and their
  concurrency. Only their effect on state is modelled: replace on success,
  keep on failure (`LoadMenu`, `LoadBanner`). The JSON payload's shape
  (`sections`, `webSettings.bannerImage`) is taken as already parsed.
- `console.error` logging: it changes no state.
- All rendering: MUI components, CSS, icons and the header. The search input
  is not wired to any state.
- JavaScript number semantics: prices and quantities are exact integers, so
  there is no floating-point rounding of `price * quantity`.
- React's asynchronous setter batching and stale closures: each handler is one
  atomic update.
- `imageTopo` starts as an empty array in the component and later holds a URL
  string. It is modelled as a string that starts empty.
- App.Storefront.GetItemPrice: requires an open item. The component only calls
  it inside the modal; with no item open and no modifier chosen it would throw.
- App.Storefront.HandleAddToCart: requires an open item, because the handler
  can only be reached from inside the modal. With no item open the component
  would build a line without item fields from a leftover modifier, or throw.
- Line updates: the component copies the cart array and mutates the chosen
  line object in place. Cart lines are never shared between positions, so the
  model replaces the line by value and does not model object identity.
