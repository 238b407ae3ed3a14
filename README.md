# Shopping cart of the flight-controller shop, modelled in Dafny

This project models the shopping cart of the shop, on both sides.

The client side has four parts:

- the cart store kept in the browser (`useCart`);
- the cart panel with its quantity buttons and checkout button;
- the add-to-cart control;
- the product carousel that picks the variant the control adds.

The server side has two parts:

- the Django cart tables (`Cart`, `CartItem`, `Order`, `OrderItem`);
- the cart endpoints (`get_cart`, `add_item`, `update_item`, `remove_item`, `clear`, `current`, `create_payment_intent`, `checkout`).

Files, one module each:

| file | module | models |
|---|---|---|
| common.dfy | `Common` | `Option`, and JavaScript/Python truthiness of an optional string |
| product_ids.dfy | `ProductIds` | the store's product-id normalisation, decimal printing of ids, and the server's reading of digit strings |
| cart_items.dfy | `CartItems` | the client's cart lines, the local add/remove/update updates, the totals, and the translation of the server's cart reply |
| cart_store.dfy | `CartStore` | the store as a class: its state, each action, the request each action issues, and the handling of replies |
| cart_panel.dfy | `CartPanel` | the panel's quantity buttons: a quantity below 1 becomes a removal. Also the checkout button's loading and error state |
| add_to_cart.dfy | `AddToCart` | the quantity counter and the line it adds |
| carousel.dfy | `Carousel` | the variant table, the wrap-around index, and the animation lock |
| server_models.dfy | `ServerModels` | table rows, the `unique_together` constraint, and the `total_items`/`total_price` properties |
| cart_views.dfy | `CartViews` | row lookups and updates with their laws, and the endpoints as methods of a `Backend` class holding the tables |

All prices are integer cents. The server's prices are decimals with two places, so `int(price * 100)` is exact. The client's prices are plain numbers of euros (`price: 250` in the carousel's variant table); the model scales them by 100 to cents (25000).

A network call is the request value an action returns (`Option<Request>`). Its reply is a separate method: `FinishMirror`, `FinishSync` or `FinishCheckout`. The random id `uuid.uuid4()` becomes a `freshId` parameter that is not yet a cart id.

The `CartItem` table is a sequence of rows in primary-key order. The constraint `unique_together = ('cart', 'product')` is then an invariant that every endpoint is proved to keep (`Backend.Valid`). So is every row naming an existing product and cart.

On the client, the store's invariant (`Store.Valid`) is that no two lines share an id. Every action keeps it. `FinishSync` keeps it when the reply names each product once (`SyncedCart` shows the server's replies do) or the snapshot has unique ids. The panel's buttons rely on it.

Three behaviours of the code that a reader of its comments and names might not expect; the model follows the code:

- `updateItemQuantity(id, 0)` in the store keeps the line, at quantity 0. Only the cart panel turns a quantity below 1 into `removeItem` (`CartPanel.ZeroQuantityExample`).
- The panel's checkout request does not look at `DISABLE_BACKEND`: it is sent even when the backend is disabled.
- `get_cart` runs before any validation. So `add_item`, `update_item`, `remove_item`, `checkout` and `create_payment_intent` create a cart even when they answer 400, 404 or 500.

## Model

| member | source | states |
|---|---|---|
| ProductIds.NormalizeId | src/hooks/useCart.ts:203-217 | the id sent is all digits. `NormalizeIdSpec` characterises all three outcomes |
| ProductIds.LeadingDigits | src/hooks/useCart.ts:210-212 | the match of `/^(\d+)/`: a prefix of the id, all digits, and not followed by a digit |
| ProductIds.NormalizeIdSpec | src/hooks/useCart.ts:203-217 | an id is accepted exactly when it starts with a digit. The id sent is all digits and is the id's leading run of digits. An all-digit id is sent unchanged |
| ProductIds.NormalizeIdIdempotent | src/hooks/useCart.ts:203-217 | normalising an id that was sent sends it unchanged |
| ProductIds.NormalizeIdExamples | src/hooks/useCart.ts:206-216 | "1-blackCherry" is sent as "1", "42" as "42"; "abc" and "" are rejected |
| ProductIds.NatToString | src/hooks/useCart.ts:153 | `id.toString()` of a non-negative integer is all digits, one digit exactly below 10, and ends in the last decimal digit |
| ProductIds.NatToStringInjective | src/hooks/useCart.ts:153 | different product ids print as different strings |
| ProductIds.DigitsValueNatToString | backend/api/views.py:270 | the server reads a printed id back as the same number |
| CartItems.FindIndex | src/hooks/useCart.ts:184 | `findIndex`: the first line with the id, and none exactly when no line has it |
| CartItems.Added | src/hooks/useCart.ts:183-195 | the cart grows by one line exactly when the id is new, and afterwards some line has the id. `AddedNew` and `AddedExisting` state each case in full |
| CartItems.AddedNew | src/hooks/useCart.ts:192-195 | adding an id not in the cart appends the item at the end |
| CartItems.AddedExisting | src/hooks/useCart.ts:187-191 | adding an id already present keeps the length, grows only the first matching line by the added quantity, and leaves every other line unchanged |
| CartItems.AddedKeepsUnique | src/hooks/useCart.ts:183-195 | adding keeps ids unique |
| CartItems.AddedKeepsPositive | src/hooks/useCart.ts:183-195 | adding a quantity of at least 1 keeps every quantity at least 1 |
| CartItems.Removed | src/hooks/useCart.ts:260-262 | after `filter` no line has the id, and the list is no longer |
| CartItems.RemovedAbsent | src/hooks/useCart.ts:260-262 | removing an absent id changes nothing |
| CartItems.RemovedPresent | src/hooks/useCart.ts:260-262 | with unique ids, removing a present id deletes exactly that line and keeps the order of the rest |
| CartItems.RemovedKeeps | src/hooks/useCart.ts:260-262 | removing keeps ids unique and quantities positive |
| CartItems.Updated | src/hooks/useCart.ts:309-313 | the `map` keeps the length and every line's id. `UpdatedSpec` states the quantities |
| CartItems.UpdatedSpec | src/hooks/useCart.ts:309-313 | updating keeps the length, sets the quantity of every line with the id, and leaves the other lines unchanged. An absent id changes nothing |
| CartItems.UpdatedKeeps | src/hooks/useCart.ts:309-313 | updating keeps ids unique, and keeps quantities positive when the new quantity is at least 1 |
| CartItems.SumsAppend | src/hooks/useCart.ts:382-388 | both totals add up over concatenation |
| CartItems.TotalsAfterAdd | src/hooks/useCart.ts:183-195 | after adding, the item total grows by the added quantity. The price total grows by the added quantity times the line's price: the item's price for a new line, the existing line's price for a merge |
| CartItems.TotalsAfterRemove | src/hooks/useCart.ts:260-262 | with unique ids, removal lowers both totals by the removed line's share, and removing an absent id keeps them |
| CartItems.TotalsAfterUpdate | src/hooks/useCart.ts:309-313 | with unique ids, updating a line swaps its old quantity for the new one in the item total, and likewise in the price total |
| CartItems.TotalItemsAtLeastLines | src/hooks/useCart.ts:382-384 | when every quantity is at least 1, the item total is at least the number of lines |
| CartItems.Translate | src/hooks/useCart.ts:152-158 | a line read from the server's reply has an id that normalisation sends unchanged |
| CartItems.TranslateAllUnique | src/hooks/useCart.ts:152-158 | a reply listing distinct products becomes lines with distinct ids |
| CartItems.TranslateSums | src/hooks/useCart.ts:152-158 | the lines read from a reply have the reply's total quantity |
| CartStore.MirrorOf | src/hooks/useCart.ts:198-217 | no request when the backend is disabled or the id has no numeric form; otherwise the request carries the normalised id |
| CartStore.Store.constructor | src/hooks/useCart.ts:92-95 | the store starts empty, closed, not loading and without a cart id, and its invariant holds |
| CartStore.Store.SetCartId | src/hooks/useCart.ts:97-102 | sets the cart id and nothing else |
| CartStore.Store.OpenCart | src/hooks/useCart.ts:104 | opens the panel and changes nothing else |
| CartStore.Store.CloseCart | src/hooks/useCart.ts:105 | closes the panel and changes nothing else |
| CartStore.Store.ToggleCart | src/hooks/useCart.ts:106 | flips the panel and changes nothing else |
| CartStore.Store.AddItem | src/hooks/useCart.ts:182-230 | the items become the local merge of the item. The request is `add_item` with the normalised id and the quantity, or none. The ids stay unique (`Store.Valid`) |
| CartStore.Store.RemoveItem | src/hooks/useCart.ts:258-294 | the items lose every line with the id. The request is `remove_item`, or none. The ids stay unique (`Store.Valid`) |
| CartStore.Store.UpdateItemQuantity | src/hooks/useCart.ts:307-346 | every line with the id takes the quantity, even 0 or negative. The request is `update_item`, or none. The ids stay unique (`Store.Valid`) |
| CartStore.Store.ClearCart | src/hooks/useCart.ts:359-372 | the items become empty; `clear` is requested unless the backend is disabled. The ids stay unique (`Store.Valid`) |
| CartStore.Store.FinishMirror | src/hooks/useCart.ts:232-252 | a resync follows exactly a successful add, remove or update. An add's reply supplies the cart id only when the store has none and the reply's id is truthy |
| CartStore.Store.BeginSync | src/hooks/useCart.ts:108-126 | when disabled, nothing changes and nothing is requested. Otherwise loading starts, the cookie's id is taken only when the store has none, and the current cart is requested |
| CartStore.Store.FinishSync | src/hooks/useCart.ts:128-179 | loading always ends. A parsed reply replaces the cart id when the reply's id is truthy, and replaces the items by the translated lines when it has a list. A failure restores the saved items if there are any. The ids stay unique whenever the reply names each product once or the snapshot has unique ids |
| CartStore.Store.TotalItems | src/hooks/useCart.ts:382-384 | 0 for an empty cart, and at least the number of lines when every quantity is positive |
| CartStore.Store.TotalPrice | src/hooks/useCart.ts:386-388 | 0 for an empty cart |
| CartStore.DisabledSession | src/hooks/useCart.ts:182-230 | with the backend disabled no request is sent; adding one Raptor Grip and then two more gives one line of 3 items and a price of 75000 cents |
| CartStore.DisabledRemoval | src/hooks/useCart.ts:258-357 | with the backend disabled, setting the quantity to 0 and then removing the line empties the cart, and neither a request nor a sync starts |
| CartPanel.DispatchedKeeps | src/components/Cart.tsx:72-78 | through the panel, quantities stay at least 1 and ids stay unique |
| CartPanel.DecreaseSpec | src/components/Cart.tsx:72-78 | minus on a line at quantity 1 deletes exactly that line; above 1 it lowers only that line by one |
| CartPanel.IncreaseSpec | src/components/Cart.tsx:72-78 | plus raises only that line by one, and the item total by one |
| CartPanel.ZeroQuantityExample | src/components/Cart.tsx:72-78 | setting quantity 0 at the panel empties a one-line cart, where the store's update alone keeps the line at 0 |
| CartPanel.Panel.HandleQuantityChange | src/components/Cart.tsx:72-78 | below 1 the line is removed and `remove_item` is requested; otherwise the quantity is set and `update_item` is requested |
| CartPanel.Panel.DecreasePressed | src/components/Cart.tsx:214 | the minus button is `HandleQuantityChange` with one less. On a line of the store, whose ids are unique, a line at quantity 1 is deleted with the rest in order, and otherwise only that line drops by one |
| CartPanel.Panel.IncreasePressed | src/components/Cart.tsx:222 | the plus button is `HandleQuantityChange` with one more. On a line of the store only that line rises by one, and so does the item total |
| CartPanel.Panel.BeginCheckout | src/components/Cart.tsx:80-98 | a request is sent exactly for a non-empty cart. Then loading starts and the error is cleared; otherwise nothing changes |
| CartPanel.Panel.CheckoutPressed | src/components/Cart.tsx:251-253 | the button does nothing while a checkout is loading. Otherwise it starts the checkout, so a request is sent exactly when not loading and the cart is not empty |
| CartPanel.CheckoutError | src/components/Cart.tsx:109-133 | every failure except a network error has a non-empty message |
| CartPanel.Panel.FinishCheckout | src/components/Cart.tsx:100-136 | loading ends. The browser is sent to the returned URL exactly when the body parsed and has a truthy URL; otherwise the message for that failure is shown |
| AddToCart.Control.constructor | src/components/AddToCart.tsx:20-21 | the counter starts at 1 and nothing is marked as added |
| AddToCart.Control.Decrease | src/components/AddToCart.tsx:57 | minus lowers the counter by one but never below 1 |
| AddToCart.Control.Rerender | src/slices/Carousel/index.tsx:279-285 | new props replace the old ones, and the counter and the "added" flag are kept |
| AddToCart.Control.Increase | src/components/AddToCart.tsx:65 | plus raises the counter by one |
| AddToCart.Control.Line | src/components/AddToCart.tsx:31-39 | the added line carries the control's id, name, price, variant and model type and the counter's quantity. Its image is the given one when truthy, else the logo under the base path |
| AddToCart.Control.HandleAddToCart | src/components/AddToCart.tsx:28-41 | the store's items become the merge of that line, whose quantity is at least 1. The request is the store's `add_item` for the counter's quantity |
| AddToCart.Control.AddPressed | src/components/AddToCart.tsx:72-74 | the button does nothing while the line is flagged as added. Otherwise it merges the line into the store and sends the `add_item` request |
| AddToCart.Control.TimerFired | src/components/AddToCart.tsx:42-45 | the added mark is cleared and the cart panel opens |
| Carousel.TargetIndex | src/slices/Carousel/index.tsx:80 | the target index is always a valid slide |
| Carousel.TargetIndexWraps | src/slices/Carousel/index.tsx:80 | an index in range is kept, one past the last wraps to the first, and -1 wraps to the last |
| Carousel.ProductIdOf | src/slices/Carousel/index.tsx:280 | every variant's id is sent to the server unchanged |
| Carousel.ProductIdsDistinct | src/slices/Carousel/index.tsx:25-52 | the three variants carry distinct ids |
| Carousel.Slider.constructor | src/slices/Carousel/index.tsx:60-61 | the first variant is shown and nothing is animating |
| Carousel.Slider.ChangeProduct | src/slices/Carousel/index.tsx:77-92 | ignored while animating or when the target is the current index; otherwise the lock is taken and the switch to the target is queued |
| Carousel.Slider.PreviousPressed | src/slices/Carousel/index.tsx:200 | "Previous" queues the next index, wrapping from the last to the first |
| Carousel.Slider.NextPressed | src/slices/Carousel/index.tsx:260 | "Next" queues the previous index, wrapping from the first to the last |
| Carousel.Slider.TimelineMidpoint | src/slices/Carousel/index.tsx:145 | the queued index becomes current |
| Carousel.Slider.TimelineComplete | src/slices/Carousel/index.tsx:90-92 | the lock is released |
| Carousel.Slider.SelectedProductId | src/slices/Carousel/index.tsx:280 | the shown variant's id is sent unchanged |
| Carousel.Slider.RenderAddToCart | src/slices/Carousel/index.tsx:279-285 | the control takes the current variant's id, name, price, variant name and model type, with no image, and keeps its counter and flag |
| Carousel.NextFromFirstWraps | src/slices/Carousel/index.tsx:77-92 | "Next" from the first variant lands on the last. A second "Previous" pressed during an animation is ignored, so one step returns to the first |
| Carousel.CounterSurvivesSwitch | src/slices/Carousel/index.tsx:279-285 | after picking 3 of the first variant and pressing "Next", the add button adds 3 of the last variant |
| ServerModels.CartRows | backend/api/models.py:118-124 | a cart's rows are table rows of that cart |
| ServerModels.CartRowsDistinctProducts | backend/api/models.py:142-143 | with `unique_together`, the rows of one cart name distinct products |
| ServerModels.CartRowsAppend | backend/api/models.py:118-124 | a cart's rows of two row sequences joined are the joined rows |
| ServerModels.UniqueTogether | backend/api/models.py:142-143 | no two rows share a cart and a product. Every endpoint keeps it (`Backend.Valid`), and `CartRowsDistinctProducts` derives one row per product in a cart |
| ServerModels.TotalItems | backend/api/models.py:118-120 | 0 for a cart with no rows. `PutRowSpec` and `DeleteRowSpec` state how saving and deleting a row move it, and `SyncedCart` that the client's item total equals it |
| ServerModels.LineTotal | backend/api/models.py:138-140 | the product's current price times the quantity: 0 for quantity 0, and never negative for a non-negative price |
| ServerModels.TotalPrice | backend/api/models.py:122-124 | 0 for a cart with no rows. `Backend.CartTotalCents` and `CheckoutTotals` prove the payment amount and the order total equal to it |
| ServerModels.OrderItemTotal | backend/api/models.py:101-103 | the stored purchase price times the quantity: 0 for quantity 0, and never negative for a non-negative price |
| ServerModels.StatusChoicesSpec | backend/api/models.py:66-78 | the default status "pending" is one of the five choices, and "paid" is not one of them |
| ServerModels.AddressCompleteSpec | backend/api/models.py:46-51 | an address can be stored exactly when it names all five NOT NULL columns. A payload with only a `notes` key cannot |
| CartViews.FindRow | backend/api/views.py:328 | the row `CartItem.objects.get` finds: the first row of the pair, and none exactly when no row has the pair |
| CartViews.PutRowSpec | backend/api/views.py:278-289 | saving a row gives the pair exactly that quantity and keeps pairs unique. The cart's `total_items` moves from the old quantity to the new one, and no other cart's rows change |
| CartViews.PutRowOther | backend/api/views.py:278-289 | saving a row leaves every other pair's quantity unchanged |
| CartViews.DeleteRowSpec | backend/api/views.py:336-340 | deleting a row removes the pair and keeps pairs unique. The cart's `total_items` drops by exactly the row's quantity, and no other cart's rows change |
| CartViews.DeleteRowOther | backend/api/views.py:365-374 | deleting a row leaves every other pair's quantity unchanged |
| CartViews.DeleteCartSpec | backend/api/views.py:389 | clearing leaves the cart with no rows and every other cart with exactly its rows |
| CartViews.DeleteCartKeeps | backend/api/views.py:389 | clearing keeps pairs unique and foreign keys valid |
| CartViews.ReadId | backend/api/views.py:260-275 | `product_id` counts as missing exactly when it is falsy |
| CartViews.ReadSentId | backend/api/views.py:270 | the server reads the id the store sends as that product's number |
| CartViews.ReadNormalizedId | backend/api/views.py:270 | every id the store's normalisation lets through reads as a number, so the lookup does not raise |
| CartViews.Serialized | backend/api/serializers.py:44-62 | the reply lists each row's product and quantity, in row order |
| CartViews.OrderLinesOf | backend/api/views.py:639-647 | one order item per cart row, with the same product and quantity and the product's price at that moment |
| CartViews.OrderLinesTotal | backend/api/views.py:639-650 | the order items' totals add up to the cart's line totals |
| CartViews.SerializedSum | backend/api/serializers.py:44-77 | the reply's quantities add up to the rows' quantities |
| CartViews.SyncedCart | backend/api/views.py:220-238 | the client reads a cart of unique pairs as lines with unique ids, whose item total is the server's `total_items` |
| CartViews.CheckoutTotals | backend/api/views.py:638-654 | the order's items add up to the cart's `total_price`. Afterwards the cart has no rows and every other cart is unchanged |
| CartViews.Backend.constructor | backend/api/models.py:106-143 | empty tables over a product catalogue satisfy the invariant |
| CartViews.Backend.GetCart | backend/api/views.py:167-198 | a truthy cookie naming an existing cart gives that cart with created false. Otherwise a new cart under the fresh id with created true. The invariant is kept |
| CartViews.Backend.AddItem | backend/api/views.py:252-306 | 400 for a missing id; 500 for an id that is not a number; 404 for an absent or inactive product; 500 when the new quantity would be negative. In all four the rows are unchanged. Otherwise 200, and the pair's quantity becomes the old quantity (or 0) plus the given one (default 1). The invariant is kept, so there is at most one row per pair |
| CartViews.Backend.UpdateItem | backend/api/views.py:308-347 | 400 for a missing id or quantity; 500 for a non-numeric id; 404 when the row is absent. Otherwise 200: a positive quantity is set exactly, anything else deletes the row |
| CartViews.Backend.RemoveItem | backend/api/views.py:349-381 | 400, 500 or 404 as for update, with the rows unchanged; otherwise 200 and only that row is deleted |
| CartViews.Backend.Clear | backend/api/views.py:383-396 | 200, and every row of this cart is deleted |
| CartViews.Backend.Current | backend/api/views.py:220-238 | the reply is the cart's rows, after `get_cart` |
| CartViews.Backend.CartTotalCents | backend/api/views.py:413-419 | the payment amount loop computes the cart's `total_price` in cents |
| CartViews.Backend.BuildOrderLines | backend/api/views.py:638-651 | the checkout loop builds one order item per cart row. Its running total is both the items' totals and the cart's `total_price` |
| CartViews.Backend.CreatePaymentIntent | backend/api/views.py:398-422 | 400 for an empty cart; otherwise the amount is the cart's `total_price`, with 400 when it is not positive and 200 when it is |
| CartViews.Backend.Checkout | backend/api/views.py:577-654 | 400 for an empty cart or a falsy email or address, with nothing changed. 500 for an address missing one of the five required fields, with no order and the rows unchanged. Otherwise 200: one new "pending" order holding the cart's rows at their current prices, their total and the request's `notes` ("" when absent), and the cart emptied |

## Left out

- Stripe: the PaymentIntent and Checkout Session calls, the webhook and its `'paid'` status writes, and the checkout-success page are not modelled. `CreatePaymentIntent` stops at the amount.
- `Customer` and `Address` rows in `checkout`, and re-assigning the cart's customer, are left out. The order keeps only the email.
- Row order: `CartItem` has no `Meta.ordering` and the reply's `items` queryset has no `order_by`, so the source leaves the order of a cart's rows, and of the client's lines after a sync, unspecified. The model fixes primary-key (insertion) order. No proved property depends on it.
- CartStore.Store.FinishSync: the source sets the cart id before it maps `data.items`, so a reply whose items throw in that map (a line without `product`) keeps the new cart id and then takes the snapshot or keeps the items. `FetchOutcome` cannot express that mixed case; the server modelled here never sends such a reply.
- An order's uuid primary key, its `order_date` timestamp from the clock, and the newest-first ordering by that date are not modelled. `orders` is a sequence in creation order. A `notes` value sent as JSON `null` is stored as NULL in the source; the model's `notes` is an optional string, and an absent one is stored as "".
- Cookies are not modelled: neither the `cart_id` cookie nor zustand's `persist` storage, which writes the store to the `freedom-puff-cart` cookie through `cookieStorage`. The sync fallback's read of that cookie is `FinishSync`'s `snapshot` parameter. The browser/server split (`isClient`) and log output are not modelled either.
- Concurrency is not modelled: overlapping requests, the un-awaited `syncWithBackend` after a mutation, and the animation timeline's timing. Each action runs to completion.
- `dispatch`'s OPTIONS handling, debug prints, `set_cart_cookie`, and the fallback reply `current` gives on an internal exception are not modelled.
- Floating point is left out: prices are integer cents, and the client's `price` numbers and `toFixed` display are not modelled.
- CartItems.Added: JavaScript raises the existing line's quantity by mutating that line object in place, which aliases the persisted state. The model treats lines as values.
- CartViews.Backend.AddItem: a `quantity` that `int()` cannot read raises (500) before the id is checked. The model takes the quantity as an optional integer.
- CartViews.Backend.UpdateItem: likewise, a `quantity` that `int()` cannot read raises (500) before the row lookup. The model takes the quantity as an optional integer.
- CartViews.Backend.Checkout: a shipping address that is not an object, or a required field sent as `null`, also raises (500) in the source. The model's address is a map of strings, so only a missing field gives the 500.
- CartViews.ReadId: Python's `int` also accepts signs, surrounding spaces and underscores. The model reads only plain digit strings, and treats any other text as an id that raises.
- CartViews.Backend.AddItem: the 32-bit upper bound of the quantity column is not modelled.
- The graphics are not modelled: the 3D models, the rest of `Carousel`'s rendering, and the header's cart icon.
