# Cart panels: a Dafny model

A model of the client-side state logic of the two Lightning Web Components of
a Salesforce shopping-cart app, taken out of their platform wiring:

- the **catalog panel** (`ProductSelector`, module `CatalogPanel`): a table of
  product rows with editable quantities, the selection derived from it, the
  add-to-cart request re-synced against the table, and the reset to quantity 1
  when a `submitted` message arrives;
- the **cart panel** (`ShoppingCart`, module `CartPanel`): the cached cart of
  one account, its refresh when a message about that account arrives (retried
  on a timer until the wire has delivered its refresh handle), line-item
  removal and order submission, which publishes `{accountId, status: 'submitted'}`.

Both panels are classes whose methods assign their fields as the components
do. Server calls (`addProductsToCart`, `removeLineItem`, `submitOrder`,
`refreshApex`) are outcome parameters: resolved with a value, or rejected with
an error whose `body` and `message` may be missing. Toasts, published messages
and remote calls are append-only logs on each object, so "no call made",
"warning shown" and "published `{accountId}`" are stated directly. The
`setTimeout` retry is a count of pending timers, which `Tick` fires one at a
time. Delivery on the message channel is a direct call of the receiving
handler (`ProductSelector.HandleCartMessage`, `ShoppingCart.OnMessage`); module
`Protocol` wires the two panels together for two scenarios.

The pure parts are functions with lemmas: `ApplyEdits` (the draft values
applied in order) with `ApplyEditsAt` (what happens to each row) and
`ApplyEditsIdempotent`; `SelectionOf` and `Payload`, with `PayloadIsFresh`
(re-syncing at add time gives the quantities the rows have after any later
edits); `ResetQuantities` with `ResetForgetsEdits`.

Files: `common.dfy` (shared values), `catalog_panel.dfy`, `cart_panel.dfy`,
`protocol.dfy`.

JavaScript truthiness is modelled where it decides a branch: the submission
guard rejects an empty `opportunityId` as well as a missing one; the cart
panel's `error.body?.message || 'Unknown error'` turns an empty message into
'Unknown error'; the catalog panel reads `error.body.message` without `?.`, so
a rejection without a body throws inside `.catch` and shows no toast.

Behaviours of the code the model keeps:

- after a successful add, the catalog panel publishes `{accountId}`, the
  message that makes the cart panel refresh;
- after a successful removal, the cart panel calls `refreshApex` directly on
  whatever handle it holds, without the retry loop, and a rejection of that
  refresh shows an error toast after the success toast;
- nothing keeps selection entries naming existing rows, and neither panel
  has a teardown or unsubscribe;
- the catalog panel's handler resets on any `submitted` message, whatever its
  `accountId`; only the cart panel filters by account;
- the cart panel's own handler also accepts its `submitted` message, since
  the account matches, so a refresh follows a submission.

The payload lookup `r.id === sel.productId || r.id === sel.id` is modelled as a
lookup by `sel.productId`: selection entries are only ever built by
`handleRowSelection` as `{productId, quantity}`, so `sel.id` is always
`undefined` and never equals a row's id.

## Model

| member | source | states |
|---|---|---|
| CatalogPanel.RowsOf | force-app/main/default/lwc/productSelector/productSelector.js:66-72 | one row per loaded product, in order, with `id` and `productId` the product's id, name and price copied, quantity 1 |
| CatalogPanel.FindIndex | force-app/main/default/lwc/productSelector/productSelector.js:84 | the index found is of a row with that id and no earlier row has it; no index means no row has it |
| CatalogPanel.FindIndexSameRows | force-app/main/default/lwc/productSelector/productSelector.js:84 | tables whose rows differ only in quantity find the same row for every id, so edits never change which row an id names |
| CatalogPanel.ApplyEdit | force-app/main/default/lwc/productSelector/productSelector.js:84-87 | one draft value keeps the rows, their order and all but the quantities; with no matching row the table is unchanged |
| CatalogPanel.ApplyEdits | force-app/main/default/lwc/productSelector/productSelector.js:83-88 | applying the draft values in order keeps row count, order and every field but quantity |
| CatalogPanel.ApplyEditsAt | force-app/main/default/lwc/productSelector/productSelector.js:83-88 | row k ends with the quantity of the last draft value naming its id if it is the first row with that id, and is otherwise unchanged: unmatched edits are ignored, later edits win |
| CatalogPanel.UnnamedRowsKeepQuantity | force-app/main/default/lwc/productSelector/productSelector.js:83-88 | a row that no draft value names keeps its quantity |
| CatalogPanel.ApplyEditsIdempotent | force-app/main/default/lwc/productSelector/productSelector.js:80-91 | applying the same draft values twice gives the same table as applying them once |
| CatalogPanel.SyncRows | force-app/main/default/lwc/productSelector/productSelector.js:98-103 | the incoming rows, in order, each with the quantity of the first table row with its id, and its own quantity when no table row has it |
| CatalogPanel.SelectionOf | force-app/main/default/lwc/productSelector/productSelector.js:94-109 | one entry per incoming row, in order, with product id `productId ?? id` and the current quantity of the table row with that id (the row's own quantity if none) |
| CatalogPanel.Payload | force-app/main/default/lwc/productSelector/productSelector.js:120-126 | one line per selection entry, in order, same product id, quantity the current quantity of the table row with that id, else the stored one |
| CatalogPanel.PayloadIsFresh | force-app/main/default/lwc/productSelector/productSelector.js:119-126 | after edits made between selection and add, the payload equals the selection the rows would get after those edits: no stale quantity is sent |
| CatalogPanel.ResetQuantities | force-app/main/default/lwc/productSelector/productSelector.js:58 | the reset keeps row count, order and every other field and sets every quantity to 1 |
| CatalogPanel.ResetForgetsEdits | force-app/main/default/lwc/productSelector/productSelector.js:45-60 | the reset reaches the same table whatever edits came before it |
| CatalogPanel.ProductSelector.constructor | force-app/main/default/lwc/productSelector/productSelector.js:10-16 | empty table, drafts and selection, no subscription, empty logs |
| CatalogPanel.ProductSelector.ConnectedCallback | force-app/main/default/lwc/productSelector/productSelector.js:34-42 | afterwards subscribed, with exactly one `subscribe` call made however often it runs |
| CatalogPanel.ProductSelector.HandleCartMessage | force-app/main/default/lwc/productSelector/productSelector.js:45-60 | a `submitted` message empties the selection and resets the table; any other message changes nothing |
| CatalogPanel.ProductSelector.WiredProducts | force-app/main/default/lwc/productSelector/productSelector.js:64-77 | with data the table becomes `RowsOf(data)`; without it (error or not) the table is unchanged |
| CatalogPanel.ProductSelector.HandleCellChange | force-app/main/default/lwc/productSelector/productSelector.js:80-91 | the table becomes `ApplyEdits(old table, updates)` and the drafts are emptied; nothing else changes |
| CatalogPanel.ProductSelector.HandleRowSelection | force-app/main/default/lwc/productSelector/productSelector.js:94-109 | the incoming rows come back synced with the table, the selection becomes `SelectionOf(table, rows)`, and the table is not modified |
| CatalogPanel.ProductSelector.HandleAddToCart | force-app/main/default/lwc/productSelector/productSelector.js:112-151 | empty selection: one warning toast, no call, no publish; otherwise one call with `Payload`; success: success toast, `{accountId}` published once, selection emptied; failure: error toast with the server message (none without a body), selection and table kept |
| CartPanel.ItemsOrEmpty | force-app/main/default/lwc/shoppingCart/shoppingCart.js:32 | a snapshot's items, or no items when it has none |
| CartPanel.ErrorText | force-app/main/default/lwc/shoppingCart/shoppingCart.js:80 | never empty; the server message when it is a non-empty string, otherwise 'Unknown error' |
| CartPanel.ShoppingCart.constructor | force-app/main/default/lwc/shoppingCart/shoppingCart.js:14-20 | no cart, no items, no refresh handle, no subscription, no timers, empty logs |
| CartPanel.ShoppingCart.WiredCart | force-app/main/default/lwc/shoppingCart/shoppingCart.js:27-34 | the result is always kept as the refresh handle; cart and items are replaced only when the result has data, items then being `data.items` or none |
| CartPanel.ShoppingCart.ConnectedCallback | force-app/main/default/lwc/shoppingCart/shoppingCart.js:36-38 | afterwards subscribed, with exactly one `subscribe` call made |
| CartPanel.ShoppingCart.SubscribeToMessageChannel | force-app/main/default/lwc/shoppingCart/shoppingCart.js:40-52 | a no-op when a subscription exists; so at most one `subscribe` call is ever made |
| CartPanel.ShoppingCart.OnMessage | force-app/main/default/lwc/shoppingCart/shoppingCart.js:46-50 | a message for another account changes nothing; one for this account runs the refresh |
| CartPanel.ShoppingCart.RefreshCart | force-app/main/default/lwc/shoppingCart/shoppingCart.js:55-64 | without a handle: one retry timer set and no call; with one: exactly one `refreshApex` call and no timer; cache and toasts untouched either way |
| CartPanel.ShoppingCart.Tick | force-app/main/default/lwc/shoppingCart/shoppingCart.js:57 | a pending timer fires and reruns the refresh: it re-arms while there is no handle and calls `refreshApex` once when there is; with no timer nothing happens |
| CartPanel.ShoppingCart.HandleRemove | force-app/main/default/lwc/shoppingCart/shoppingCart.js:67-82 | success: cart becomes the returned snapshot, items its items (none for no snapshot), a success toast, a direct `refreshApex` call, and an error toast if that rejects; failure: cart and items kept, error toast with the message or 'Unknown error' |
| CartPanel.ShoppingCart.HandleSubmitOrder | force-app/main/default/lwc/shoppingCart/shoppingCart.js:85-112 | no cart or no opportunity: error toast, no call, no publish; success: success toast, `{accountId, status: 'submitted'}` published once, cart cleared, no items; failure: cart kept, error toast |
| Protocol.RefreshAfterRetries | force-app/main/default/lwc/shoppingCart/shoppingCart.js:55-64 | a refresh requested of a subscribed panel before the handle exists, with the handle arriving after any number of retry intervals, calls `refreshApex` exactly once and leaves no timer |
| Protocol.SubmittedOrderResetsCatalog | force-app/main/default/lwc/shoppingCart/shoppingCart.js:96-107 | after a successful submission whose message reaches both panels, every catalog quantity is 1, the selection is empty and the cart panel holds no cart, even after its own handler's refresh |

## Left out

- Server calls (`getActiveProducts`, `getCartForAccount`, `addProductsToCart`, `removeLineItem`, `submitOrder`) and the caching behind `refreshApex`: they run on the server and the platform; each is an outcome parameter, and a successful `refreshApex` reaches the panel only as a later `WiredCart` call.
- Asynchronous interleaving: each server call's `.then`/`.catch` continuation runs inside the method that makes the call, so other events cannot come between a call and its continuation.
- The Lightning Message Service (`subscribe`, `publish`, `MessageContext`): the subscription is a flag with a count of `subscribe` calls, publishing appends to a log, and delivery is a direct call of the handler.
- `setTimeout` timing: pending timers are a count and `Tick` fires one of them; there is no clock.
- DOM work (`template.querySelector('lightning-datatable')` and its `selectedRows`), the `columns` display configuration and `ShowToastEvent` dispatch: toasts are log entries of title, message and variant.
- `console.error` logging, which changes no state.
- The `Number(...)` coercion of quantities: quantities are integers throughout; a price is an opaque copied integer.
- Aliasing of row objects: rows are values in a sequence, so a row object shared with the table's event rows is not modelled; the selection handler's overwrite of the incoming rows is returned as a result instead.
- `undefined` identifiers: product and row ids are strings, so an id that is itself missing is not modelled.
- Teardown and unsubscribe: the components have none.
