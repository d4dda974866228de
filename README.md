# Order service: ingestion pipeline and storefront cart, modelled in Dafny

This project models the order-handling core of a small order service. The service has an Express back end over MySQL, an optional Azure Event Hubs broker, and a browser storefront.

**Back end (`backend/server.js`)**
- `processOrder` (`OrderStore`). It writes one order row with status `Processed` and then one `order_items` row per item, inside a single transaction. It commits, or rolls back on any error.
- The `POST /api/orders` handler (`OrderRoute`). It validates the items. When a producer exists, it races a broker publish against a 5-second timer. If no producer exists, or the publish fails or times out, it falls back to `processOrder`. It answers 400, 202 or 201.
- The start-up gate `initEventHub` and the consumer's `processEvents` loop (`EventHub`). The gate builds the clients only when both configuration values are set. The loop calls `processOrder` once per event, in batch order.

**Storefront (`frontend/app.js`)**
- Cart grouping (`Cart`). The submit handler folds the cart into `{product_id, price, quantity}` items keyed by product id. `Object.values` then lists them in ascending id order.
- The page's state and handlers (`Storefront`):
  - `addToCart`
  - the submit handler, with its empty-cart guard, the cart clear on success, and the cart left unchanged on failure
  - `fetchProducts`, which retries with a doubling delay.

**Injected outcomes.** The database, the broker, the timer and the network are replaced by values that say how each call ends:
- `DbOutcome` for `getConnection`, `beginTransaction`, each INSERT and `commit`
- `Race` for `Promise.race`
- the two constructor outcomes of `InitEventHub`
- `Attempt` for each product fetch
- `PostResult` for the order post.

**How the database is modelled.** The class `OrderStore.Database` holds the committed rows, the AUTO_INCREMENT counter and the number of checked-out pool connections. `processOrder` is a method on it that follows the code step by step. Its effect is also given as the pure function `OrderStore.Persisted`, which the request handler and the consumer use. The main model follows the code as written. Corrected variants of the two defects under "## Findings" sit beside the as-written members.

In three places the code's behaviour differs from what its own structure expects; the main model follows the behaviour:
- `processOrder` never reports a failure: its outer `catch` (`backend/server.js:98-100`) swallows every error. Yet the handler's `catch` and 500 reply (`backend/server.js:151-153`) expect it to throw. As a result the direct path answers 201 even when nothing was stored, and the 500 reply cannot happen.
- The connection is not returned to the pool when `beginTransaction` fails. The `finally` at `backend/server.js:94-96` shows that the connection is meant to be released on every exit, but that `finally` does not cover the begin.
- The consumer path does not repeat the handler's check (`backend/server.js:120-122`) that `items` is non-empty. An order with no items is stored with no item rows. An order whose `items` is absent is rolled back, because the loop over it throws after the order INSERT.

Amounts (`total_amount`, `price`) are passed through the back end unchanged and are modelled as opaque integers. A successful `orders` INSERT uses up an AUTO_INCREMENT value even if the transaction is later rolled back, as InnoDB does, so identifiers can have gaps.

## Model

| member | source | states |
|---|---|---|
| `OrderStore.ItemRowsFor` | backend/server.js:81-86 | one `order_items` row per input item, in input order, each carrying the order id and the item's product, quantity and price |
| `OrderStore.TxEndOf` | backend/server.js:70-93 | a `processOrder` call can end committed only when `items` is present |
| `OrderStore.CommitsIffEveryStepSucceeds` | backend/server.js:70-93 | the transaction commits if and only if the connection, the begin, every INSERT and the commit succeed and `items` is present |
| `OrderStore.PersistedAllOrNothing` | backend/server.js:73-93 | either both tables are unchanged, or exactly one `Processed` order row with the next id is appended, followed by one item row per input item in input order, each with that id |
| `OrderStore.FailedWriteLeavesNoRows` | backend/server.js:90-93 | a write that does not commit leaves no partial rows; at most one identifier is used up |
| `OrderStore.PersistedKeepsIntegrity` | backend/server.js:74-86 | identifiers stay increasing and below the counter, and every item row references an existing order |
| `OrderStore.Database.constructor` | backend/server.js:22 | the pool starts with empty tables, counter 1 and no connection checked out |
| `OrderStore.Database.Transact` | backend/server.js:73-93 | the INSERTs of an open transaction, then commit or rollback: the new tables are `Persisted` of the old ones, and integrity is kept |
| `OrderStore.Database.ProcessOrder` | backend/server.js:66-101 | `processOrder` as written: the tables change as `Persisted` says; the connection is released on both the commit and the rollback path; a connection is left checked out exactly when `beginTransaction` fails |
| `OrderStore.Database.ProcessOrderReleasing` | backend/server.js:70-96 | corrected `processOrder`: the same table effect, and every connection taken is returned |
| `OrderStore.ConnectionLeakWitness` | backend/server.js:70-71 | a concrete run whose `beginTransaction` fails leaves one connection checked out |
| `OrderRoute.HandleOrder` | backend/server.js:116-157 | 400 if and only if `items` is absent or empty, with no publish and no write; a producer means exactly one publish, never retried; 202 if and only if that publish won the race, with no direct write; otherwise exactly one `processOrder` call and 201, with the local-mode wording after a broker failure; never 500 |
| `OrderRoute.HandleOrderChecked` | backend/server.js:124-155 | corrected system: the handler as written, with `processOrder` rethrowing. A failed direct write falls into the outer `catch` and is written once more, so the direct path makes one or two `processOrder` calls and the fallback path one. 201 if and only if one of those writes committed, and then exactly one more order row. 500 if and only if none did, and then no new rows. A direct order stored on the second try gets the broker-failure wording |
| `OrderRoute.CreatedWithoutStoredOrder` | backend/server.js:138-142 | as written, a failed `getConnection` on the direct path is still answered 201 "Order placed and processed." and no row is stored; the corrected handler answers 500 when the retry fails too |
| `OrderRoute.FallbackReplyIndependentOfStore` | backend/server.js:144-150 | on the fallback and direct paths, the reply is the same whatever the database did |
| `OrderRoute.DirectOrderScenario` | backend/server.js:138-142 | with no broker, Ana's one-item order leaves one `Processed` order row and one item row with quantity 2 and price 9.99, answered 201 |
| `OrderRoute.HandleOrderKeepsIntegrity` | backend/server.js:116-157 | no request, as written or corrected, breaks the tables' integrity |
| `EventHub.InitEventHub` | backend/server.js:34-63 | the producer exists if and only if both the connection string and the hub name are set and its constructor succeeds; a consumer exists only beside a producer |
| `EventHub.ProcessEvents` | backend/server.js:48-53 | `processOrder` runs once per event, in batch order: the tables end as the batch folded through `Persisted`; one connection is left out for each failed begin |
| `EventHub.ConsumedOrdersFollowBatch` | backend/server.js:48-53 | every event whose write commits adds its order whatever happened to earlier events: the new order rows are exactly the committed events' orders, in batch order, each with an id issued during the batch |
| `EventHub.ConsumeKeepsIntegrity` | backend/server.js:48-53 | a batch keeps the tables' integrity |
| `EventHub.DuplicateDeliveryStoredTwice` | backend/server.js:48-53 | there is no deduplication: the same order delivered twice is stored twice, under two identifiers |
| `Cart.FirstPriceIsFirstEntry` | frontend/app.js:73-76 | the price kept for an id is the price of the first cart entry with that id |
| `Cart.TallySnoc` | frontend/app.js:73-76 | folding one more entry creates the id's item with quantity 0 if it is new, then increments its quantity |
| `Cart.GroupCart` | frontend/app.js:72-77 | the `forEach` fold followed by `Object.values` yields exactly `Grouped(cart)` |
| `Cart.InKeyOrderShape` | frontend/app.js:77 | `Object.values` over integer keys lists every entry once, in strictly ascending key order |
| `Cart.GroupedIdsAscending` | frontend/app.js:72-77 | every product id appears once among the items, in ascending id order rather than cart order |
| `Cart.GroupedItemsCountEntries` | frontend/app.js:73-76 | each item's quantity is the number of cart entries with its id (at least 1), and its price is the first such entry's |
| `Cart.GroupedCoversCart` | frontend/app.js:72-77 | every cart entry's id has an item |
| `Cart.GroupedQuantitiesSumToCartLength` | frontend/app.js:72-77 | the quantities add up to `cart.length` |
| `Cart.GroupedNonEmpty` | frontend/app.js:72-77 | the items are non-empty if and only if the cart is |
| `Storefront.FindProduct` | frontend/app.js:45 | `find` returns the first product with the id, or nothing exactly when no product has it |
| `Storefront.OrderToSend` | frontend/app.js:60-84 | a request is built if and only if the cart is non-empty and every entry is a product; it carries the name, the email and the grouped, non-empty items |
| `Storefront.LoadProducts` | frontend/app.js:11-30 | at most `retries + 1` attempts; the first wait is `delay` and each later wait doubles; every attempt before the last was refused; an empty list is refused only while retries remain; the rendered list is the one parsed by the last attempt; the run's last parsed list is `LastParsed` of its attempts; the error is shown only after all attempts |
| `Storefront.LastParsedIsLastList` | frontend/app.js:15 | `products` is assigned by every attempt that parses. So the last parsed list is absent exactly when no attempt parsed, and otherwise it is the list of a parsing attempt after which none parsed |
| `Storefront.WaitsDoubleFromDelay` | frontend/app.js:23-24 | the k-th wait is `delay * 2^k` |
| `Storefront.DefaultSchedule` | frontend/app.js:11 | with the defaults (5 retries, 1000 ms): at most six attempts, with waits of 1000 ms, 2000 ms, 4000 ms and so on |
| `Storefront.Shop.constructor` | frontend/app.js:3-4 | the page starts with no products and an empty cart |
| `Storefront.Shop.AddToCart` | frontend/app.js:44-48 | appends exactly one entry (what `find` returned) at the end; earlier entries are unchanged |
| `Storefront.Shop.SubmitOrder` | frontend/app.js:57-111 | sends `OrderToSend` of the cart (nothing for an empty cart); empties the cart only after an ok response; on failure the cart is unchanged |
| `Storefront.Shop.FetchProducts` | frontend/app.js:11-30 | runs the `LoadProducts` schedule; `products` ends as the run's `LastParsed` list (the list of the last attempt that parsed one, even an empty list that was then refused), or unchanged if no attempt parsed |
| `Storefront.PostedCartIsAccepted` | frontend/app.js:86-103 | every order the page posts passes the server's validation and is answered 201 or 202, an ok status, so the cart is emptied |

## Findings

| source | as written | input that shows it | evidently intended | confidence | as-written member | corrected member |
|---|---|---|---|---|---|---|
| backend/server.js:70-96 | `connection.release()` sits in the `finally` of the inner `try`, which starts after `beginTransaction` | `getConnection` succeeds, `beginTransaction` throws: the connection is never returned to the pool | every connection taken is released on exit | medium (the pool may discard a connection that failed fatally); not executed | `OrderStore.Database.ProcessOrder`, shown by `OrderStore.ConnectionLeakWitness` | `OrderStore.Database.ProcessOrderReleasing` |
| backend/server.js:98-100, 141-142, 147-153 | `processOrder`'s outer `catch` logs and swallows every error, so its callers always see success | no producer, `getConnection` fails: the reply is 201 "Order placed and processed." with no row stored; the 500 reply at line 153 can never be sent | a request whose writes all fail is answered 500, and 201 means the order was stored | high; not executed | `OrderRoute.HandleOrder`, shown by `OrderRoute.CreatedWithoutStoredOrder` | `OrderRoute.HandleOrderChecked` (`processOrder` rethrows, the handler is unchanged; a failed direct write is then retried by the outer `catch`) |

Both corrected members are proved beside the as-written ones. `EventHub.ProcessEvents` and `Storefront.PostedCartIsAccepted` use the as-written behaviour, because that is what the service does.

## Left out

- The Express layer, `cors`, `bodyParser`, `GET /api/products`, `renderProducts`, `updateTotal` and all DOM updates (alerts, messages, form reset): framework I/O and display.
- Floating-point money: the page's `total` (`reduce` over `Number(price)`) is a parameter of `Shop.SubmitOrder`, and amounts are opaque integers.
- Real time: `Promise.race`, `setTimeout` and the 5-second deadline are reduced to the `Race` outcome and to the list of waits. Cancelling the losing publish is not modelled, and neither is its possible late delivery, which can duplicate an order that the fallback also stored.
- Storefront.Shop.SubmitOrder and Storefront.Shop.AddToCart: the page's handlers are modelled as running alone. The submit handler awaits `fetch` between grouping the cart and clearing it. An `addToCart` click during that wait appends an entry that the success path then discards without sending it. A second submit during the first posts the same cart twice. Neither interleaving is modelled.
- Concurrency between requests, the consumer and the pool: each call is modelled as running alone, and the pool size is not bounded.
- The Event Hubs SDK (`createBatch`, `sendBatch`, `subscribe`, `processError`). `batch.tryAdd` returning false for an oversized order is not modelled; the code ignores that result, sends an empty batch and still answers 202.
- The MySQL driver: `rollback` is modelled as always discarding the open transaction's rows, and no rollback failure is modelled.
- JSON shapes outside the model: an `items` value that is neither absent nor a list, and an event body that is not an object (destructuring it throws before `getConnection`).
- Product ids are modelled by `Cart.ProductId`: natural numbers below 2^32 − 1, which `Object.values` lists in ascending order. Larger or non-integer ids, which it lists in insertion order, are not modelled.
- Logging, environment-variable parsing (database settings, port, the `$Default` consumer group) and the consumer's error channel.
- Deduplication of orders stored by both the fallback and the consumer: the code does not do it, so it is not modelled.
