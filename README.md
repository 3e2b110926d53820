# Order creation (`CreateOrderService.execute`) in Dafny

This project models the order-creation service of a Node/TypeScript shop
backend. Given a customer id and an ordered list of `{ id, quantity }`
product requests, `execute`:

1. asks the customers repository for the customer and throws
   "Customer not found." (status 400) when there is none;
2. asks the products repository, in one batch call, for every requested id;
3. walks the request in order and, for each line, finds the first catalog
   entry with that id (`Array.prototype.find`), throws "Invalid product." when
   there is none and "Invalid product quantity." when the requested quantity
   exceeds that entry's quantity, otherwise pushes `{ id, quantity: stock -
   requested }` onto a stock-update list and returns an order line
   `{ product_id, quantity, price }` priced from the catalog;
4. sends the whole stock-update list to the products repository, then creates
   the order with the customer and the lines, and returns the created order.

Layout:

- `wrappers.dfy`: `Option` and `Result`.
- `order_planning.dfy` (module `OrderPlanning`): the pure per-line rules.
  `Plan(snapshot, items)` is step 3 as a value: the lines and the updates, or
  the first error. The lemmas state the per-line rules, the order of the
  checks and what a duplicated product id does.
- `stores.dfy` (module `Stores`): the catalog as a map from product id to
  price and stock, with the behaviour assumed of the two products-repository
  calls (`IsLookupResult` for `findAllById`, with `Lookup` as one such
  result, and `ApplyUpdates` for `updateQuantity`).
  The lemmas restate the outcome of `Plan` directly in terms of the catalog.
- `create_order_service.dfy` (module `Orders`): class `CreateOrderService`.
  Its fields hold the state of the three repositories, and a ghost log
  `calls` records each repository call with its argument. `Execute` is
  `execute`. `ValidateAndPrice` is the `products.map(...)` loop, proved equal
  to `Plan`. Three client methods walk through the stock-decrement,
  insufficient-stock and unknown-customer scenarios.

The model follows the code as written; in particular:

- Each line is checked against the quantity in the lookup result, not
  against a running total. Two lines for the same product each pass on their
  own, and each produces its own stock update. With the assumed last-write-wins
  `updateQuantity`, the final stock is the snapshot quantity minus the LAST
  such line only (`DuplicateLinesOversell`, `NamedProductFromLastLine`).
- An empty product list is accepted and yields an order with no lines.
- The stock update is an unconditional write of computed quantities. There
  is no atomic conditional update, no retry and no compensation.
- The errors carry only their message (and 400 for the customer error),
  not the offending product id or the shortfall.

## Model

| member | source | states |
|---|---|---|
| `Orders.CreateOrderService.Execute` | src/modules/orders/services/CreateOrderService.ts:31-79 | An unknown customer yields "Customer not found." after the customer lookup alone, with catalog and orders unchanged. Otherwise, on any request-line error, the first failing line's error is returned after the two lookups, with catalog and orders unchanged. On success the catalog gets the planned updates in one call, then one order is created with that customer and the planned lines, and that created order is returned. |
| `Orders.CreateOrderService.FindCustomerById` | src/modules/orders/services/CreateOrderService.ts:32-36 | The customer lookup yields the customer exactly when its id is known; it is logged. |
| `Orders.CreateOrderService.FindAllById` | src/modules/orders/services/CreateOrderService.ts:40-42 | One batch lookup over the requested ids, logged, returning some result with the assumed `IsLookupResult` property (exactly the catalog rows of requested ids, in any order or repetition). |
| `Orders.CreateOrderService.UpdateQuantity` | src/modules/orders/services/CreateOrderService.ts:71 | The catalog becomes the old catalog with the batch applied (`ApplyUpdates`); the batch is logged as one call. |
| `Orders.CreateOrderService.CreateOrder` | src/modules/orders/services/CreateOrderService.ts:73-76 | The created order holds the given customer and lines and is appended to the orders store and returned. |
| `Orders.ValidateAndPrice` | src/modules/orders/services/CreateOrderService.ts:44-69 | The loop that pushes stock updates and builds priced lines returns exactly `Plan` of the snapshot and the request. |
| `OrderPlanning.FailureMessages` | src/modules/orders/services/CreateOrderService.ts:35-56 | The three errors carry "Customer not found." (400), "Invalid product." and "Invalid product quantity.". |
| `OrderPlanning.Ids` | src/modules/orders/services/CreateOrderService.ts:38 | The lookup argument has one id per request line, in request order. |
| `OrderPlanning.FindIndex` | src/modules/orders/services/CreateOrderService.ts:47-49 | Returns the index of the FIRST snapshot entry with the id, or none when no entry has it. |
| `OrderPlanning.Find` | src/modules/orders/services/CreateOrderService.ts:47-49 | Returns none exactly when no snapshot entry has the id; otherwise the first entry with it. |
| `OrderPlanning.LineOutcome` | src/modules/orders/services/CreateOrderService.ts:47-68 | A line fails with "Invalid product." exactly when no entry has its id. It fails with "Invalid product quantity." exactly when an entry has the id and that entry's quantity is strictly below the requested one (equal passes). Otherwise the line carries the requested id and quantity and the catalog price, and the update is the catalog quantity minus the requested quantity, which is never negative. |
| `OrderPlanning.Plan` | src/modules/orders/services/CreateOrderService.ts:44-69 | On success there is exactly one line and one update per request line. |
| `OrderPlanning.FailurePersists` | src/modules/orders/services/CreateOrderService.ts:46-57 | Once a prefix of the request fails, the whole request fails with that same error (a throw ends the pass). |
| `OrderPlanning.PlanSucceedsIff` | src/modules/orders/services/CreateOrderService.ts:46-57 | The request passes if and only if every line passes both checks. |
| `OrderPlanning.PlanAt` | src/modules/orders/services/CreateOrderService.ts:59-68 | On success, line k and update k are those of request line k. |
| `OrderPlanning.UpdatesNameRequestedIds` | src/modules/orders/services/CreateOrderService.ts:59-66 | On success, line k and update k both name request line k's product. |
| `OrderPlanning.OrderLinesFollowRequest` | src/modules/orders/services/CreateOrderService.ts:46-68 | On success, lines follow the request in order, duplicates included. Each line takes product id and quantity from the request and its price from the first catalog entry with that id. Each update is that entry's quantity minus the requested quantity. |
| `OrderPlanning.FirstFailureDecides` | src/modules/orders/services/CreateOrderService.ts:46-57 | If every earlier line passes and line k fails, the request fails with line k's error (missing product checked before quantity within the line). |
| `OrderPlanning.FailureHasFirstBadLine` | src/modules/orders/services/CreateOrderService.ts:46-57 | A failing request has a first failing line, all lines before it pass, and its error is the one reported. |
| `OrderPlanning.UpdateWithinSnapshot` | src/modules/orders/services/CreateOrderService.ts:59-62 | For a non-negative requested quantity the new stock quantity lies between 0 and the snapshot quantity. |
| `OrderPlanning.DuplicatesUseSnapshot` | src/modules/orders/services/CreateOrderService.ts:55-62 | Two lines naming the same product subtract from the same snapshot quantity: no running total. |
| `OrderPlanning.EmptyRequestAccepted` | src/modules/orders/services/CreateOrderService.ts:44-69 | An empty request passes with no lines and no updates. |
| `OrderPlanning.DuplicateLinesOversell` | src/modules/orders/services/CreateOrderService.ts:55-62 | Two lines of 3 for a product with 5 in stock both pass and both set the stock to 2. |
| `Stores.Lookup` | src/modules/orders/services/CreateOrderService.ts:40-42 | One assumed batch-lookup result: the catalog rows of the requested ids, meeting `IsLookupResult`. |
| `Stores.FindInLookup` | src/modules/orders/services/CreateOrderService.ts:40-49 | Searching any lookup result yields the catalog row of an id exactly when the id is requested and the catalog holds it. |
| `Stores.PlanDependsOnlyOnFind` | src/modules/orders/services/CreateOrderService.ts:46-69 | The pass over the request depends on the lookup result only through what `find` returns for each id. |
| `Stores.AnyLookupResultPlansAlike` | src/modules/orders/services/CreateOrderService.ts:40-69 | Whatever order or repetition the lookup result has, the request is planned as over `Lookup`. |
| `Stores.SetQuantity` | src/modules/orders/services/CreateOrderService.ts:71 | Assumed single stock write: only that product's quantity changes; keys and prices stay. |
| `Stores.ApplyUpdates` | src/modules/orders/services/CreateOrderService.ts:71 | Assumed batch write: the catalog keeps its products and their prices. |
| `Stores.UntouchedRow` | src/modules/orders/services/CreateOrderService.ts:71 | A product no update names keeps its row. |
| `Stores.LastUpdateWins` | src/modules/orders/services/CreateOrderService.ts:71 | A product named by several updates ends with the quantity of the last one. |
| `Stores.PlanOverCatalog` | src/modules/orders/services/CreateOrderService.ts:38-69 | The request passes if and only if every requested id is in the catalog with at least the requested quantity. Lines are then priced at the catalog price, and updates are the catalog quantity minus the requested quantity. |
| `Stores.UnnamedProductUnchanged` | src/modules/orders/services/CreateOrderService.ts:59-71 | After a successful order, a product the request does not name is unchanged. |
| `Stores.NamedProductFromLastLine` | src/modules/orders/services/CreateOrderService.ts:55-71 | After a successful order, under the assumed `ApplyUpdates`, a named product's stock is its catalog quantity minus the quantity of the last line naming it; its price is unchanged. |

## Left out

- Dependency injection, decorators and the constructor wiring: the three repositories are fields of the service object instead.
- `async`/`await`: repository calls are sequential method calls.
- The repository implementations are not part of this model. `findAllById` is assumed to return exactly the catalog rows of the requested ids that the catalog holds, in any order and with any repetition (`IsLookupResult`); `AnyLookupResultPlansAlike` shows the outcome does not depend on which such result it is. `updateQuantity` is assumed to set each listed quantity in list order, so the last entry for an id wins, and to ignore unknown ids (`ApplyUpdates`). The ghost `calls` log records the exact batch either way.
- `ordersRepository.create` is assumed to number orders 1, 2, 3, … in creation order; the real id comes from the database.
- The `Order` entity and the customer entity: a customer is its id, an order is its id, customer and lines.
- The `AppError` class: the two product errors leave the status code to its default, which is not modelled (`StatusCode` is `None`).
- JavaScript numbers: quantities and prices are unbounded integers. Fractional, `NaN` and out-of-range values are not modelled, and the service never checks that a requested quantity is positive.
- Prices are only copied, so no price arithmetic or decimal formatting is modelled.
- Concurrency between orders and the lost-update race on stock, including atomic conditional updates, retries and compensation: none of these exist in the code.
- A failure of `updateQuantity` or of `create`: the repositories are modelled as always succeeding.
