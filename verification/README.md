# Order creation: a Dafny model

This project models the order-creation use case of an order-management
backend (`CreateOrderService.execute`). The use case takes a customer id and
a list of `{ id, quantity }` lines and does three things in this order:

1. It checks that the customer exists.
2. It fetches the requested products in one batch. In a single pass over the
   request it then puts each line into one of three buckets: satisfiable,
   insufficient stock, or not found. Each satisfiable line yields an order
   line (id, price at order time, quantity) and an absolute-quantity stock
   update (`stock - requested`).
3. It reports the first non-empty error bucket, not-found before
   insufficient. Only when every line passes does it issue its two writes:
   it creates the order, then sends the batched quantity update.

The repositories become plain inputs. The customer lookup is an
`Option<Customer>` and the batched product lookup is the `seq<Product>` it
returned. The two writes are entries of a write log in the result
(`Execution.writes`). The three thrown errors are the three constructors of
`OrderError`.

Modules, one per concern of the service:

- `OrderTypes` (`types.dfy`): the records (`Product`, the `IProduct` shape as
  `ProductQuantity`, the `IOrderProduct` shape as `OrderProduct`), the errors,
  the result and the write log.
- `ProductLookup` (`lookup.dfy`): `Find`, the `Array.prototype.find` that
  matches a line to the first fetched product with its id.
- `Reconcile` (`reconcile.dfy`): `Classify`, the verdict for one line;
  `Partition`, the pass over the request written as a left fold; and
  `PartitionSound`, what that pass computes.
- `CreateOrder` (`create_order.dfy`): `Execute`, the whole use case, and
  lemmas about it.
- `Scenarios` (`scenarios.dfy`): worked examples, plus a request that
  repeats a product.

Behaviour of the code worth knowing:

- The code does not check that requested quantities are positive, and
  neither does the model. `Reconcile.NonPositiveRequestFits` shows that such
  a line always passes the stock test when stock is not negative.
- The code keeps request order: line i of the order comes from line i of
  the request, and `Execute` states exactly that. Only the outcome (success,
  or which error) is independent of the order of the lines;
  `CreateOrder.OutcomeIgnoresLineOrder` shows this for any rearrangement.
- The code checks each line against the stock as fetched. Two lines for the
  same product are therefore never added up: requesting 3 and 3 of a
  product with stock 5 succeeds, and both updates set the stock to 2.
  `Scenarios.RepeatedLinesOvercommit` shows this. The model keeps the code's
  behaviour.

## Model

| member | source | states |
|---|---|---|
| `ProductLookup.Find` | src/modules/orders/services/CreateOrderService.ts:54-56 | the lookup finds something exactly when some fetched product carries the id, and what it finds is the earliest such product |
| `ProductLookup.FindUniqueIds` | src/modules/orders/services/CreateOrderService.ts:54-56 | when fetched products have distinct ids, the lookup returns the one product with the requested id |
| `Reconcile.Classify` | src/modules/orders/services/CreateOrderService.ts:54-73 | a line is not found exactly when no fetched product has its id; it is insufficient exactly when one does and the request exceeds its stock (the test is `<=`); otherwise it yields an order line with the request's id and quantity and the product's price, and an update to `stock - requested`, which is never negative |
| `Reconcile.Partition` | src/modules/orders/services/CreateOrderService.ts:53-74 | the `forEach` pass with its `push` calls (through `Push`); its own contract only says that order lines and updates come in equal numbers and that the three buckets together hold as many lines as the request; what each bucket holds is stated by `PartitionSound` and `PartitionAppend` |
| `Reconcile.PartitionSound` | src/modules/orders/services/CreateOrderService.ts:48-74 | every requested line, counted with repetition, lands in exactly one bucket; membership of each of the three buckets (not found, insufficient, order lines) matches its condition in both directions; order lines and updates are index-paired with no negative stock; with both error buckets empty, line i and update i come from request line i |
| `Reconcile.PartitionAppend` | src/modules/orders/services/CreateOrderService.ts:53-74 | the pass over a concatenated request equals the concatenation of the passes over its parts, so each line's bucket depends on that line alone |
| `Reconcile.NonPositiveRequestFits` | src/modules/orders/services/CreateOrderService.ts:58-67 | the requested quantity is not validated: a zero or negative request for a product with non-negative stock is satisfiable and leaves at least the original stock |
| `CreateOrder.Execute` | src/modules/orders/services/CreateOrderService.ts:36-92 | a missing customer gives CustomerNotFound; otherwise any unknown id gives ProductsNotFound, even if other lines lack stock; otherwise any line over its stock gives InsufficientQuantity; it succeeds exactly when none of these hold; every error issues no write; success issues exactly two writes, create-order and then the update, with the order lines and updates aligned with the request |
| `CreateOrder.OutcomeIgnoresLineOrder` | src/modules/orders/services/CreateOrderService.ts:53-82 | two requests holding the same lines in any order (equal multisets) both succeed or both fail with the same error |
| `CreateOrder.ConcatenatedRequest` | src/modules/orders/services/CreateOrderService.ts:53-87 | a request `a + c` succeeds exactly when `a` and `c` would each succeed, and then its order lines are those of `a` followed by those of `c` |
| `CreateOrder.ExactStockEmptiesProduct` | src/modules/orders/services/CreateOrderService.ts:58-67 | a line that asks for exactly the stock passes the `<=` test, and in a successful call its update sets that product's quantity to 0 |
| `CreateOrder.RepeatedIdsUseFetchedStock` | src/modules/orders/services/CreateOrderService.ts:54-67 | in a successful call, two lines with the same id both compute their update from the same fetched stock; the quantities are not accumulated |
| `Scenarios.TwoLinesPlaced` | src/modules/orders/services/CreateOrderService.ts:53-89 | with P1 (price 10, stock 5) and P2 (price 20, stock 2), requesting 3 of P1 and 2 of P2 creates the order `[P1,10,3], [P2,20,2]` and then sets the stocks to 2 and 0 |
| `Scenarios.UnknownProductRejected` | src/modules/orders/services/CreateOrderService.ts:76-78 | requesting an unknown P3 next to a satisfiable P1 fails with ProductsNotFound and writes nothing |
| `Scenarios.ExcessQuantityRejected` | src/modules/orders/services/CreateOrderService.ts:80-82 | requesting 5 of P2 (stock 2) fails with InsufficientQuantity and writes nothing |
| `Scenarios.NotFoundBeatsInsufficient` | src/modules/orders/services/CreateOrderService.ts:76-82 | an insufficient line followed by an unknown one fails with ProductsNotFound |
| `Scenarios.RepeatedLinesOvercommit` | src/modules/orders/services/CreateOrderService.ts:54-67 | two lines of 3 against a stock of 5 succeed, and both updates set the stock to 2 |

## Left out

- Dependency injection and the three repository implementations. Their
  results are inputs (the customer lookup and the fetched products), and
  their writes are entries in the write log.
- The id list built for the batched lookup (lines 43-46). The fetched
  products are taken as given. The model does not assume they contain only
  requested ids, or that each id appears once; `Find` takes the first match.
- The persisted `Order` entity, with the id and timestamps its store
  assigns. `Execute` returns the request passed to the order store. A
  failure inside a collaborator, which the code lets propagate, is not
  modelled.
- The `AppError` class and its message strings, including the misspelt
  insufficient-quantity message. Only the three error kinds are kept.
- async/await sequencing, and the race in which concurrent orders both read
  enough stock and oversell. Both concern concurrency, which this code does
  not address.
- Number representation. Prices and quantities are JavaScript numbers;
  the model uses unbounded integers. Fractional, NaN or huge values are not
  modelled. The price is only copied, never computed on.
