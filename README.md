# Orders, order items and stock of a small NestJS commerce backend, in Dafny

This project models the domain core of a NestJS/TypeORM e-commerce backend: the entities
(account, seller, customer, product, order item, order) with their factories and update rules,
the order service that places orders, looks them up and cancels order items, and the value
transformer that stores bigint ids as decimal strings. The entities, the status rules, the
service's own logic and the transformer are stated as the TypeScript code behaves, including the
places where the code is more permissive than its names and tests suggest (see "Behaviour
notes" below). Two repository queries the service calls are not defined in the source; the
model gives them an assumed behaviour, named under "Left out".

Files:

- `wrappers.dfy`: `Option`, `Result`, `Outcome`, and the exceptions the core throws
  (`BadRequest`, `NotFound`, and `StoreFailure` for a failed repository save).
- `order_item_status.dfy`: the order-item status enum and the two status calls, `changeStatus`
  and `cancle` (the source's spelling), as a pure step function `Step`, with lemmas about
  sequences of calls.
- `entities.dfy`: the entities as classes whose methods update their fields in place. `Order`
  is a datatype, because after `Order.of` only the repository save writes the order, assigning
  its id, and the model records that as a new value with the id set. The entities refer to one
  another cyclically, so they share one module.
- `order_service.dfy`: `OrderService`. Its repositories are map fields keyed by id. The
  products the service asks the product store for are an input sequence. Whether a
  repository `save` succeeds is a boolean input.
- `bigint_column.dfy`: the column transformer's `to` and `from` over a datatype of JavaScript
  values, with round-trip lemmas over decimal strings.

Ids assigned by storage are `None` until an entity is saved. JavaScript truthiness of optional
arguments is written out: `TruthyString` (not `undefined`, not `''`) and `TruthyNumber` (not
`undefined`, not `0`).

## Behaviour notes

The model follows what the code does at these points:

- A missing customer makes `createOrder` throw BadRequest, not NotFound
  (src/modules/order/order.service.ts:45-47).
- `createOrder` does not check that every requested product was found. Products the store does
  not return are dropped without error (src/modules/order/order.service.ts:56-62).
- `createOrder` never decrements stock: it never calls `orderProduct`
  (src/modules/order/order.service.ts:39-69).
- `Order.of` does not set the items' back-references to the order
  (src/entities/order.entity.ts:54-59).
- There is no transition order between statuses. `changeStatus` refuses only the targets
  PENDING and CANCELLED, and accepts every other target from every status
  (src/entities/order-item.entity.ts:99-108).
- `cancle` never throws. Its guard `!this.isCancellable` negates a method reference, which is
  always truthy, so the check on the status is never made
  (src/entities/order-item.entity.ts:92-97). A test expects `cancleOrderItem` to throw
  BadRequest for a PENDING item (test/modules/order/order.service.spec.ts:234-246); the code
  does not do that.
- `findOrder` returns whatever the query repository returns, `null` for an unknown id. It does
  not throw NotFound (src/modules/order/order.service.ts:71-73).
- `Product.order` subtracts before it checks. A failed order therefore leaves the object
  holding a negative quantity (src/entities/product.entity.ts:142-148).
- `isQuantityOrderable` is strict (`quantity > count`), so `OrderItem.of` refuses to order the
  whole stock, which `Product.order` would accept (src/entities/product.entity.ts:142-159).
- No service operation changes an item's status other than cancelling it.

## Model

| member | source | states |
|---|---|---|
| `Entities.Product.Of` | src/entities/product.entity.ts:89-107 | BadRequest exactly when quantity ≤ 0 (zero and negatives alike). On success, a fresh unsaved product holding name, description, price, quantity and seller as given. |
| `Entities.Product.Update` | src/entities/product.entity.ts:118-134 | Each of name, description, price and image is overwritten only by a truthy argument; `undefined`, `''` and `0` keep the old value. Quantity, seller and id never change. |
| `Entities.Product.Order` | src/entities/product.entity.ts:142-148 | The new quantity is always old − count. The call throws BadRequest exactly when count > old quantity, and then the object is left with a negative quantity. On success the quantity is ≥ 0. |
| `Entities.Product.IsQuantityOrderable` | src/entities/product.entity.ts:157-159 | When it holds, ordering count leaves at least one unit; when it fails, ordering count would leave none or a negative stock. So count == quantity is refused, although Product.order accepts it. |
| `Entities.OrderItem.Of` | src/entities/order-item.entity.ts:56-70 | Succeeds iff 0 < count and the product is orderable for count; every failure is BadRequest. On success, a fresh PENDING item with that product and count, no order back-reference, and 0 < count < stock. The product's quantity is unchanged. |
| `Entities.OrderItem.OrderProduct` | src/entities/order-item.entity.ts:77-79 | The bound product's quantity drops by the item's count, with Product.order's failure exactly when count exceeds the stock. The item's status is unchanged. |
| `Entities.OrderItem.SetOrder` | src/entities/order-item.entity.ts:81-83 | Sets the order back-reference and leaves status, count and product alone. |
| `OrderItemLifecycle.IsCancellable` | src/entities/order-item.entity.ts:85-90 | True exactly for PENDING and CONFIRMED, false for SHIPPED, DELIVERED and CANCELLED. |
| `Entities.OrderItem.Cancle` | src/entities/order-item.entity.ts:92-97 | Always sets CANCELLED and never throws, whatever the previous status, which agrees with Step for the cancel call. Count, product, order and id are unchanged. |
| `Entities.OrderItem.ChangeStatus` | src/entities/order-item.entity.ts:99-108 | Follows Step. PENDING and CANCELLED targets throw BadRequest and leave the status unchanged. Any other target becomes the status. Count, product, order and id are unchanged. |
| `OrderItemLifecycle.Step` | src/entities/order-item.entity.ts:92-108 | A call throws iff it is changeStatus to PENDING or CANCELLED, and then with BadRequest. No successful call yields PENDING. |
| `OrderItemLifecycle.ChangeStatusIgnoresCurrent` | src/entities/order-item.entity.ts:99-108 | changeStatus's outcome does not depend on the current status, so DELIVERED→CONFIRMED and CANCELLED→SHIPPED are accepted: no transition order is enforced. |
| `OrderItemLifecycle.CancleIgnoresCancellability` | src/entities/order-item.entity.ts:85-97 | For any status isCancellable accepts and any it rejects, cancle gives the same outcome, success with CANCELLED: the isCancellable check has no effect. |
| `OrderItemLifecycle.EveryStatusButPendingReachable` | src/entities/order-item.entity.ts:92-108 | Every status except PENDING can be reached from every status in one call. |
| `OrderItemLifecycle.PendingNeverReentered` | src/entities/order-item.entity.ts:99-108 | After any sequence of calls, with thrown exceptions caught, the status is PENDING only if it started PENDING. |
| `Entities.Order.Of` | src/entities/order.entity.ts:54-59 | The order holds the given customer and exactly the given item sequence, with no id yet. Being a function, it changes no item or product. |
| `Entities.Account.Of` | src/entities/account.entity.ts:78-84 | Email, phone and password are stored as given, without hashing. Id, customer and seller are unset. |
| `Entities.Account.Update` | src/entities/account.entity.ts:116-124 | Phone and password are each overwritten only by a truthy argument. Email, id, customer and seller never change. |
| `Entities.Seller.Of` | src/entities/seller.entity.ts:62-68 | Name, address and account are stored as given. Id and products are unset. |
| `Entities.Seller.Update` | src/entities/seller.entity.ts:77-85 | Name and address are each overwritten only by a truthy argument. Id, account and products never change. |
| `Entities.Customer.Of` | src/entities/customer.entity.ts:58-64 | Name, address and account are stored as given. Id and products are unset. |
| `Entities.Customer.SetAccount` | src/entities/customer.entity.ts:74-76 | The account setter replaces the account and nothing else. |
| `Entities.Customer.ChangeName` | src/entities/customer.entity.ts:86-88 | The name becomes the argument unconditionally (the empty string included). Nothing else changes. |
| `Entities.Customer.ChangeAddress` | src/entities/customer.entity.ts:94-96 | The address becomes the argument unconditionally. Nothing else changes; in particular the account is kept. |
| `OrderModule.CountMap` | src/modules/order/order.service.ts:49-54 | The productId→count map has exactly the requested product ids as keys. |
| `OrderModule.LastCountWins` | src/modules/order/order.service.ts:49-54 | A product id maps to the count of the last request line that names it. |
| `OrderModule.DuplicateLinesCollapse` | src/modules/order/order.service.ts:49-54 | An illustration of CountMap and LastCountWins: two lines for one product leave a single entry holding the second count. |
| `OrderModule.MakeOrderItems` | src/modules/order/order.service.ts:60-62 | Succeeds iff OrderItem.of accepts every found product with the count the map gives it (an id missing from the map is refused); the failure is BadRequest. On success, one fresh PENDING item per found product, in order, each a distinct object even when a product is returned twice, holding that product and its count, with no back-reference. |
| `OrderModule.OneItemPerRequestLine` | src/modules/order/order.service.ts:56-62 | If the request ids are distinct and the found products carry exactly the requested ids, each once, then an order built from those products by createOrder has exactly one item per request line. |
| `OrderModule.OrderService.SaveOrder` | src/modules/order/order.service.ts:66-68 | Save stores the order under a fresh id, never one already in use, records that id in the stored order, and returns it. |
| `OrderModule.OrderService.CreateOrder` | src/modules/order/order.service.ts:39-69 | Success iff the customer exists, every returned product yields an item, and save succeeds. A missing customer or a refused item gives BadRequest, a failed save gives StoreFailure, and on any failure nothing is stored. On success, the returned fresh id holds an order with the looked-up customer and one fresh PENDING item per returned product, in order, each with the last count requested for it and no back-reference. Requested ids that were not returned are dropped. No product's quantity changes. The stored order is then returned by findOrder for that id and is among findOrders for that customer. |
| `OrderModule.OrderService.FindOrder` | src/modules/order/order.service.ts:71-73 | The stored order with that id, which carries that id, or none for an unknown id; no exception. |
| `OrderModule.OrderService.FindOrders` | src/modules/order/order.service.ts:75-77 | Exactly the stored orders whose customer has the given id, each under its own id. |
| `OrderModule.OrderService.CancleOrderItem` | src/modules/order/order.service.ts:79-95 | Keeps the service invariant. NotFound for an unknown item. Otherwise the item becomes CANCELLED from any status and the call succeeds. The persisted status is updated only if the save succeeds, because a failed save is swallowed. Only that item changes. |
| `BigintColumn.To` | src/utils/decorator/primary-generate-bigint-column.decorator.ts:13-17 | A bigint becomes a string in toString's canonical decimal form (no leading zero, no "-0"). Every other value passes through unchanged. |
| `BigintColumn.From` | src/utils/decorator/primary-generate-bigint-column.decorator.ts:18-23 | A string becomes the bigint its decimal text denotes ("" is 0; an optional sign; leading zeros allowed); a string of any other form (a lone sign, a non-digit character) throws SyntaxError. An integral number x becomes the bigint equal to x; a non-integral number throws RangeError. Every other value passes through unchanged. |
| `BigintColumn.RoundTrip` | src/utils/decorator/primary-generate-bigint-column.decorator.ts:13-23 | from(to(v)) == v for every bigint v, negatives included. |
| `BigintColumn.CanonicalStringRoundTrip` | src/utils/decorator/primary-generate-bigint-column.decorator.ts:13-23 | A canonical decimal string read by from and written back by to is unchanged. |

## Left out

- Password hashing and checking (`Account.hashPassword`, `validatePassword`) and all
  authentication: they are bcrypt, JWT and passport calls.
- Creation, update and soft-delete timestamps, and the soft-delete filtering of queries: they
  are set and applied by the ORM.
- `OrderModule.OrderService.CreateOrder`: `createOrder` calls `productQueryRepository.findByIds`
  (src/modules/order/order.service.ts:56-58), which `ProductQueryRepository` does not define
  (src/modules/product/product.query-repository.ts:7-34 has only `findOneById` and
  `findByNameOrDescription`); as written the call fails whenever the customer exists. The model
  assumes it returns some sequence of stored products, given as the input `found`.
- `OrderModule.OrderService.FindOrders`: `findOrders` calls `orderQueryRepository.findByCustomerId`
  (src/modules/order/order.service.ts:75-77), which `OrderQueryRepository` does not define
  (src/modules/order/order.query-repository.ts:6-23 has only `findOneById`); as written every
  call fails. The model assumes it returns exactly the stored orders of that customer.
- Repository and query-builder semantics otherwise: how the defined queries select rows, and
  whether saving an order also saves its items (ORM cascade). The stores are plain maps.
- Transactions and concurrency: the `Transactional` decorator is a no-op, and there is no
  locking around stock.
- Floating-point prices and counts: a price is an uninterpreted real, counts and quantities are
  integers, and `NaN` and infinities are not represented.
- Logging (`console.log`, `console.error`).
- The `orderItems` relation field of `Product`, which no core operation reads.
- The account, customer, seller and product services, the controllers, DTO validation and the
  bigint route pipe: they are HTTP and dependency-injection glue.
- `BigintColumn.From`: a string is parsed by the decimal part of `BigInt`'s grammar only.
  Surrounding whitespace and the `0x`, `0o` and `0b` forms, which `BigInt` accepts, are
  treated as syntax errors here. A number is a finite real, so `NaN`, the infinities and `-0`
  are not representable; `BigInt` throws RangeError for the first three.
- `Entities.Customer.ChangeName`: an `undefined` argument is not representable; the argument is
  always a string.
- `Entities.Customer.ChangeAddress`: likewise, the argument is always a string.
