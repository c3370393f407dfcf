# Order lifecycle and customer records, modelled in Dafny

This project models the core of a retail back office made of two services.

**Order service.**
- The `Order` aggregate keeps a running `totalAmount`, the sum of its item subtotals.
- It enforces a six-state status machine (PENDING, CONFIRMED, PROCESSING, SHIPPED, DELIVERED, CANCELLED).
- `OrderItem` is an immutable line whose subtotal is price × quantity.
- `OrderService` runs the use cases as load → check → mutate → save against a repository keyed by `orderId`.
- The customer-validation adapter classifies the remote "does this customer exist?" answer into a boolean or one of two domain errors.
- The Feign error decoder maps HTTP statuses onto those errors.

**Customer service.**
- It is a store keyed by `customerId` with unique emails.
- Deletion is soft (`activo = false`), and inactive records are hidden from lookups.
- Addresses can be patched field by field.
- A batch call checks many customers at once.

Modelling choices:
- Money (`BigDecimal`) is a whole number of cents (`OrderItems.Money`).
- Nullable Java references that the code checks are `Option`: the order's `status`, `items` and `notas`, and the command and address fields.
- Thrown exceptions become `Result`/`Outcome` values (`OrderErrors.OrderError`, `Customers.CustomerError`).
- The system clock (`LocalDateTime.now()`) and `UUID.randomUUID()` are parameters: `now`, `orderId`, `numberUuid`, `itemIds`, `newId`.
- The customer-validation port is an oracle input. `CreateOrder` takes the port's answer, a boolean or the error it threw.
- `Order` is a class whose methods (`AddItem`, `ChangeStatus`) and public fields (the source's setters) are updated in place.
- The repositories are maps from business id to a value snapshot (`OrderData`, `Customer`). Each use case builds a fresh `Order` from the snapshot and writes a new snapshot back. This mirrors the document copy that the Mongo adapters make.
- Saving is therefore an upsert by business id. Each service's `Valid()` keeps every record under its own id.
- For customers, `Valid()` also keeps emails unique, which the email unique index demands of every save.

Two checks live only at the REST boundary, not in the core:
- `createOrder` (OrderService.java:56-64) accepts an empty item list, and the order's total is then 0.
- The `Order` and `OrderItem` aggregate does not check quantities or prices for positivity.

The request validation of `CreateOrderRequest` and `OrderItemRequest` enforces both before the core is reached, so the model, like the core, admits these inputs.

`scenarios.dfy` works through concrete runs using only the contracts. Three follow unit tests:
- the order-total test, where one line of 2 × 100.00 gives 200.00 (OrderServiceTest.java:126-140);
- the delivery chain PENDING → CONFIRMED → PROCESSING → SHIPPED → DELIVERED (OrderServiceTest.java:350-374);
- updating a CONFIRMED order, which fails (OrderServiceTest.java:258-271).

The rest are additional scenarios that no unit test covers:
- cancelling the delivered order at the end of the chain, which fails;
- skipping from PENDING to PROCESSING, which fails;
- a two-line order, 2 × 100.00 + 1 × 50.00 = 250.00;
- deleting the same customer twice.

## Model

| member | source | states |
|---|---|---|
| `OrderStatuses.ExactlySixStatuses` | order-service/src/main/java/com/liverpool/order/domain/model/OrderStatus.java:3-9 | there are exactly six statuses, pairwise different, and every status is one of them |
| `OrderStatuses.DisplayName` | order-service/src/main/java/com/liverpool/order/domain/model/OrderStatus.java:4-19 | every status has a (non-empty) display name; it is total |
| `OrderStatuses.DisplayNameInjective` | order-service/src/main/java/com/liverpool/order/domain/model/OrderStatus.java:4-9 | two statuses have the same display name iff they are the same status |
| `OrderItems.NewOrderItem` | order-service/src/main/java/com/liverpool/order/domain/model/OrderItem.java:23-31 | the drawn id, product code, name, quantity and unit price are stored as given, and subtotal = price × quantity |
| `OrderItems.SubtotalAtLeastPrice` | order-service/src/main/java/com/liverpool/order/domain/model/OrderItem.java:30 | with quantity ≥ 1 and price > 0 the subtotal is at least the price, hence positive |
| `OrderItems.ItemFromCommand` | order-service/src/main/java/com/liverpool/order/application/service/OrderService.java:57-62 | an item built from a command line has subtotal = the line's price × quantity |
| `OrderItems.ItemsFromCommands` | order-service/src/main/java/com/liverpool/order/application/service/OrderService.java:121-130 | one item per command line, in command order, each built from its line and its own UUID |
| `OrderItems.SumAppend` | order-service/src/main/java/com/liverpool/order/domain/model/Order.java:42-43 | appending an item raises the sum of subtotals by exactly that item's subtotal |
| `OrderItems.ItemsTotalIsCommandsTotal` | order-service/src/main/java/com/liverpool/order/domain/model/Order.java:50-52 | the sum of the built items' subtotals equals Σ price × quantity over the command lines |
| `OrderItems.SumPositive` | order-service/src/main/java/com/liverpool/order/domain/model/Order.java:50-52 | with positive subtotals the sum is never negative and is positive for a non-empty list |
| `Orders.IsValidTransition` | order-service/src/main/java/com/liverpool/order/domain/model/Order.java:69-82 | a missing status accepts any target; otherwise a move is accepted iff it is in the transition table PENDING→{CONFIRMED, CANCELLED}, CONFIRMED→{PROCESSING, CANCELLED}, PROCESSING→SHIPPED, SHIPPED→DELIVERED |
| `Orders.CanBeCancelled` | order-service/src/main/java/com/liverpool/order/domain/model/Order.java:55-57 | true iff the status is PENDING or CONFIRMED, i.e. iff the order has a status from which CANCELLED is an allowed move |
| `Orders.CancellableIffCancelIsMove` | order-service/src/main/java/com/liverpool/order/domain/model/Order.java:55-82 | an order can be cancelled iff it has a status and changeStatus(CANCELLED) would accept the move; a missing status passes the transition check yet is not cancellable |
| `Orders.NoSelfTransition` | order-service/src/main/java/com/liverpool/order/domain/model/Order.java:73-81 | no status may move to itself |
| `Orders.TerminalIffNoMove` | order-service/src/main/java/com/liverpool/order/domain/model/Order.java:80 | DELIVERED and CANCELLED, and only they, have no allowed move |
| `Orders.TransitionAdvances` | order-service/src/main/java/com/liverpool/order/domain/model/Order.java:73-81 | every allowed move goes strictly forward in declaration order |
| `Orders.PathIsStrictlyIncreasing` | order-service/src/main/java/com/liverpool/order/domain/model/Order.java:73-81 | along any run of allowed moves the declaration order strictly increases |
| `Orders.PathHasNoRepeats` | order-service/src/main/java/com/liverpool/order/domain/model/Order.java:73-81 | a run of allowed moves never revisits a status and has at most six statuses |
| `Orders.DeliveryRouteIsValid` | order-service/src/main/java/com/liverpool/order/domain/model/Order.java:74-79 | PENDING→CONFIRMED→PROCESSING→SHIPPED→DELIVERED is a run of allowed moves |
| `Orders.TotalOf` | order-service/src/main/java/com/liverpool/order/domain/model/Order.java:46-53 | a missing or empty item list totals zero; otherwise the total is the sum of the subtotals |
| `Orders.Order.constructor` | order-service/src/main/java/com/liverpool/order/domain/model/Order.java:11-36 | the builder stores every field as given |
| `Orders.Order.CalculateTotal` | order-service/src/main/java/com/liverpool/order/domain/model/Order.java:46-53 | a missing or empty item list totals zero; otherwise the total is the sum of the item subtotals |
| `Orders.Order.AddItem` | order-service/src/main/java/com/liverpool/order/domain/model/Order.java:38-44 | the item list becomes the old list (empty if missing) plus the item at the end; totalAmount = calculateTotal() = old total + item subtotal; nothing else changes |
| `Orders.Order.ChangeStatus` | order-service/src/main/java/com/liverpool/order/domain/model/Order.java:59-67 | succeeds iff the move is valid, then sets the status and update time only; otherwise fails with InvalidOrderStatus(current, requested) and changes nothing |
| `OrderNumbers.FormatTimestamp` | order-service/src/main/java/com/liverpool/order/application/service/OrderService.java:183-184 | the yyyyMMddHHmmss stamp is exactly 14 decimal digits |
| `OrderNumbers.TimestampRoundTrip` | order-service/src/main/java/com/liverpool/order/application/service/OrderService.java:183-184 | reading the 14-digit stamp back gives the original date and time |
| `OrderNumbers.ToUpperCase` | order-service/src/main/java/com/liverpool/order/application/service/OrderService.java:185-186 | same length, no lower-case letter left, each character unchanged or its upper-case form |
| `OrderNumbers.GenerateOrderNumber` | order-service/src/main/java/com/liverpool/order/application/service/OrderService.java:182-188 | 27 characters: "ORD-", a 14-digit stamp that reads back as the clock reading, "-", and the first 8 UUID characters upper-cased |
| `OrderServices.OrderService.Save` | order-service/src/main/java/com/liverpool/order/infrastructure/adapter/out/persistence/OrderMongoAdapter.java:27-42 | upsert by orderId: the record under that id is replaced or added, never duplicated; every other record is unchanged |
| `OrderServices.OrderService.GetOrderByOrderId` | order-service/src/main/java/com/liverpool/order/application/service/OrderService.java:72-78 | the stored order with that orderId, or OrderNotFound iff there is none |
| `OrderServices.OrderService.CreateOrder` | order-service/src/main/java/com/liverpool/order/application/service/OrderService.java:30-70 | a validation error propagates unchanged and a "false" gives CustomerNotFound, both saving nothing; a "true" saves a PENDING order with the items in command order, total Σ price × quantity and a generated order number |
| `OrderServices.OrderService.UpdateOrder` | order-service/src/main/java/com/liverpool/order/application/service/OrderService.java:101-141 | OrderNotFound if absent, IllegalState if not PENDING (nothing saved); else notes replaced only if given, items and total replaced only for a non-empty list (total = Σ of the new lines); id, number, customer and status untouched |
| `OrderServices.OrderService.CancelOrder` | order-service/src/main/java/com/liverpool/order/application/service/OrderService.java:143-162 | OrderNotFound if absent; PENDING/CONFIRMED become CANCELLED and are saved; any other status gives OrderCannotBeCancelled and saves nothing |
| `OrderServices.OrderService.UpdateOrderStatus` | order-service/src/main/java/com/liverpool/order/application/service/OrderService.java:164-180 | OrderNotFound if absent; saves the new status iff the move is valid, else InvalidOrderStatus and the store is unchanged |
| `FeignErrorDecoder.Decode` | order-service/src/main/java/com/liverpool/order/infrastructure/adapter/out/client/config/CustomFeignErrorDecoder.java:15-33 | CustomerNotFound iff status = 404, CustomerServiceUnavailable iff status ∈ {502, 503, 504}, and Feign's default decoding for every other status |
| `CustomerClient.CustomerExists` | order-service/src/main/java/com/liverpool/order/infrastructure/adapter/out/client/CustomerServiceClientAdapter.java:23-48 | a boolean iff the body is present, successful and has data, and it is exactly `data.exists` (so true only then); a null/unsuccessful/data-less body or a Feign 404 gives CustomerNotFound; any other Feign failure gives CustomerServiceUnavailable; a decoder-built domain exception passes through unchanged |
| `CustomerClient.CustomerExistsFallback` | order-service/src/main/java/com/liverpool/order/infrastructure/adapter/out/client/CustomerServiceClientAdapter.java:50-58 | always fails with CustomerServiceUnavailable, never returns a value |
| `CustomerClient.ErrorStatusClassification` | order-service/src/main/java/com/liverpool/order/infrastructure/adapter/out/client/config/CustomFeignErrorDecoder.java:18-33 | through the installed decoder an HTTP error status never yields a boolean: 404 is CustomerNotFound, every other status CustomerServiceUnavailable |
| `CustomerClient.NoExistenceFromFailure` | order-service/src/main/java/com/liverpool/order/infrastructure/adapter/out/client/CustomerServiceClientAdapter.java:39-47 | no thrown exception is ever classified as a boolean answer |
| `Customers.AddressFromCommand` | customer-service/src/main/java/com/liverpool/customer/application/service/CustomerService.java:43-52 | the address has the command's fields, and the country is the command's or "México" when null |
| `Customers.BuildPatchedAddress` | customer-service/src/main/java/com/liverpool/customer/application/service/CustomerService.java:173-188 | no patch keeps the whole address; otherwise each field is the patch's when non-null and the old one when null |
| `Customers.EmptyPatchIsIdentity` | customer-service/src/main/java/com/liverpool/customer/application/service/CustomerService.java:178-187 | a patch with every field null leaves the address unchanged |
| `Customers.PatchIdempotent` | customer-service/src/main/java/com/liverpool/customer/application/service/CustomerService.java:173-188 | applying a patch twice gives the same address as applying it once |
| `Customers.FullPatchReplaces` | customer-service/src/main/java/com/liverpool/customer/application/service/CustomerService.java:178-187 | a patch with every field set yields the same address whatever the old one was |
| `Customers.CustomerService.Save` | customer-service/src/main/java/com/liverpool/customer/infrastructure/adapter/out/persistence/CustomerMongoAdapter.java:26-37 | upsert by customerId; ids stay keyed to their records and emails stay unique |
| `Customers.CustomerService.GetCustomerById` | customer-service/src/main/java/com/liverpool/customer/application/service/CustomerService.java:72-81 | found iff the record is present and active, and then it is that record; otherwise CustomerNotFound |
| `Customers.CustomerService.CustomerExists` | customer-service/src/main/java/com/liverpool/customer/application/service/CustomerService.java:211-217 | true iff a record is present and active, i.e. iff getCustomerById succeeds |
| `Customers.CustomerService.CreateCustomer` | customer-service/src/main/java/com/liverpool/customer/application/service/CustomerService.java:34-70 | CustomerAlreadyExists and nothing saved when the email is in use; otherwise stores an active customer with the command's fields and defaulted country |
| `Customers.CustomerService.UpdateCustomer` | customer-service/src/main/java/com/liverpool/customer/application/service/CustomerService.java:101-139 | CustomerNotFound for an absent or inactive id; CustomerAlreadyExists only when the email changes to one in use; otherwise replaces names, email and address, keeping id, activo and creation time |
| `Customers.CustomerService.PatchCustomer` | customer-service/src/main/java/com/liverpool/customer/application/service/CustomerService.java:141-171 | same refusals as update (a null email never conflicts); otherwise names unchanged, null email keeps the old one, address merged field by field |
| `Customers.CustomerService.DeleteCustomer` | customer-service/src/main/java/com/liverpool/customer/application/service/CustomerService.java:190-209 | succeeds iff the customer is found, then sets activo = false and keeps the other fields; afterwards the customer does not exist, so a second delete fails with CustomerNotFound |
| `Customers.CustomerService.ValidateMultipleCustomers` | customer-service/src/main/java/com/liverpool/customer/application/service/CustomerService.java:225-235 | the result's keys are exactly the requested ids, each mapped to customerExists(id) |

## Left out

- Retry and circuit-breaker policies (`@Retry`, `@CircuitBreaker`) are not modelled. They are library behaviour with unseen configuration and shared concurrent state. The adapter body and the fallback are separate functions, and how the annotations compose them is not claimed.
- Feign's default error decoder is a foreign call. Its result is an opaque "other Feign exception".
- `getAllOrders`, `getOrdersByCustomerId` and `getOrdersByStatus` are not modelled. They pass straight to the repository's paging and sorting, which the database performs.
- `getAllCustomers`, `getCustomerByEmail`, `getTotalCustomers` and `getBasicCustomerInfo` are not modelled:
  - `getAllCustomers` and `getTotalCustomers` pass straight to the repository's paging and counting.
  - `getCustomerByEmail` returns the repository's match for the email only when that customer is active (CustomerService.java:92-93). The email unique index makes that match unique, but the database's lookup by email is not modelled.
  - `getBasicCustomerInfo` is `getCustomerById` itself.
- Logging is dropped.
- Each use case reads the clock several times. The model uses one `now` for all of those reads.
- Java nulls that the code dereferences without checking are not modelled. Each would raise NullPointerException, and request validation rules them out:
  - a null item list in a create command;
  - a null quantity or price, which the subtotal's multiplication unboxes;
  - a null `activo`, which the active filter unboxes;
  - a stored customer's null email, which update and patch compare with `equals`;
  - a stored customer's null address under an address patch that leaves some field null. A patch that sets all eight fields never reads the stored address.
- A null requested status is not modelled. It is accepted from a missing status, and from any other status it raises NullPointerException while the error message is built.
- Null names, or a null email or address in a command, are simply stored by the code. The model gives those fields no `Option`, so it does not represent those nulls.
- A missing order status is the exception. When the code reads its display name for an error message, the model reports that as `NullStatus`.
- Money is exact cents, so prices with more than two decimals are not represented.
- Timestamps that the database's auditing fills in (`fechaCreacion` on create, `fechaActualizacion` on customer writes) appear as the service passes them: absent or copied.
- The unique index on `orderNumber` and UUID collisions are not modelled. A repeated id simply upserts.
- The order number is formatted only for years 1 to 9999. The pattern's `yyyy` is the year of era, so years before 1 CE would print differently; they are outside the model. Upper-casing covers ASCII letters only, which is all a UUID contains.
- Concurrency is not modelled. Every use case runs alone, so the code's last-write-wins behaviour under concurrent updates is not captured.
- The REST controllers, DTOs, mappers, exception handlers and configuration are not part of this model.
