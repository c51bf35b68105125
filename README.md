# Order validation and order lifecycle of a limited-stock sales backend

The backend runs timed sale events ("boards"). A user who has been admitted
through a per-board queue places an order: a board id and a list of
`(productIdx, quantity)` lines. This project models, in Dafny, the two
pieces of decision logic around that order:

- **Order validation** (`OrdersValidator.validateOrder`). The board must
  exist, the observation time must not be before its opening nor after its
  closing, and each line, in request order, must name an existing product
  whose stock covers the quantity. When the board or a product is missing,
  or stock is short, the user's `(boardIdx, userIdx)` queue entry is
  removed before the error is reported. The two timing failures leave the
  queue alone and read no product.
- **The order lifecycle** (`OrderService.register`, `complete`,
  `cancel`), as its tests pin it down. `register` saves an order in
  PAYMENT_WAIT once validation passes and returns its identity. `complete`
  moves an owned order to ORDER_COMPLETE on a good payment. It moves it to
  ORDER_FAIL, and reports a payment failure, when the payment cannot be
  found or does not match. `cancel` moves an owned order to ORDER_CANCEL.
  A missing order is "not found". A caller who does not own the order gets
  the payment failure (on complete) or the cancel failure (on cancel).

Files:

- `kinds.dfy` (module `Kinds`): the error kinds and the `Outcome`,
  `Result` and `Option` shapes that replace exceptions and `Optional`.
- `queue.dfy` (module `OrderQueue`): the admission queue as a class
  holding a set of entries, with `ExitQueue`. A ghost log of exit calls
  records how often it was called.
- `validator.dfy` (module `OrdersValidation`): the specification of
  validation as functions (`Validate`, `LockedProducts`, `ReleasesQueue`),
  the lemmas about it, and the `OrdersValidator` class. Its
  `ValidateOrder` method walks the lines with a loop, exits the queue on the
  three releasing failures, and is proved equal to the specification. A ghost
  log `lockedReads` records the products read with a lock.
- `lifecycle.dfy` (module `OrderLifecycle`): order statuses, the
  lifecycle's transition relation, the step functions `AfterComplete` and
  `AfterCancel` with their lemmas, and the `OrderService` class over an
  order map.
- `scenarios.dfy` (module `Scenarios`): every test case of the two test
  classes, replayed on the classes with the observed result as `ensures`.

Times are integers on one clock. Only their order matters. The scenarios
count minutes from 2024-12-01T00:00.

Where the design description and the code disagree, the model follows the code:

- Both window ends are inclusive. The checks are `startedAt.isAfter(t)` and
  `endedAt.isBefore(t)`, so `t == startedAt` and `t == endedAt` both pass
  (`WindowBoundsInclusive`). The design text calls the checks strict at
  both ends.
- Lines are read in request order, not in ascending product id.

## Model

| member | source | states |
|---|---|---|
| OrderQueue.QueueService.ExitQueue | backend/src/main/java/org/example/backend/domain/orders/validator/OrdersValidator.java:28 | removes exactly the `(boardIdx, userIdx)` entry, even when it is absent, and logs one exit call |
| OrdersValidation.LineCheck | backend/src/main/java/org/example/backend/domain/orders/validator/OrdersValidator.java:42-51 | a failing line fails only with ProductNotFound or LackStock |
| OrdersValidation.LineCheckPassesIff | backend/src/main/java/org/example/backend/domain/orders/validator/OrdersValidator.java:42-51 | a line passes exactly when its product exists and quantity <= stock (so quantity == stock passes) |
| OrdersValidation.FirstFailing | backend/src/main/java/org/example/backend/domain/orders/validator/OrdersValidator.java:41-52 | the index found is the least one whose line fails: every line before it passes, and the line there fails (or none does) |
| OrdersValidation.LinesRead | backend/src/main/java/org/example/backend/domain/orders/validator/OrdersValidator.java:41-52 | no more lines are read than the request holds |
| OrdersValidation.ValidatePassesIff | backend/src/main/java/org/example/backend/domain/orders/validator/OrdersValidator.java:24-53 | validation passes iff the board exists, startedAt <= t <= endedAt, and every line's product exists with quantity <= stock |
| OrdersValidation.MissingBoard | backend/src/main/java/org/example/backend/domain/orders/validator/OrdersValidator.java:26-30 | a missing board gives EventNotFound, releases the queue entry and reads no product |
| OrdersValidation.BeforeOpening | backend/src/main/java/org/example/backend/domain/orders/validator/OrdersValidator.java:32-34 | t < startedAt gives UnopenedEvent whatever the stock, keeps the queue and reads no product |
| OrdersValidation.AfterClosing | backend/src/main/java/org/example/backend/domain/orders/validator/OrdersValidator.java:36-38 | startedAt <= t and t > endedAt gives ExpiredEvent, keeps the queue and reads no product; the unopened check comes first |
| OrdersValidation.WindowBoundsInclusive | backend/src/main/java/org/example/backend/domain/orders/validator/OrdersValidator.java:32-38 | at t == startedAt and at t == endedAt the verdict is the line check's alone |
| OrdersValidation.FirstFailingLineDecides | backend/src/main/java/org/example/backend/domain/orders/validator/OrdersValidator.java:41-52 | in an open window, the first line that does not fit decides the error (ProductNotFound when the product is missing, else LackStock), releases the queue, and only the lines up to it are read |
| OrdersValidation.FirstFailingIs | backend/src/main/java/org/example/backend/domain/orders/validator/OrdersValidator.java:41-52 | the first failing index is the least index whose line does not fit |
| OrdersValidation.FirstFailingAppend | backend/src/main/java/org/example/backend/domain/orders/validator/OrdersValidator.java:41-52 | on a concatenation, the lines of the second part are checked only when every line of the first part passed |
| OrdersValidation.CheckLinesAppend | backend/src/main/java/org/example/backend/domain/orders/validator/OrdersValidator.java:41-52 | the verdict on a concatenation is the first part's failure if it has one, else the second part's verdict |
| OrdersValidation.LockedProductsArePrefix | backend/src/main/java/org/example/backend/domain/orders/validator/OrdersValidator.java:41-46 | the products read are a prefix of the request's product ids, in request order, and all of them when validation passes |
| OrdersValidation.ReleasesQueueIff | backend/src/main/java/org/example/backend/domain/orders/validator/OrdersValidator.java:24-53 | the queue entry is released iff the board is missing, or the window is open and some line does not fit |
| OrdersValidation.OrdersValidator.FindStockWithLock | backend/src/main/java/org/example/backend/domain/orders/validator/OrdersValidator.java:42 | returns the product's stock, or None when it does not exist, and logs the locked read |
| OrdersValidation.OrdersValidator.ValidateOrder | backend/src/main/java/org/example/backend/domain/orders/validator/OrdersValidator.java:24-53 | the result is the specified verdict; boards and stock are unchanged; the queue loses the entry and exactly one exit is logged on the three releasing failures, and neither changes otherwise; the locked reads are the specified prefix |
| OrderLifecycle.AfterComplete | backend/src/test/java/org/example/backend/domain/orders/service/OrderServiceTest.java:97-202 | complete keeps the set of orders, every other order and the owner of the target |
| OrderLifecycle.AfterCancel | backend/src/test/java/org/example/backend/domain/orders/service/OrderServiceTest.java:204-237 | cancel keeps the set of orders, every other order and the owner of the target |
| OrderLifecycle.CompleteSucceedsIff | backend/src/test/java/org/example/backend/domain/orders/service/OrderServiceTest.java:97-125 | complete passes iff the order exists, is owned by the caller and its payment is found and matches; the order is then ORDER_COMPLETE |
| OrderLifecycle.CompleteErrors | backend/src/test/java/org/example/backend/domain/orders/service/OrderServiceTest.java:166-202 | complete reports not-found iff the order is missing, and payment failure iff the order exists but is not owned or the payment fails |
| OrderLifecycle.CompleteByOtherUserChangesNothing | backend/src/test/java/org/example/backend/domain/orders/service/OrderServiceTest.java:184-202 | a non-owner's complete reports payment failure and leaves every order as it was |
| OrderLifecycle.FailedPaymentPersists | backend/src/test/java/org/example/backend/domain/orders/service/OrderServiceTest.java:128-162 | on an owned order whose payment fails, complete reports payment failure and the order's status is ORDER_FAIL afterwards |
| OrderLifecycle.CompleteFollowsLifecycle | backend/src/test/java/org/example/backend/domain/orders/service/OrderServiceTest.java:97-162 | from PAYMENT_WAIT, complete leaves the status unchanged or takes a transition of the lifecycle |
| OrderLifecycle.CancelOutcomes | backend/src/test/java/org/example/backend/domain/orders/service/OrderServiceTest.java:204-237 | cancel reports not-found iff the order is missing, cancel failure iff it is not owned, and passes iff it is owned, leaving it ORDER_CANCEL |
| OrderLifecycle.CancelByOtherUserChangesNothing | backend/src/test/java/org/example/backend/domain/orders/service/OrderServiceTest.java:218-237 | a non-owner's cancel reports cancel failure and changes nothing, whatever the status |
| OrderLifecycle.CancelFollowsLifecycle | backend/src/test/java/org/example/backend/domain/orders/service/OrderServiceTest.java:218-237 | from PAYMENT_WAIT or ORDER_COMPLETE, cancel leaves the status unchanged or takes a transition of the lifecycle |
| OrderLifecycle.OrderService.Register | backend/src/test/java/org/example/backend/domain/orders/service/OrderServiceTest.java:69-94 | passes iff validation passes; the new order belongs to the caller, is in PAYMENT_WAIT, gets an identity not used before, and that identity is returned; a validation failure is passed on unchanged with no order saved |
| OrderLifecycle.OrderService.Complete | backend/src/test/java/org/example/backend/domain/orders/service/OrderServiceTest.java:97-202 | the result and the new order store are those of AfterComplete |
| OrderLifecycle.OrderService.Cancel | backend/src/test/java/org/example/backend/domain/orders/service/OrderServiceTest.java:204-237 | the result and the new order store are those of AfterCancel |
| Scenarios.ValidateWholeStock | backend/src/test/java/org/example/backend/domain/orders/validator/OrdersValidatorTest.java:43-60 | stock 5, quantity 5 inside the window passes |
| Scenarios.ValidateMissingEvent | backend/src/test/java/org/example/backend/domain/orders/validator/OrdersValidatorTest.java:62-80 | a missing board gives EventNotFound and removes only the caller's queue entry |
| Scenarios.ValidateExpiredEvent | backend/src/test/java/org/example/backend/domain/orders/validator/OrdersValidatorTest.java:82-102 | one minute after closing gives ExpiredEvent and keeps the queue |
| Scenarios.ValidateUnopenedEvent | backend/src/test/java/org/example/backend/domain/orders/validator/OrdersValidatorTest.java:104-124 | one minute before opening gives UnopenedEvent, keeps the queue and reads nothing |
| Scenarios.ValidateMissingProduct | backend/src/test/java/org/example/backend/domain/orders/validator/OrdersValidatorTest.java:126-147 | a missing product gives ProductNotFound and removes the queue entry |
| Scenarios.ValidateLackOfStock | backend/src/test/java/org/example/backend/domain/orders/validator/OrdersValidatorTest.java:149-169 | quantity 2 against stock 1 gives LackStock and removes the queue entry |
| Scenarios.RegisterReturnsSavedIdentity | backend/src/test/java/org/example/backend/domain/orders/service/OrderServiceTest.java:69-94 | register returns the identity of the saved order, which is the caller's and awaits payment |
| Scenarios.CompleteWithValidPayment | backend/src/test/java/org/example/backend/domain/orders/service/OrderServiceTest.java:97-125 | a good payment leaves the order ORDER_COMPLETE |
| Scenarios.CompleteWithFailedPayment | backend/src/test/java/org/example/backend/domain/orders/service/OrderServiceTest.java:128-162 | a payment that cannot be found gives payment failure and leaves the order ORDER_FAIL |
| Scenarios.CompleteMissingOrder | backend/src/test/java/org/example/backend/domain/orders/service/OrderServiceTest.java:166-181 | complete on a missing order gives not-found |
| Scenarios.CompleteByOtherUser | backend/src/test/java/org/example/backend/domain/orders/service/OrderServiceTest.java:184-202 | complete by a non-owner gives payment failure |
| Scenarios.CancelMissingOrder | backend/src/test/java/org/example/backend/domain/orders/service/OrderServiceTest.java:204-216 | cancel on a missing order gives not-found |
| Scenarios.CancelByOtherUser | backend/src/test/java/org/example/backend/domain/orders/service/OrderServiceTest.java:218-237 | cancel by a non-owner of a completed order gives cancel failure and keeps ORDER_COMPLETE |

## Left out

- OrderService.java is not part of this model. Only what its tests assert is modelled.
  The lifecycle's transition relation is the one in the design notes.
- OrderLifecycle.OrderService.Complete: does not check the order's current status before acting.
  The same holds for OrderLifecycle.OrderService.Cancel. No test calls either on an order in a
  terminal status, so the code's guard, if it has one, is unknown. The lifecycle lemmas are
  therefore stated from PAYMENT_WAIT (and from ORDER_COMPLETE for cancel).
- OrderLifecycle.AfterComplete: on an ownership mismatch, the model leaves the status unchanged.
  The test asserts only the error.
- OrderLifecycle.AfterComplete: a payment record that does not match the order is treated like a
  missing payment (ORDER_FAIL, payment failure), as the design notes describe. The tests cover
  only the lookup failure.
- Completion's point debit, the `usedPoint`/`totalPaidAmount` fields, and the stock decrement on
  register are left out. Their code is not shown and the tests do not assert them.
- Row locks, transactions and concurrent over-sell prevention are concurrency. A locked read is a
  plain map lookup, recorded in a ghost log.
- Queue join, admission order and queue creation are left out. Their code (`OrderQueueService`)
  is not shown. The queue is given its entries at construction.
- `LocalDateTime` calendar arithmetic is replaced by integer instants. The clock that
  `register` reads becomes its `now` parameter.
- The payment gateway (Iamport client, HTTP errors) is an abstract `PaymentLookup` input.
- Board and product CRUD, image upload to object storage, user accounts and mail are outside this model.
