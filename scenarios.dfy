/** The test scenarios of the validator and the order service, replayed on
    the model: each builds the repositories the test mocks and states what
    the test observes. */
module Scenarios {
  import opened Kinds
  import opened OrderQueue
  import opened OrdersValidation
  import opened OrderLifecycle

  /** Minutes since 2024-12-01T00:00, for instants in December 2024. */
  function Dec2024(day: int, hour: int, minute: int): int {
    ((day - 1) * 24 + hour) * 60 + minute
  }

  /** Board 1, open from 2024-12-23T08:30 to 2024-12-24T08:30. */
  function EventBoards(): map<int, Board> {
    map[1 := Board(Dec2024(23, 8, 30), Dec2024(24, 8, 30))]
  }

  /** Stock 5, quantity 5, observed 2024-12-24T06:30: accepted, queue untouched. */
  method ValidateWholeStock() returns (r: Outcome, entries: set<Entry>)
    ensures r == Pass && entries == {(1, 1)}
  {
    var q := new QueueService({(1, 1)});
    var v := new OrdersValidator(EventBoards(), map[1 := 5], q);
    r := v.ValidateOrder(OrderRequest(1, [Line(1, 5)]), 1, Dec2024(24, 6, 30));
    entries := q.entries;
  }

  /** No board 1: EventNotFound, and the user's queue entry is gone. */
  method ValidateMissingEvent() returns (r: Outcome, entries: set<Entry>)
    ensures r == Fail(EventNotFound) && entries == {(1, 2)}
  {
    var q := new QueueService({(1, 1), (1, 2)});
    var v := new OrdersValidator(map[], map[1 := 5], q);
    r := v.ValidateOrder(OrderRequest(1, [Line(1, 5)]), 1, Dec2024(24, 8, 29));
    entries := q.entries;
  }

  /** Observed 2024-12-24T08:31, one minute after closing: ExpiredEvent, queue kept. */
  method ValidateExpiredEvent() returns (r: Outcome, entries: set<Entry>)
    ensures r == Fail(ExpiredEvent) && entries == {(1, 1)}
  {
    var q := new QueueService({(1, 1)});
    var v := new OrdersValidator(EventBoards(), map[1 := 5], q);
    r := v.ValidateOrder(OrderRequest(1, [Line(1, 5)]), 1, Dec2024(24, 8, 31));
    entries := q.entries;
  }

  /** Board opening 2024-12-24T08:30, observed 08:29: UnopenedEvent, queue kept, nothing read. */
  method ValidateUnopenedEvent() returns (r: Outcome, entries: set<Entry>, ghost locked: seq<int>)
    ensures r == Fail(UnopenedEvent) && entries == {(1, 1)} && locked == []
  {
    var q := new QueueService({(1, 1)});
    var v := new OrdersValidator(map[1 := Board(Dec2024(24, 8, 30), Dec2024(25, 8, 30))], map[1 := 5], q);
    r := v.ValidateOrder(OrderRequest(1, [Line(1, 5)]), 1, Dec2024(24, 8, 29));
    entries := q.entries;
    locked := v.lockedReads;
  }

  /** Product 1 does not exist: ProductNotFound, queue entry gone. */
  method ValidateMissingProduct() returns (r: Outcome, entries: set<Entry>)
    ensures r == Fail(ProductNotFound) && entries == {}
  {
    var q := new QueueService({(1, 1)});
    var v := new OrdersValidator(map[1 := Board(Dec2024(23, 8, 30), Dec2024(25, 8, 30))], map[], q);
    r := v.ValidateOrder(OrderRequest(1, [Line(1, 5)]), 1, Dec2024(24, 8, 31));
    entries := q.entries;
  }

  /** Stock 1, quantity 2: LackStock, queue entry gone. */
  method ValidateLackOfStock() returns (r: Outcome, entries: set<Entry>)
    ensures r == Fail(LackStock) && entries == {}
  {
    var q := new QueueService({(1, 1)});
    var v := new OrdersValidator(EventBoards(), map[1 := 1], q);
    r := v.ValidateOrder(OrderRequest(1, [Line(1, 2)]), 1, Dec2024(24, 6, 30));
    entries := q.entries;
  }

  /** Register with a passing validation returns the identity of the saved
      order, which belongs to the caller and awaits payment. */
  method RegisterReturnsSavedIdentity() returns (r: Result<int>, saved: Order)
    ensures r.Ok? && saved == Order(1, PaymentWait)
  {
    var q := new QueueService({(1, 1)});
    var v := new OrdersValidator(EventBoards(), map[1 := 5, 2 := 5], q);
    var service := new OrderService(map[], 1, v);
    var req := OrderRequest(1, [Line(1, 1), Line(2, 2)]);
    ValidatePassesIff(v.boards, v.stock, req, Dec2024(24, 6, 30));
    r := service.Register(1, req, Dec2024(24, 6, 30));
    saved := service.orders[r.value];
  }

  /** Owned order awaiting payment, payment found and valid: ORDER_COMPLETE. */
  method CompleteWithValidPayment() returns (r: Outcome, status: Status)
    ensures r == Pass && status == OrderComplete
  {
    var q := new QueueService({});
    var v := new OrdersValidator(map[], map[], q);
    var service := new OrderService(map[1 := Order(1, PaymentWait)], 2, v);
    r := service.Complete(1, 1, Found(true));
    status := service.orders[1].status;
  }

  /** Owned order awaiting payment, payment lookup fails: PaymentFail, and the order is ORDER_FAIL. */
  method CompleteWithFailedPayment() returns (r: Outcome, status: Status)
    ensures r == Fail(PaymentFail) && status == OrderFail
  {
    var q := new QueueService({});
    var v := new OrdersValidator(map[], map[], q);
    var service := new OrderService(map[1 := Order(1, PaymentWait)], 2, v);
    r := service.Complete(1, 1, NotFound);
    status := service.orders[1].status;
  }

  /** No order 1: OrderNotFound. */
  method CompleteMissingOrder() returns (r: Outcome)
    ensures r == Fail(OrderNotFound)
  {
    var q := new QueueService({});
    var v := new OrdersValidator(map[], map[], q);
    var service := new OrderService(map[], 1, v);
    r := service.Complete(1, 1, Found(true));
  }

  /** Order 1 belongs to user 2, user 1 completes it: PaymentFail. */
  method CompleteByOtherUser() returns (r: Outcome)
    ensures r == Fail(PaymentFail)
  {
    var q := new QueueService({});
    var v := new OrdersValidator(map[], map[], q);
    var service := new OrderService(map[1 := Order(2, PaymentWait)], 2, v);
    r := service.Complete(1, 1, Found(true));
  }

  /** No order 1: cancel reports OrderNotFound. */
  method CancelMissingOrder() returns (r: Outcome)
    ensures r == Fail(OrderNotFound)
  {
    var q := new QueueService({});
    var v := new OrdersValidator(map[], map[], q);
    var service := new OrderService(map[], 1, v);
    r := service.Cancel(1, 1);
  }

  /** Completed order 1 belongs to user 2, user 1 cancels it: CancelFail, status kept. */
  method CancelByOtherUser() returns (r: Outcome, status: Status)
    ensures r == Fail(CancelFail) && status == OrderComplete
  {
    var q := new QueueService({});
    var v := new OrdersValidator(map[], map[], q);
    var service := new OrderService(map[1 := Order(2, OrderComplete)], 2, v);
    r := service.Cancel(1, 1);
    status := service.orders[1].status;
  }
}
