/** The order lifecycle: `register` creates an order awaiting payment once
    validation passes; `complete` settles it against the payment gateway's
    answer; `cancel` cancels it. Ownership mismatches are reported as the
    operation's own failure kind (payment failure, cancel failure). */
module OrderLifecycle {
  import opened Kinds
  import opened OrderQueue
  import opened OrdersValidation

  datatype Status = PaymentWait | OrderComplete | OrderFail | OrderCancel

  /** An order as far as its lifecycle is concerned: who placed it and where it stands. */
  datatype Order = Order(owner: int, status: Status)

  /** What the payment gateway says about the payment named in a complete
      request: no such payment (the lookup raises), or a payment record that
      does or does not match the order. */
  datatype PaymentLookup = NotFound | Found(matches: bool)

  /** The transitions of the lifecycle's design diagram. */
  predicate Transition(from: Status, to: Status) {
    || (from == PaymentWait && to == OrderComplete)
    || (from == PaymentWait && to == OrderFail)
    || (from == PaymentWait && to == OrderCancel)
    || (from == OrderComplete && to == OrderCancel)
  }

  /** The answer of one operation together with the order store after it. */
  datatype Step = Step(outcome: Outcome, orders: map<int, Order>)

  /** The effect of `complete(user, orderIdx)` given the gateway's answer. */
  function AfterComplete(orders: map<int, Order>, user: int, orderIdx: int, payment: PaymentLookup): (s: Step)
    ensures s.orders.Keys == orders.Keys
    ensures forall k :: k in orders && k != orderIdx ==> s.orders[k] == orders[k]
    ensures orderIdx in orders ==> s.orders[orderIdx].owner == orders[orderIdx].owner
  {
    if orderIdx !in orders then Step(Fail(OrderNotFound), orders)
    else if orders[orderIdx].owner != user then Step(Fail(PaymentFail), orders)
    else if payment == Found(true) then
      Step(Pass, orders[orderIdx := orders[orderIdx].(status := OrderComplete)])
    else
      Step(Fail(PaymentFail), orders[orderIdx := orders[orderIdx].(status := OrderFail)])
  }

  /** The effect of `cancel(user, orderIdx)`. */
  function AfterCancel(orders: map<int, Order>, user: int, orderIdx: int): (s: Step)
    ensures s.orders.Keys == orders.Keys
    ensures forall k :: k in orders && k != orderIdx ==> s.orders[k] == orders[k]
    ensures orderIdx in orders ==> s.orders[orderIdx].owner == orders[orderIdx].owner
  {
    if orderIdx !in orders then Step(Fail(OrderNotFound), orders)
    else if orders[orderIdx].owner != user then Step(Fail(CancelFail), orders)
    else Step(Pass, orders[orderIdx := orders[orderIdx].(status := OrderCancel)])
  }

  // ---------------------------------------------------------------------
  // Properties of complete

  /** `complete` succeeds exactly when the order exists, the caller owns it and
      the payment is found and matches; the order is then ORDER_COMPLETE. */
  lemma CompleteSucceedsIff(orders: map<int, Order>, user: int, orderIdx: int, payment: PaymentLookup)
    ensures AfterComplete(orders, user, orderIdx, payment).outcome == Pass
        <==> orderIdx in orders && orders[orderIdx].owner == user && payment == Found(true)
    ensures AfterComplete(orders, user, orderIdx, payment).outcome == Pass
        ==> AfterComplete(orders, user, orderIdx, payment).orders[orderIdx].status == OrderComplete
  {
  }

  /** The failure kinds of `complete`: not-found exactly for a missing order,
      payment failure otherwise, ownership mismatches included. */
  lemma CompleteErrors(orders: map<int, Order>, user: int, orderIdx: int, payment: PaymentLookup)
    ensures var r := AfterComplete(orders, user, orderIdx, payment).outcome;
      && (r == Fail(OrderNotFound) <==> orderIdx !in orders)
      && (r == Fail(PaymentFail)
          <==> orderIdx in orders && (orders[orderIdx].owner != user || payment != Found(true)))
  {
  }

  /** A caller who does not own the order changes nothing, and in particular
      never completes it. */
  lemma CompleteByOtherUserChangesNothing(orders: map<int, Order>, user: int, orderIdx: int, payment: PaymentLookup)
    requires orderIdx in orders && orders[orderIdx].owner != user
    ensures AfterComplete(orders, user, orderIdx, payment) == Step(Fail(PaymentFail), orders)
  {
  }

  /** A failed payment on an owned order is recorded as ORDER_FAIL even though
      the call reports PaymentFail. */
  lemma FailedPaymentPersists(orders: map<int, Order>, user: int, orderIdx: int, payment: PaymentLookup)
    requires orderIdx in orders && orders[orderIdx].owner == user && payment != Found(true)
    ensures AfterComplete(orders, user, orderIdx, payment).outcome == Fail(PaymentFail)
    ensures AfterComplete(orders, user, orderIdx, payment).orders[orderIdx].status == OrderFail
  {
  }

  /** Started from PAYMENT_WAIT, whatever `complete` does to the order's status
      is a transition of the lifecycle diagram or no change at all. */
  lemma CompleteFollowsLifecycle(orders: map<int, Order>, user: int, orderIdx: int, payment: PaymentLookup)
    requires orderIdx in orders && orders[orderIdx].status == PaymentWait
    ensures var after := AfterComplete(orders, user, orderIdx, payment).orders[orderIdx].status;
      after == PaymentWait || Transition(PaymentWait, after)
  {
  }

  // ---------------------------------------------------------------------
  // Properties of cancel

  lemma CancelOutcomes(orders: map<int, Order>, user: int, orderIdx: int)
    ensures var s := AfterCancel(orders, user, orderIdx);
      && (s.outcome == Fail(OrderNotFound) <==> orderIdx !in orders)
      && (s.outcome == Fail(CancelFail) <==> orderIdx in orders && orders[orderIdx].owner != user)
      && (s.outcome == Pass <==> orderIdx in orders && orders[orderIdx].owner == user)
      && (s.outcome == Pass ==> s.orders[orderIdx].status == OrderCancel)
  {
  }

  /** A non-owner's cancel, in whatever status the order is, changes nothing. */
  lemma CancelByOtherUserChangesNothing(orders: map<int, Order>, user: int, orderIdx: int)
    requires orderIdx in orders && orders[orderIdx].owner != user
    ensures AfterCancel(orders, user, orderIdx) == Step(Fail(CancelFail), orders)
  {
  }

  /** Started from PAYMENT_WAIT or ORDER_COMPLETE, `cancel` follows the diagram or changes nothing. */
  lemma CancelFollowsLifecycle(orders: map<int, Order>, user: int, orderIdx: int)
    requires orderIdx in orders
    requires orders[orderIdx].status == PaymentWait || orders[orderIdx].status == OrderComplete
    ensures var after := AfterCancel(orders, user, orderIdx).orders[orderIdx].status;
      after == orders[orderIdx].status || Transition(orders[orderIdx].status, after)
  {
  }

  // ---------------------------------------------------------------------
  // The service component

  class OrderService {
    /** Order repository contents: order id to order. */
    var orders: map<int, Order>
    /** The identity the repository assigns to the next saved order. */
    var nextIdx: int
    const validator: OrdersValidator

    ghost predicate Valid()
      reads this
    {
      forall k :: k in orders ==> k < nextIdx
    }

    constructor (orders: map<int, Order>, nextIdx: int, validator: OrdersValidator)
      requires forall k :: k in orders ==> k < nextIdx
      ensures Valid()
      ensures this.orders == orders && this.nextIdx == nextIdx && this.validator == validator
    {
      this.orders := orders;
      this.nextIdx := nextIdx;
      this.validator := validator;
    }

    /** `register(user, request)` at time `now`: validates the request and, when
        validation passes, saves a new order awaiting payment and returns its
        identity. A validation failure is passed on as it is. */
    method Register(user: int, req: OrderRequest, now: int) returns (r: Result<int>)
      requires Valid()
      modifies this, validator`lockedReads, validator.queue
      ensures Valid()
      ensures var v := Validate(old(validator.boards), old(validator.stock), req, now);
        && (r.Ok? <==> v == Pass)
        && (r.Err? ==> v == Fail(r.kind) && orders == old(orders))
      ensures r.Ok? ==> r.value !in old(orders) && orders == old(orders)[r.value := Order(user, PaymentWait)]
      ensures validator.queue.entries
           == if r.Err? && ReleasesQueue(Fail(r.kind))
              then old(validator.queue.entries) - {(req.boardIdx, user)}
              else old(validator.queue.entries)
    {
      var v := validator.ValidateOrder(req, user, now);
      if v.Fail? {
        return Err(v.kind);
      }
      var idx := nextIdx;
      orders := orders[idx := Order(user, PaymentWait)];
      nextIdx := nextIdx + 1;
      return Ok(idx);
    }

    /** `complete(user, request)` for order `orderIdx`, with the gateway's
        answer about the request's payment. */
    method Complete(user: int, orderIdx: int, payment: PaymentLookup) returns (r: Outcome)
      requires Valid()
      modifies this`orders
      ensures Valid()
      ensures Step(r, orders) == AfterComplete(old(orders), user, orderIdx, payment)
    {
      if orderIdx !in orders {
        return Fail(OrderNotFound);
      }
      var order := orders[orderIdx];
      if order.owner != user {
        return Fail(PaymentFail);
      }
      if payment.NotFound? || !payment.matches {
        orders := orders[orderIdx := order.(status := OrderFail)];
        return Fail(PaymentFail);
      }
      orders := orders[orderIdx := order.(status := OrderComplete)];
      return Pass;
    }

    /** `cancel(user, orderIdx)`. */
    method Cancel(user: int, orderIdx: int) returns (r: Outcome)
      requires Valid()
      modifies this`orders
      ensures Valid()
      ensures Step(r, orders) == AfterCancel(old(orders), user, orderIdx)
    {
      if orderIdx !in orders {
        return Fail(OrderNotFound);
      }
      var order := orders[orderIdx];
      if order.owner != user {
        return Fail(CancelFail);
      }
      orders := orders[orderIdx := order.(status := OrderCancel)];
      return Pass;
    }
  }
}
