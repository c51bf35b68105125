/** Order validation: before an order is created, its board must exist and be
    open at the observation time, and every ordered line must name an existing
    product with enough stock. Three failure paths release the user's
    admission-queue entry before reporting the error; the two timing failures
    do not. */
module OrdersValidation {
  import opened Kinds
  import opened OrderQueue

  /** A sale event's open/close window; times are instants on one integer
      clock, and only their order matters. */
  datatype Board = Board(startedAt: int, endedAt: int)

  /** One `(productIdx, quantity)` line of an order request. */
  datatype Line = Line(productIdx: int, quantity: int)

  datatype OrderRequest = OrderRequest(boardIdx: int, lines: seq<Line>)

  // ---------------------------------------------------------------------
  // Specification of validateOrder, as functions of the repositories' contents

  /** `startedAt.isAfter(t)`: the event has not opened yet at `t`. */
  predicate Unopened(b: Board, t: int) { b.startedAt > t }

  /** `endedAt.isBefore(t)`: the event has closed already at `t`. */
  predicate Expired(b: Board, t: int) { b.endedAt < t }

  /** The check of one line against the stock read for its product. */
  function LineCheck(stock: map<int, int>, line: Line): (r: Outcome)
    ensures r.Fail? ==> r.kind == ProductNotFound || r.kind == LackStock
  {
    if line.productIdx !in stock then Fail(ProductNotFound)
    else if line.quantity > stock[line.productIdx] then Fail(LackStock)
    else Pass
  }

  /** The declarative form of "a line is acceptable". */
  predicate LineFits(stock: map<int, int>, line: Line) {
    line.productIdx in stock && line.quantity <= stock[line.productIdx]
  }

  /** The index of the first line that fails its check, or `|lines|` when none does. */
  function FirstFailing(stock: map<int, int>, lines: seq<Line>): (k: nat)
    ensures k <= |lines|
    ensures forall j :: 0 <= j < k ==> LineCheck(stock, lines[j]) == Pass
    ensures k < |lines| ==> LineCheck(stock, lines[k]).Fail?
    decreases |lines|
  {
    if |lines| == 0 then 0
    else if LineCheck(stock, lines[0]).Fail? then 0
    else 1 + FirstFailing(stock, lines[1..])
  }

  /** The per-line loop: the first failing line, in request order, decides. */
  function CheckLines(stock: map<int, int>, lines: seq<Line>): Outcome {
    var k := FirstFailing(stock, lines);
    if k == |lines| then Pass else LineCheck(stock, lines[k])
  }

  /** The verdict of validateOrder. */
  function Validate(boards: map<int, Board>, stock: map<int, int>, req: OrderRequest, t: int): Outcome {
    if req.boardIdx !in boards then Fail(EventNotFound)
    else if Unopened(boards[req.boardIdx], t) then Fail(UnopenedEvent)
    else if Expired(boards[req.boardIdx], t) then Fail(ExpiredEvent)
    else CheckLines(stock, req.lines)
  }

  /** The outcomes on which validation first removes the user's queue entry. */
  predicate ReleasesQueue(r: Outcome) {
    r == Fail(EventNotFound) || r == Fail(ProductNotFound) || r == Fail(LackStock)
  }

  function ProductIds(lines: seq<Line>): (ids: seq<int>)
    ensures |ids| == |lines|
    ensures forall i :: 0 <= i < |lines| ==> ids[i] == lines[i].productIdx
  {
    seq(|lines|, i requires 0 <= i < |lines| => lines[i].productIdx)
  }

  /** How many lines are read from the product repository: all of them up to
      and including the first failing one. */
  function LinesRead(stock: map<int, int>, lines: seq<Line>): (n: nat)
    ensures n <= |lines|
  {
    var k := FirstFailing(stock, lines);
    if k == |lines| then k else k + 1
  }

  /** The product ids read with a lock during validation, in read order. */
  function LockedProducts(boards: map<int, Board>, stock: map<int, int>, req: OrderRequest, t: int): seq<int> {
    if req.boardIdx !in boards
       || Unopened(boards[req.boardIdx], t)
       || Expired(boards[req.boardIdx], t)
    then []
    else ProductIds(req.lines[..LinesRead(stock, req.lines)])
  }

  /** The declarative acceptance condition. */
  predicate Admissible(boards: map<int, Board>, stock: map<int, int>, req: OrderRequest, t: int) {
    && req.boardIdx in boards
    && boards[req.boardIdx].startedAt <= t <= boards[req.boardIdx].endedAt
    && forall i :: 0 <= i < |req.lines| ==> LineFits(stock, req.lines[i])
  }

  // ---------------------------------------------------------------------
  // Properties of the specification

  lemma LineCheckPassesIff(stock: map<int, int>, line: Line)
    ensures LineCheck(stock, line) == Pass <==> LineFits(stock, line)
  {
  }

  /** Validation succeeds exactly when the board exists, the time lies in its
      closed window, and every line fits its product's stock. */
  lemma ValidatePassesIff(boards: map<int, Board>, stock: map<int, int>, req: OrderRequest, t: int)
    ensures Validate(boards, stock, req, t) == Pass <==> Admissible(boards, stock, req, t)
  {
  }

  /** A missing board is reported as EventNotFound whatever else the request holds. */
  lemma MissingBoard(boards: map<int, Board>, stock: map<int, int>, req: OrderRequest, t: int)
    requires req.boardIdx !in boards
    ensures Validate(boards, stock, req, t) == Fail(EventNotFound)
    ensures ReleasesQueue(Validate(boards, stock, req, t))
    ensures LockedProducts(boards, stock, req, t) == []
  {
  }

  /** Before the opening instant the request is UnopenedEvent, whatever the
      stock; the queue is kept and no product is read. The unopened check
      comes before the expired check. */
  lemma BeforeOpening(boards: map<int, Board>, stock: map<int, int>, req: OrderRequest, t: int)
    requires req.boardIdx in boards && t < boards[req.boardIdx].startedAt
    ensures Validate(boards, stock, req, t) == Fail(UnopenedEvent)
    ensures !ReleasesQueue(Validate(boards, stock, req, t))
    ensures LockedProducts(boards, stock, req, t) == []
  {
  }

  /** After the closing instant (and not before opening) the request is
      ExpiredEvent, whatever the stock; the queue is kept and no product is read. */
  lemma AfterClosing(boards: map<int, Board>, stock: map<int, int>, req: OrderRequest, t: int)
    requires req.boardIdx in boards
    requires boards[req.boardIdx].startedAt <= t && boards[req.boardIdx].endedAt < t
    ensures Validate(boards, stock, req, t) == Fail(ExpiredEvent)
    ensures !ReleasesQueue(Validate(boards, stock, req, t))
    ensures LockedProducts(boards, stock, req, t) == []
  {
  }

  /** Both window ends are inclusive: at `t == startedAt` and at `t == endedAt`
      the verdict is that of the lines alone. */
  lemma WindowBoundsInclusive(boards: map<int, Board>, stock: map<int, int>, req: OrderRequest, t: int)
    requires req.boardIdx in boards
    requires t == boards[req.boardIdx].startedAt || t == boards[req.boardIdx].endedAt
    requires boards[req.boardIdx].startedAt <= boards[req.boardIdx].endedAt
    ensures Validate(boards, stock, req, t) == CheckLines(stock, req.lines)
  {
  }

  /** Once the board is open, the error is that of the first failing line in
      request order, and the lines before it all fit. */
  lemma FirstFailingLineDecides(boards: map<int, Board>, stock: map<int, int>, req: OrderRequest, t: int, k: nat)
    requires req.boardIdx in boards
    requires boards[req.boardIdx].startedAt <= t <= boards[req.boardIdx].endedAt
    requires k < |req.lines| && !LineFits(stock, req.lines[k])
    requires forall j :: 0 <= j < k ==> LineFits(stock, req.lines[j])
    ensures Validate(boards, stock, req, t)
         == (if req.lines[k].productIdx !in stock then Fail(ProductNotFound) else Fail(LackStock))
    ensures ReleasesQueue(Validate(boards, stock, req, t))
    ensures LockedProducts(boards, stock, req, t) == ProductIds(req.lines[..k + 1])
  {
  }

  /** The first failing index is the least index whose line does not fit. */
  lemma FirstFailingIs(stock: map<int, int>, lines: seq<Line>, k: nat)
    requires k < |lines| && !LineFits(stock, lines[k])
    requires forall j :: 0 <= j < k ==> LineFits(stock, lines[j])
    ensures FirstFailing(stock, lines) == k
  {
  }

  /** Checking a concatenation is checking the first part, then the second part
      only when the first part passed. */
  lemma {:induction false} FirstFailingAppend(stock: map<int, int>, a: seq<Line>, b: seq<Line>)
    ensures FirstFailing(stock, a + b)
         == if FirstFailing(stock, a) < |a| then FirstFailing(stock, a) else |a| + FirstFailing(stock, b)
    decreases |a|
  {
    if |a| == 0 {
      assert a + b == b;
    } else {
      assert (a + b)[0] == a[0];
      assert (a + b)[1..] == a[1..] + b;
      FirstFailingAppend(stock, a[1..], b);
    }
  }

  lemma CheckLinesAppend(stock: map<int, int>, a: seq<Line>, b: seq<Line>)
    ensures CheckLines(stock, a + b)
         == if CheckLines(stock, a).Fail? then CheckLines(stock, a) else CheckLines(stock, b)
  {
    FirstFailingAppend(stock, a, b);
    var k := FirstFailing(stock, a);
    if k < |a| {
      assert (a + b)[k] == a[k];
    } else {
      var m := FirstFailing(stock, b);
      if m < |b| {
        assert (a + b)[|a| + m] == b[m];
      }
    }
  }

  /** Validation passes only when no line fails, and then every line's product
      is read exactly once, in request order; on a failing line the reads stop
      right after it. */
  lemma LockedProductsArePrefix(boards: map<int, Board>, stock: map<int, int>, req: OrderRequest, t: int)
    ensures |LockedProducts(boards, stock, req, t)| <= |req.lines|
    ensures LockedProducts(boards, stock, req, t) <= ProductIds(req.lines)
    ensures Validate(boards, stock, req, t) == Pass ==> LockedProducts(boards, stock, req, t) == ProductIds(req.lines)
  {
  }

  /** The queue entry is released exactly when the board is missing, or the
      board is open and some line does not fit. */
  lemma ReleasesQueueIff(boards: map<int, Board>, stock: map<int, int>, req: OrderRequest, t: int)
    ensures ReleasesQueue(Validate(boards, stock, req, t))
        <==> (req.boardIdx !in boards
              || (boards[req.boardIdx].startedAt <= t <= boards[req.boardIdx].endedAt
                  && exists i :: 0 <= i < |req.lines| && !LineFits(stock, req.lines[i])))
  {
  }

  // ---------------------------------------------------------------------
  // The validator component

  class OrdersValidator {
    /** Board repository contents: board id to its window. */
    var boards: map<int, Board>
    /** Product repository contents: product id to its current stock. */
    var stock: map<int, int>
    /** The product ids read with a lock so far, in read order. */
    ghost var lockedReads: seq<int>
    const queue: QueueService

    constructor (boards: map<int, Board>, stock: map<int, int>, queue: QueueService)
      ensures this.boards == boards && this.stock == stock && this.queue == queue
      ensures lockedReads == []
    {
      this.boards := boards;
      this.stock := stock;
      this.queue := queue;
      lockedReads := [];
    }

    /** A locked read of a product's stock; `None` when the product does not exist. */
    method FindStockWithLock(productIdx: int) returns (s: Option<int>)
      modifies this`lockedReads
      ensures s == (if productIdx in stock then Some(stock[productIdx]) else None)
      ensures lockedReads == old(lockedReads) + [productIdx]
    {
      lockedReads := lockedReads + [productIdx];
      s := if productIdx in stock then Some(stock[productIdx]) else None;
    }

    method ValidateOrder(req: OrderRequest, userIdx: int, t: int) returns (r: Outcome)
      modifies this`lockedReads, queue
      ensures r == Validate(boards, stock, req, t)
      ensures boards == old(boards) && stock == old(stock)
      ensures queue.entries
           == if ReleasesQueue(r) then old(queue.entries) - {(req.boardIdx, userIdx)} else old(queue.entries)
      ensures queue.exits
           == old(queue.exits) + if ReleasesQueue(r) then [(req.boardIdx, userIdx)] else []
      ensures lockedReads == old(lockedReads) + LockedProducts(boards, stock, req, t)
    {
      if req.boardIdx !in boards {
        queue.ExitQueue(req.boardIdx, userIdx);
        return Fail(EventNotFound);
      }
      var board := boards[req.boardIdx];
      if board.startedAt > t {
        return Fail(UnopenedEvent);
      }
      if board.endedAt < t {
        return Fail(ExpiredEvent);
      }
      var i := 0;
      while i < |req.lines|
        invariant 0 <= i <= |req.lines|
        invariant i <= FirstFailing(stock, req.lines)
        invariant lockedReads == old(lockedReads) + ProductIds(req.lines[..i])
        invariant queue.entries == old(queue.entries) && queue.exits == old(queue.exits)
      {
        var line := req.lines[i];
        assert ProductIds(req.lines[..i + 1]) == ProductIds(req.lines[..i]) + [line.productIdx];
        var found := FindStockWithLock(line.productIdx);
        if found.None? {
          FirstFailingIsHere(stock, req.lines, i);
          queue.ExitQueue(req.boardIdx, userIdx);
          return Fail(ProductNotFound);
        }
        if line.quantity > found.value {
          FirstFailingIsHere(stock, req.lines, i);
          queue.ExitQueue(req.boardIdx, userIdx);
          return Fail(LackStock);
        }
        i := i + 1;
      }
      assert req.lines[..i] == req.lines;
      return Pass;
    }
  }

  /** A line that fails, reached with every earlier line passing, is the first failing one. */
  lemma FirstFailingIsHere(stock: map<int, int>, lines: seq<Line>, i: nat)
    requires i < |lines| && i <= FirstFailing(stock, lines)
    requires LineCheck(stock, lines[i]).Fail?
    ensures FirstFailing(stock, lines) == i
  {
  }
}
