/** What holds of goods receipts in every run, however their steps interleave. */
module GoodsReceiptLaws {
  import opened Options
  import opened PostingRules
  import opened GoodsReceiptRules
  import opened GoodsReceipts
  import Texts

  // --- Received, accepted and in stock are the same ------------------------------------------------

  /** The quantity of all lots brought in for an order line, by the lines of one receipt. */
  function LotsOfLines(arrivals: seq<Arrival>, id: ReceiptId, lines: seq<Line>, orderLine: nat): int {
    if lines == [] then 0
    else
      var last := lines[|lines| - 1];
      LotsOfLines(arrivals, id, lines[..|lines| - 1], orderLine)
        + if last.orderLine == orderLine then ArrivedOn(arrivals, id, last.lineNo) else 0
  }

  /** And by all receipts, posted or not. */
  function LotsFor(arrivals: seq<Arrival>, receipts: seq<Receipt>, o: OrderId, orderLine: nat): int {
    if receipts == [] then 0
    else
      var last := |receipts| - 1;
      LotsFor(arrivals, receipts[..last], o, orderLine)
        + if receipts[last].order == o then LotsOfLines(arrivals, last, receipts[last].lines, orderLine) else 0
  }

  lemma {:induction false} LotsAreLines(t: Tables, id: ReceiptId, lines: seq<Line>, orderLine: nat)
    requires TablesOk(t) && id < |t.receipts| && lines <= t.receipts[id].lines
    ensures LotsOfLines(t.arrivals, id, lines, orderLine)
         == if t.receipts[id].status == ReceiptPosted then SumLines(lines, orderLine, AcceptedQuantity()) else 0
  {
    if lines == [] {
    } else {
      LotsAreLines(t, id, lines[..|lines| - 1], orderLine);
      assert ReceiptOk(t, id);
      assert LineOk(t.orders[t.receipts[id].order].lines, t.receipts[id].lines[|lines| - 1]);
      assert ArrivedOn(t.arrivals, id, |lines|) == Brings(t.receipts, id, |lines|);
    }
  }

  lemma {:induction false} LotsArePosted(t: Tables, n: nat, o: OrderId, orderLine: nat)
    requires TablesOk(t) && n <= |t.receipts|
    ensures LotsFor(t.arrivals, t.receipts[..n], o, orderLine)
        == PostedOn(t.receipts[..n], o, orderLine, AcceptedQuantity())
  {
    if n == 0 {
    } else {
      LotsArePosted(t, n - 1, o, orderLine);
      assert t.receipts[..n][..n - 1] == t.receipts[..n - 1];
      LotsAreLines(t, n - 1, t.receipts[n - 1].lines, orderLine);
    }
  }

  /**
   * Whatever posts at the same time: an order line has received exactly what its posted receipts
   * accepted, which is what the lots they created brought into stock; and it has returned exactly
   * what they rejected.
   */
  lemma {:induction false} ReceivedIsAcceptedIsStocked(steps: seq<Step>, o: OrderId, i: nat)
    requires o < |Run(steps).tables.orders| && i < |Run(steps).tables.orders[o].lines|
    ensures
      var t := Run(steps).tables;
      var line := t.orders[o].lines[i];
      && line.received == PostedOn(t.receipts, o, line.lineNo, AcceptedQuantity())
      && line.received == LotsFor(t.arrivals, t.receipts, o, line.lineNo)
      && line.returned == PostedOn(t.receipts, o, line.lineNo, RejectedQuantity())
  {
    Reachable(steps);
    var t := Run(steps).tables;
    assert OrderBooked(t, o);
    assert LineBooked(t.receipts, o, t.orders[o].lines[i]);
    LotsArePosted(t, |t.receipts|, o, t.orders[o].lines[i].lineNo);
    assert t.receipts[..|t.receipts|] == t.receipts;
  }

  // --- Never more than the limit --------------------------------------------------------------

  /** No posting ever reads a wider variance limit for an item than this one. */
  ghost predicate LimitedBy(steps: seq<Step>, limits: ItemId -> nat) {
    forall step :: step in steps && step.LockOrder? ==> forall item :: Variance(step.facts.item(item)) <= limits(item)
  }

  ghost predicate WithinLimits(t: Tables, limits: ItemId -> nat) {
    forall o, i :: 0 <= o < |t.orders| && 0 <= i < |t.orders[o].lines| ==> LineWithin(t.orders[o].lines[i], limits)
  }

  predicate LineWithin(line: OrderLine, limits: ItemId -> nat) {
    WithinReceivableLimit(line.ordered, line.received, limits(line.item))
  }

  ghost predicate WorksLimited(w: World, limits: ItemId -> nat) {
    forall p :: p in w.works && w.works[p].Judged? ==>
        forall item :: Variance(w.works[p].facts.item(item)) <= limits(item)
  }

  lemma {:induction false} WiderLimit(ordered: nat, total: int, limit: nat, wider: nat)
    requires WithinReceivableLimit(ordered, total, limit) && limit <= wider
    ensures WithinReceivableLimit(ordered, total, wider)
  {
    assert ordered * (10000 + limit) <= ordered * (10000 + wider);
  }

  lemma {:induction false} FindOwn(lines: seq<OrderLine>, i: nat)
    requires i < |lines| && forall j, k :: 0 <= j < k < |lines| ==> lines[j].lineNo != lines[k].lineNo
    ensures FindLine(lines, lines[i].lineNo) == Some(i)
  {
    if i == 0 {
    } else {
      assert lines[0].lineNo != lines[i].lineNo;
      FindOwn(lines[1..], i - 1);
    }
  }

  /** Judged under the order's lock to fit, a posting still fits when it commits. */
  lemma {:induction false} CommitWithin(
      order: Order, r: Receipt, mode: Mode, facts: Facts, i: nat, limits: ItemId -> nat)
    requires OrderOk(order) && LinesOk(order.lines, r.lines) && i < |order.lines|
    requires PlanProblem(order, r, facts, mode).None?
    requires LineWithin(order.lines[i], limits)
    requires forall item :: Variance(facts.item(item)) <= limits(item)
    ensures LineWithin(RecordedLine(order.lines[i], AddedByLine(r.lines)), limits)
  {
    var line := order.lines[i];
    AddedKeepsAll(r.lines, line.lineNo);
    if line.lineNo in AddedByLine(r.lines) {
      var j :| 0 <= j < |r.lines| && r.lines[j].orderLine == line.lineNo;
      AddedIs(r.lines, j);
      FindOwn(order.lines, i);
      AddedFits(order, r, mode, facts, i, j, limits);
    }
  }

  lemma {:induction false} AddedFits(
      order: Order, r: Receipt, mode: Mode, facts: Facts, i: nat, j: nat, limits: ItemId -> nat)
    requires LinesOk(order.lines, r.lines) && j < |r.lines| && i < |order.lines|
    requires FindLine(order.lines, r.lines[j].orderLine) == Some(i)
    requires PlanProblem(order, r, facts, mode).None?
    requires forall item :: Variance(facts.item(item)) <= limits(item)
    ensures WithinReceivableLimit(order.lines[i].ordered, order.lines[i].received + Accepted(r.lines[j]),
                limits(order.lines[i].item))
  {
    var line := order.lines[i];
    FitsWhenJudged(order, r, mode, facts, j);
    WiderLimit(line.ordered, line.received + Accepted(r.lines[j]), Variance(facts.item(line.item)), limits(line.item));
  }

  lemma {:induction false} FitsWhenJudged(order: Order, r: Receipt, mode: Mode, facts: Facts, j: nat)
    requires LinesOk(order.lines, r.lines) && j < |r.lines|
    requires PlanProblem(order, r, facts, mode).None?
    ensures FindLine(order.lines, r.lines[j].orderLine).Some?
    ensures var line := order.lines[FindLine(order.lines, r.lines[j].orderLine).value];
            line.item == r.lines[j].item
            && WithinReceivableLimit(line.ordered, line.received + Accepted(r.lines[j]),
                  Variance(facts.item(line.item)))
  {
    var judged := JudgedAgainst(order.lines, r, facts, mode == AsApproved);
    assert LineOk(order.lines, r.lines[j]);
    NothingRefused(judged, order.status, facts.active(r.location), r.day);
    assert judged[j].withinLimit;
  }

  lemma {:induction false} NothingRefused(judged: seq<JudgedLine>, status: OrderStatus, locationActive: bool, day: int)
    requires RefusalOf(judged, status, locationActive, day).None?
    ensures Receivable(status) && locationActive
    ensures forall i :: 0 <= i < |judged| ==> judged[i].withinLimit
  {
    RefusalIsFirst(judged, day);
    forall i | 0 <= i < |judged| ensures judged[i].withinLimit {
      assert LineRefusal(judged[i], day).None?;
    }
  }

  lemma {:induction false} AddedIs(lines: seq<Line>, j: nat)
    requires j < |lines|
    requires forall i, k :: 0 <= i < k < |lines| ==> lines[i].orderLine != lines[k].orderLine
    ensures lines[j].orderLine in AddedByLine(lines)
    ensures AddedByLine(lines)[lines[j].orderLine].accepted == Accepted(lines[j])
  {
    if j < |lines| - 1 { AddedIs(lines[..|lines| - 1], j); }
  }

  /** Apart from a commit, steps leave what was received alone; and nothing is received on a new order. */
  lemma {:induction false} OtherStepsReceiveNothing(w: World, step: Step)
    requires !step.Commit?
    ensures
      var orders := Take(w, step).tables.orders;
      && |w.tables.orders| <= |orders|
      && (forall o :: 0 <= o < |w.tables.orders| ==> orders[o].lines == w.tables.orders[o].lines)
      && forall o :: |w.tables.orders| <= o < |orders| ==> Fresh(orders[o])
  {}

  lemma {:induction false} NothingReceivedIsWithin(line: OrderLine, limits: ItemId -> nat)
    requires line.received == 0
    ensures LineWithin(line, limits)
  {
    assert line.ordered * (10000 + limits(line.item)) >= 0;
  }

  lemma {:induction false} CommitKeepsLimits(w: World, p: Processor, limits: ItemId -> nat)
    requires Inv(w) && WithinLimits(w.tables, limits) && WorksLimited(w, limits)
    ensures WithinLimits(Take(w, Commit(p)).tables, limits)
  {
    var t, n := w.tables, Take(w, Commit(p)).tables;
    if p in w.works && w.works[p].Judged? {
      var work := w.works[p];
      var o := t.receipts[work.receipt].order;
      assert WorkOk(t, work);
      assert OrderBooked(t, o);
      forall q, i | 0 <= q < |n.orders| && 0 <= i < |n.orders[q].lines|
        ensures LineWithin(n.orders[q].lines[i], limits)
      {
        assert LineWithin(t.orders[q].lines[i], limits);
        if q == o { CommitWithin(t.orders[o], t.receipts[work.receipt], work.mode, work.facts, i, limits); }
      }
    }
  }

  lemma {:induction false} TakeKeepsLimits(w: World, step: Step, limits: ItemId -> nat)
    requires Inv(w) && WithinLimits(w.tables, limits) && WorksLimited(w, limits)
    ensures WithinLimits(Take(w, step).tables, limits)
  {
    var orders := Take(w, step).tables.orders;
    if step.Commit? {
      CommitKeepsLimits(w, step.p, limits);
    } else {
      OtherStepsReceiveNothing(w, step);
      forall o, i | 0 <= o < |orders| && 0 <= i < |orders[o].lines| ensures LineWithin(orders[o].lines[i], limits) {
        if o < |w.tables.orders| {
          assert LineWithin(w.tables.orders[o].lines[i], limits);
        } else {
          assert Fresh(orders[o]);
          NothingReceivedIsWithin(orders[o].lines[i], limits);
        }
      }
    }
  }

  lemma {:induction false} TakeKeepsFacts(w: World, step: Step, limits: ItemId -> nat)
    requires WorksLimited(w, limits)
    requires step.LockOrder? ==> forall item :: Variance(step.facts.item(item)) <= limits(item)
    ensures WorksLimited(Take(w, step), limits)
  {
    var n := Take(w, step);
    forall p | p in n.works && n.works[p].Judged?
      ensures forall item :: Variance(n.works[p].facts.item(item)) <= limits(item)
    {
      assert (p in w.works && n.works[p] == w.works[p]) || (step.LockOrder? && n.works[p].facts == step.facts);
    }
  }

  /**
   * However many receipts post at once, they never together receive more of an item than was
   * ordered plus its variance limit, as long as the limit is not widened in between.
   */
  lemma {:induction false} NeverOverTheLimit(steps: seq<Step>, limits: ItemId -> nat)
    requires LimitedBy(steps, limits)
    ensures WithinLimits(Run(steps).tables, limits) && WorksLimited(Run(steps), limits)
  {
    if steps == [] {
    } else {
      var front, step := steps[..|steps| - 1], steps[|steps| - 1];
      assert step in steps && forall s :: s in front ==> s in steps;
      NeverOverTheLimit(front, limits);
      Reachable(front);
      TakeKeepsLimits(Run(front), step, limits);
      TakeKeepsFacts(Run(front), step, limits);
    }
  }

  // --- The order's status ---------------------------------------------------------------------

  lemma {:induction false} LinesNotNegative(orderLines: seq<OrderLine>, lines: seq<Line>, orderLine: nat)
    requires forall i :: 0 <= i < |lines| ==> LineOk(orderLines, lines[i])
    ensures SumLines(lines, orderLine, AcceptedQuantity()) >= 0
    ensures (exists i :: 0 <= i < |lines| && lines[i].orderLine == orderLine && Accepted(lines[i]) > 0) ==>
              SumLines(lines, orderLine, AcceptedQuantity()) > 0
  {
    if lines == [] {
    } else {
      LinesNotNegative(orderLines, lines[..|lines| - 1], orderLine);
    }
  }

  lemma {:induction false} PostedNotNegative(t: Tables, n: nat, o: OrderId, orderLine: nat)
    requires TablesOk(t) && n <= |t.receipts|
    ensures PostedOn(t.receipts[..n], o, orderLine, AcceptedQuantity()) >= 0
  {
    if n == 0 {
    } else {
      PostedNotNegative(t, n - 1, o, orderLine);
      assert t.receipts[..n][..n - 1] == t.receipts[..n - 1];
      assert ReceiptOk(t, n - 1);
      LinesNotNegative(t.orders[t.receipts[n - 1].order].lines, t.receipts[n - 1].lines, orderLine);
    }
  }

  lemma {:induction false} ReceivedNotNegative(t: Tables, o: OrderId, i: nat)
    requires TablesOk(t) && o < |t.orders| && i < |t.orders[o].lines|
    ensures t.orders[o].lines[i].received >= 0
  {
    assert OrderBooked(t, o);
    assert LineBooked(t.receipts, o, t.orders[o].lines[i]);
    PostedNotNegative(t, |t.receipts|, o, t.orders[o].lines[i].lineNo);
    assert t.receipts[..|t.receipts|] == t.receipts;
  }

  lemma {:induction false} RecordedReceived(orderLines: seq<OrderLine>, lines: seq<Line>, i: nat)
    requires LinesOk(orderLines, lines) && i < |orderLines|
    ensures RecordedLines(orderLines, AddedByLine(lines))[i].received
         == orderLines[i].received + SumLines(lines, orderLines[i].lineNo, AcceptedQuantity())
  {
    AddedKeepsAll(lines, orderLines[i].lineNo);
  }

  lemma {:induction false} SomethingIsRecorded(t: Tables, id: ReceiptId, j: nat) returns (i: nat)
    requires TablesOk(t) && Known(t, id) && j < |t.receipts[id].lines| && Accepted(t.receipts[id].lines[j]) > 0
    ensures var before := t.orders[t.receipts[id].order].lines;
            i < |before| && RecordedLines(before, AddedByLine(t.receipts[id].lines))[i].received > 0
  {
    var r := t.receipts[id];
    var before := t.orders[r.order].lines;
    assert LineOk(before, r.lines[j]);
    i := FindLine(before, r.lines[j].orderLine).value;
    RecordedReceived(before, r.lines, i);
    ReceivedNotNegative(t, r.order, i);
    LinesNotNegative(before, r.lines, before[i].lineNo);
  }

  lemma {:induction false} StatusOnceReceived(lines: seq<OrderLine>, facts: Facts, i: nat)
    requires i < |lines| && lines[i].received > 0
    ensures OrderStatusAfter(lines, facts) == Some(OrderReceived)
         || OrderStatusAfter(lines, facts) == Some(OrderPartiallyReceived)
  {}

  /** The status a posting gives its order. */
  lemma {:induction false} StatusAfterPost(t: Tables, id: ReceiptId, mode: Mode, actor: Person, facts: Facts)
    requires Known(t, id)
    ensures
      var order := t.orders[t.receipts[id].order];
      var status := OrderStatusAfter(RecordedLines(order.lines, AddedByLine(t.receipts[id].lines)), facts);
      AfterPost(t, id, mode, actor, facts).orders[t.receipts[id].order].status
      == if status.Some? then status.value else order.status
  {}

  /** A posting that accepts anything starts, or finishes, receiving its order. */
  lemma {:induction false} AcceptingStartsTheOrder(t: Tables, id: ReceiptId, mode: Mode, actor: Person, facts: Facts)
    requires TablesOk(t) && Known(t, id)
    requires var r := t.receipts[id];
             exists i :: 0 <= i < |r.lines| && Accepted(r.lines[i]) > 0
    ensures var status := AfterPost(t, id, mode, actor, facts).orders[t.receipts[id].order].status;
            status == OrderReceived || status == OrderPartiallyReceived
  {
    var r := t.receipts[id];
    var j :| 0 <= j < |r.lines| && Accepted(r.lines[j]) > 0;
    var i := SomethingIsRecorded(t, id, j);
    StatusOnceReceived(RecordedLines(t.orders[r.order].lines, AddedByLine(r.lines)), facts, i);
    StatusAfterPost(t, id, mode, actor, facts);
  }

  /** Nothing has been received on the order, and the receipt accepts nothing either. */
  predicate TurnedAway(order: Order, r: Receipt) {
    && (forall i :: 0 <= i < |order.lines| ==> order.lines[i].received == 0)
    && forall i :: 0 <= i < |r.lines| ==> Accepted(r.lines[i]) == 0
  }

  /** Some line of the order would not count as complete with nothing received on it. */
  predicate Awaited(order: Order, facts: Facts) {
    exists i :: 0 <= i < |order.lines|
      && !LineComplete(order.lines[i].ordered, 0, Variance(facts.item(order.lines[i].item)))
  }

  lemma {:induction false} TurnedAwayRecordsNothing(order: Order, r: Receipt)
    requires LinesOk(order.lines, r.lines) && TurnedAway(order, r)
    ensures forall i :: 0 <= i < |order.lines| ==>
              RecordedLines(order.lines, AddedByLine(r.lines))[i].received == 0
  {
    forall i | 0 <= i < |order.lines|
      ensures RecordedLines(order.lines, AddedByLine(r.lines))[i].received == 0
    {
      RecordedReceived(order.lines, r.lines, i);
      NothingAccepted(r.lines, order.lines[i].lineNo);
      LinesNotNegative(order.lines, r.lines, order.lines[i].lineNo);
    }
  }

  /**
   * A delivery turned away whole ought to leave its order as it was. It does exactly when some line
   * of the order is incomplete with nothing received; when every line's variance limit reaches down
   * to nothing, the order becomes received instead.
   */
  lemma {:induction false} TurnedAwayLeavesTheOrder(
    t: Tables, id: ReceiptId, mode: Mode, actor: Person, facts: Facts)
    requires Known(t, id)
    requires Receivable(t.orders[t.receipts[id].order].status)
    requires TurnedAway(t.orders[t.receipts[id].order], t.receipts[id])
    ensures
      var order := t.orders[t.receipts[id].order];
      var after := AfterPost(t, id, mode, actor, facts).orders[t.receipts[id].order];
      && (after.status == order.status <==> Awaited(order, facts))
      && after.status == if Awaited(order, facts) then order.status else OrderReceived
  {
    var order := t.orders[t.receipts[id].order];
    TurnedAwayRecordsNothing(order, t.receipts[id]);
    StatusAfterPost(t, id, mode, actor, facts);
    var lines := RecordedLines(order.lines, AddedByLine(t.receipts[id].lines));
    forall i | 0 <= i < |lines|
      ensures LineComplete(lines[i].ordered, lines[i].received, Variance(facts.item(lines[i].item)))
          <==> LineComplete(order.lines[i].ordered, 0, Variance(facts.item(order.lines[i].item)))
    {}
    assert |lines| == |order.lines|;
  }

  /** An item in use with a variance limit of 100%, and a location in use. */
  const LAX := Facts(_ => ItemFacts(true, false, 5, 0, Some(10000), None), _ => true)

  /** Ten ordered and sent; ten counted and all ten rejected, with a reason. */
  const REFUSED_WHOLE := Tables(
    [Order(OrderSent, 0, [OrderLine(1, 0, 0, 1, 10, 3, 0, 0)])],
    [Receipt(0, 0, 7, ReceiptDraft, 1, 4, None, None,
             [Line(1, 1, 0, 10, 10, None, None, None, false, None, Some("spoilt"), None, None)])],
    [])

  /** Such a receipt is clean and posts, and its order is received with nothing received on it. */
  lemma {:induction false} RefusedWholeIsReceived()
    ensures Known(REFUSED_WHOLE, 0)
    ensures PlanProblem(REFUSED_WHOLE.orders[0], REFUSED_WHOLE.receipts[0], LAX, Clean).None?
    ensures TurnedAway(REFUSED_WHOLE.orders[0], REFUSED_WHOLE.receipts[0])
    ensures
      var after := AfterPost(REFUSED_WHOLE, 0, Clean, 4, LAX).orders[0];
      after.status == OrderReceived && |after.lines| == 1 && after.lines[0].received == 0
  {
    var order, r := REFUSED_WHOLE.orders[0], REFUSED_WHOLE.receipts[0];
    assert FindLine(order.lines, 1) == Some(0);
    assert LineOk(order.lines, r.lines[0]);
    assert Known(REFUSED_WHOLE, 0);
    RefusedWholeIsClean();
    TurnedAwayRecordsNothing(order, r);
    TurnedAwayLeavesTheOrder(REFUSED_WHOLE, 0, Clean, 4, LAX);
  }

  lemma {:induction false} RefusedWholeIsClean()
    requires Known(REFUSED_WHOLE, 0)
    ensures PlanProblem(REFUSED_WHOLE.orders[0], REFUSED_WHOLE.receipts[0], LAX, Clean).None?
  {
    var order, r := REFUSED_WHOLE.orders[0], REFUSED_WHOLE.receipts[0];
    assert FindLine(order.lines, 1) == Some(0);
    var judged := JudgedAgainst(order.lines, r, LAX, false);
    assert judged[0].findings == [];
    Texts.TrimNothing("spoilt");
    assert LineRefusal(judged[0], r.day).None?;
    RefusalIsFirst(judged, r.day);
  }

  lemma {:induction false} NothingAccepted(lines: seq<Line>, orderLine: nat)
    requires forall i :: 0 <= i < |lines| ==> Accepted(lines[i]) <= 0
    ensures SumLines(lines, orderLine, AcceptedQuantity()) <= 0
  {
    if lines == [] {
    } else {
      NothingAccepted(lines[..|lines| - 1], orderLine);
    }
  }

  // --- Findings and approval ------------------------------------------------------------------

  /** A posted receipt had no finding, or somebody who did not create it approved what was found. */
  lemma {:induction false} PostedWasCleanOrApproved(steps: seq<Step>, id: ReceiptId)
    requires id < |Run(steps).tables.receipts| && Run(steps).tables.receipts[id].status == ReceiptPosted
    ensures
      var r := Run(steps).tables.receipts[id];
      && (forall i :: 0 <= i < |r.lines| ==> IsFixed(r.lines[i]))
      && ((forall i :: 0 <= i < |r.lines| ==> r.lines[i].findings == Some([]))
          || (r.approvedBy.Some? && r.approvedBy.value != r.createdBy))
  {
    Reachable(steps);
    assert ReceiptOk(Run(steps).tables, id);
    var r := Run(steps).tables.receipts[id];
    if r.approvedBy.None? {
      forall i | 0 <= i < |r.lines| ensures r.lines[i].findings == Some([]) {
        assert IsFixed(r.lines[i]) && !HasFinding(r.lines[i]);
      }
    }
  }

  /** Inspected with what its order line still expects, nothing is found on a line. */
  predicate NothingFound(order: Order, line: Line, day: int, facts: Facts) {
    && FindLine(order.lines, line.orderLine).Some?
    && var item := facts.item(line.item);
       Inspect(StillExpected(order, line), line.counted, line.temperature, line.damaged, line.supplierExpiry,
               day + item.shelfLifeDays, item) == []
  }

  function StillExpected(order: Order, line: Line): nat
    requires FindLine(order.lines, line.orderLine).Some?
  {
    Outstanding(order.lines[FindLine(order.lines, line.orderLine).value])
  }

  lemma {:induction false} CleanLine(order: Order, r: Receipt, facts: Facts, i: nat)
    requires LinesOk(order.lines, r.lines) && i < |r.lines|
    requires PlanProblem(order, r, facts, Clean).None?
    ensures NothingFound(order, r.lines[i], r.day, facts)
    ensures FixedLine(JudgedAgainst(order.lines, r, facts, false)[i])
         == r.lines[i].(expected := Some(StillExpected(order, r.lines[i])), findings := Some([]))
  {
    assert LineOk(order.lines, r.lines[i]);
    assert JudgedAgainst(order.lines, r, facts, false)[i].findings == [];
  }

  /** Between two states a clean receipt posted: nothing was found, and that is what is fixed on the line. */
  predicate PostedClean(t: Tables, after: Tables, id: ReceiptId, facts: Facts, i: nat) {
    && id < |t.receipts| == |after.receipts| && i < |t.receipts[id].lines| == |after.receipts[id].lines|
    && t.receipts[id].order < |t.orders|
    && var r, order := t.receipts[id], t.orders[t.receipts[id].order];
       && NothingFound(order, r.lines[i], r.day, facts)
       && after.receipts[id].status == ReceiptPosted
       && after.receipts[id].lines[i]
          == r.lines[i].(expected := Some(StillExpected(order, r.lines[i])), findings := Some([]))
  }

  lemma {:induction false} CleanPosts(t: Tables, id: ReceiptId, actor: Person, facts: Facts, i: nat)
    requires Known(t, id) && i < |t.receipts[id].lines|
    requires PlanProblem(t.orders[t.receipts[id].order], t.receipts[id], facts, Clean).None?
    ensures PostedClean(t, AfterPost(t, id, Clean, actor, facts), id, facts, i)
  {
    CleanLine(t.orders[t.receipts[id].order], t.receipts[id], facts, i);
  }

  lemma {:induction false} StillAsJudged(t: Tables, work: Work)
    requires WorkOk(t, work) && work.Judged?
    ensures PlanProblem(t.orders[t.receipts[work.receipt].order], t.receipts[work.receipt], work.facts, work.mode).None?
  {}

  lemma {:induction false} CommitWrites(w: World, p: Processor)
    requires p in w.works && w.works[p].Judged? && Known(w.tables, w.works[p].receipt)
    ensures Take(w, Commit(p)).tables
         == AfterPost(w.tables, w.works[p].receipt, w.works[p].mode, w.works[p].actor, w.works[p].facts)
  {}

  /**
   * A receipt that posts as clean is clean against its order as it stands at that moment, with the
   * order locked; that, and what was still expected then, is what is fixed on its lines.
   */
  lemma {:induction false} CleanWhenItPosts(steps: seq<Step>, p: Processor, i: nat)
    requires
      var w := Run(steps);
      && p in w.works && w.works[p].Judged? && w.works[p].mode == Clean
      && w.works[p].receipt < |w.tables.receipts| && i < |w.tables.receipts[w.works[p].receipt].lines|
    ensures
      var w := Run(steps);
      PostedClean(w.tables, Take(w, Commit(p)).tables, w.works[p].receipt, w.works[p].facts, i)
  {
    Reachable(steps);
    var w := Run(steps);
    StillAsJudged(w.tables, w.works[p]);
    CommitWrites(w, p);
    CleanPosts(w.tables, w.works[p].receipt, w.works[p].actor, w.works[p].facts, i);
  }

  // --- Nothing changes after submission -------------------------------------------------------

  predicate IsFinal(status: ReceiptStatus) {
    status == ReceiptPosted || status == ReceiptRejected
  }

  /** Once submitted, what was received, found and expected stays; decided for good, everything does. */
  predicate Frozen(before: Receipt, after: Receipt) {
    && (before.status != ReceiptDraft ==>
          && after.status != ReceiptDraft
          && after.lines == before.lines && after.day == before.day && after.order == before.order
          && after.createdBy == before.createdBy && after.submittedBy == before.submittedBy)
    && (before.approvedBy.Some? ==> after.approvedBy == before.approvedBy)
    && (IsFinal(before.status) ==> after == before)
  }

  lemma {:induction false} StepFreezes(w: World, step: Step, id: ReceiptId)
    requires Inv(w) && id < |w.tables.receipts|
    ensures id < |Take(w, step).tables.receipts|
    ensures Frozen(w.tables.receipts[id], Take(w, step).tables.receipts[id])
  {
    assert ReceiptOk(w.tables, id);
    if step.Commit? {
      CommitFreezes(w, step.p, id);
    } else if step.SubmitStep? {
      SubmitFreezes(w, step.id, step.revision, step.facts, step.actor, id);
    }
  }

  lemma {:induction false} SubmitFreezes(
      w: World, submitted: ReceiptId, revision: nat, facts: Facts, actor: Person, id: ReceiptId)
    requires id < |w.tables.receipts| && ReceiptOk(w.tables, id)
    ensures id < |Take(w, SubmitStep(submitted, revision, facts, actor)).tables.receipts|
    ensures Frozen(w.tables.receipts[id], Take(w, SubmitStep(submitted, revision, facts, actor)).tables.receipts[id])
  {}

  lemma {:induction false} CommitFreezes(w: World, p: Processor, id: ReceiptId)
    requires id < |w.tables.receipts| && (p in w.works ==> WorkOk(w.tables, w.works[p]))
    requires ReceiptOk(w.tables, id)
    ensures id < |Take(w, Commit(p)).tables.receipts|
    ensures Frozen(w.tables.receipts[id], Take(w, Commit(p)).tables.receipts[id])
  {}

  /** From the moment it is submitted, over any steps that follow. */
  lemma {:induction false} FrozenOnceSubmitted(steps: seq<Step>, more: seq<Step>, id: ReceiptId)
    requires id < |Run(steps).tables.receipts|
    ensures id < |Run(steps + more).tables.receipts|
    ensures Frozen(Run(steps).tables.receipts[id], Run(steps + more).tables.receipts[id])
  {
    if more == [] {
      assert steps + more == steps;
    } else {
      var front := more[..|more| - 1];
      FrozenOnceSubmitted(steps, front, id);
      Reachable(steps + front);
      StepFreezes(Run(steps + front), more[|more| - 1], id);
      OneMoreStep(steps, more);
      FrozenStill(Run(steps).tables.receipts[id], Run(steps + front).tables.receipts[id],
          Run(steps + more).tables.receipts[id]);
    }
  }

  lemma {:induction false} OneMoreStep(steps: seq<Step>, more: seq<Step>)
    requires more != []
    ensures Run(steps + more) == Take(Run(steps + more[..|more| - 1]), more[|more| - 1])
  {
    assert (steps + more)[..|steps + more| - 1] == steps + more[..|more| - 1];
  }

  lemma {:induction false} FrozenStill(a: Receipt, b: Receipt, c: Receipt)
    requires Frozen(a, b) && Frozen(b, c)
    ensures Frozen(a, c)
  {}
}
