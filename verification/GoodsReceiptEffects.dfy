/** What each step of a goods receipt lets through and writes, said of the receipt's own lines. */
module GoodsReceiptEffects {
  import opened Options
  import opened PostingRules
  import opened Ledger
  import opened GoodsReceiptRules
  import opened GoodsReceipts
  import Texts

  // --- The lots a posting brings in -------------------------------------------------------------

  /** The earlier of the supplier's date and the item's own shelf life from the receipt's day. */
  function ExpiryOf(line: Line, day: int, item: ItemFacts): int {
    match line.supplierExpiry
    case None => day + item.shelfLifeDays
    case Some(date) => if date <= day + item.shelfLifeDays then date else day + item.shelfLifeDays
  }

  /** The lot of a line: what was accepted of it, at its order line's cost, where the receipt was taken. */
  predicate BringsIn(a: Arrival, id: ReceiptId, r: Receipt, line: Line, orderLine: OrderLine, item: ItemFacts) {
    && line.counted > line.rejected && orderLine.lineNo == line.orderLine
    && a.receipt == id
    && a.lot.lineNo == line.lineNo && a.lot.item == line.item && a.lot.location == r.location
    && a.lot.amount.quantity == line.counted - line.rejected
    && a.lot.amount.pieces == (match (line.countedPieces, line.rejectedPieces)
                               case (Some(counted), Some(rejected)) => Some(counted - rejected)
                               case _ => None)
    && a.lot.unitCost == orderLine.unitCost
    && a.lot.expiry == ExpiryOf(line, r.day, item)
  }

  /** The arrival is that of the line whose number it carries, one of the first `n`. */
  predicate ComesFrom(a: Arrival, id: ReceiptId, r: Receipt, orderLines: seq<OrderLine>, facts: Facts, n: nat)
    requires n <= |r.lines|
  {
    && 1 <= a.lot.lineNo <= n
    && var line := r.lines[a.lot.lineNo - 1];
       && FindLine(orderLines, line.orderLine).Some?
       && BringsIn(a, id, r, line, orderLines[FindLine(orderLines, line.orderLine).value], facts.item(line.item))
  }

  predicate HasArrival(arrivals: seq<Arrival>, lineNo: nat) {
    exists k :: 0 <= k < |arrivals| && arrivals[k].lot.lineNo == lineNo
  }

  /** The arrivals of the first lines of a receipt: in line order, each from its line, and none left out. */
  ghost predicate ArrivalsAre(
      arrivals: seq<Arrival>, id: ReceiptId, r: Receipt, orderLines: seq<OrderLine>, facts: Facts, n: nat)
    requires n <= |r.lines|
  {
    && (forall k :: 0 <= k < |arrivals| ==> ComesFrom(arrivals[k], id, r, orderLines, facts, n))
    && (forall j, k :: 0 <= j < k < |arrivals| ==> arrivals[j].lot.lineNo < arrivals[k].lot.lineNo)
    && forall i :: 0 <= i < n && r.lines[i].counted > r.lines[i].rejected ==> HasArrival(arrivals, i + 1)
  }

  lemma {:induction false} JudgedBringsIn(
      id: ReceiptId, r: Receipt, orderLines: seq<OrderLine>, facts: Facts, stored: bool, i: nat)
    requires LinesOk(orderLines, r.lines) && i < |r.lines| && r.lines[i].counted > r.lines[i].rejected
    ensures
      var lot := LotFrom(JudgedAgainst(orderLines, r, facts, stored)[i], r.location);
      ComesFrom(Arrival(id, lot), id, r, orderLines, facts, i + 1)
  {
    assert LineOk(orderLines, r.lines[i]);
  }

  lemma {:induction false} ArrivalsStay(
      arrivals: seq<Arrival>, id: ReceiptId, r: Receipt, orderLines: seq<OrderLine>, facts: Facts, n: nat)
    requires n < |r.lines| && r.lines[n].counted <= r.lines[n].rejected
    requires ArrivalsAre(arrivals, id, r, orderLines, facts, n)
    ensures ArrivalsAre(arrivals, id, r, orderLines, facts, n + 1)
  {
    forall k | 0 <= k < |arrivals| ensures ComesFrom(arrivals[k], id, r, orderLines, facts, n + 1) {
      assert ComesFrom(arrivals[k], id, r, orderLines, facts, n);
    }
  }

  lemma {:induction false} ArrivalsGrow(
      arrivals: seq<Arrival>, a: Arrival, id: ReceiptId, r: Receipt, orderLines: seq<OrderLine>, facts: Facts, n: nat)
    requires n < |r.lines| && a.lot.lineNo == n + 1
    requires ArrivalsAre(arrivals, id, r, orderLines, facts, n)
    requires ComesFrom(a, id, r, orderLines, facts, n + 1)
    ensures ArrivalsAre(arrivals + [a], id, r, orderLines, facts, n + 1)
  {
    var after := arrivals + [a];
    forall k | 0 <= k < |arrivals| ensures ComesFrom(after[k], id, r, orderLines, facts, n + 1) {
      assert ComesFrom(arrivals[k], id, r, orderLines, facts, n);
    }
    forall i | 0 <= i < n + 1 && r.lines[i].counted > r.lines[i].rejected ensures HasArrival(after, i + 1) {
      if i < n {
        var k :| 0 <= k < |arrivals| && arrivals[k].lot.lineNo == i + 1;
        assert after[k] == arrivals[k];
      } else {
        assert after[|arrivals|] == a;
      }
    }
  }

  lemma {:induction false} LotsAreOfLines(
      id: ReceiptId, r: Receipt, orderLines: seq<OrderLine>, facts: Facts, stored: bool, n: nat)
    requires LinesOk(orderLines, r.lines) && n <= |r.lines|
    ensures ArrivalsAre(ArrivalsOf(id, LotsOf(JudgedAgainst(orderLines, r, facts, stored)[..n], r.location)), id, r,
                        orderLines, facts, n)
  {
    if n == 0 {
    } else {
      var judged := JudgedAgainst(orderLines, r, facts, stored);
      LotsAreOfLines(id, r, orderLines, facts, stored, n - 1);
      var before := ArrivalsOf(id, LotsOf(judged[..n - 1], r.location));
      MoreLots(judged, id, r.location, n);
      assert judged[n - 1].line == r.lines[n - 1];
      if Accepted(r.lines[n - 1]) > 0 {
        JudgedBringsIn(id, r, orderLines, facts, stored, n - 1);
        ArrivalsGrow(before, Arrival(id, LotFrom(judged[n - 1], r.location)), id, r, orderLines, facts, n - 1);
      } else {
        ArrivalsStay(before, id, r, orderLines, facts, n - 1);
      }
    }
  }

  lemma {:induction false} MoreLots(judged: seq<JudgedLine>, id: ReceiptId, location: LocationId, n: nat)
    requires 0 < n <= |judged|
    ensures Accepted(judged[n - 1].line) > 0 ==>
              ArrivalsOf(id, LotsOf(judged[..n], location))
              == ArrivalsOf(id, LotsOf(judged[..n - 1], location)) + [Arrival(id, LotFrom(judged[n - 1], location))]
    ensures Accepted(judged[n - 1].line) <= 0 ==>
              ArrivalsOf(id, LotsOf(judged[..n], location)) == ArrivalsOf(id, LotsOf(judged[..n - 1], location))
  {
    assert judged[..n][..n - 1] == judged[..n - 1];
  }

  /**
   * A posting brings in one lot for each line with anything accepted, in line order and from no other:
   * the accepted quantity and pieces, at the cost ordered, good until the earlier of the two dates.
   */
  lemma {:induction false} LotsComeIn(t: Tables, id: ReceiptId, mode: Mode, actor: Person, facts: Facts)
    requires Known(t, id)
    ensures
      var r, after := t.receipts[id], AfterPost(t, id, mode, actor, facts);
      && |t.arrivals| <= |after.arrivals| && after.arrivals[..|t.arrivals|] == t.arrivals
      && ArrivalsAre(after.arrivals[|t.arrivals|..], id, r, t.orders[r.order].lines, facts, |r.lines|)
  {
    var r := t.receipts[id];
    var judged := JudgedAgainst(t.orders[r.order].lines, r, facts, mode == AsApproved);
    LotsAreOfLines(id, r, t.orders[r.order].lines, facts, mode == AsApproved, |r.lines|);
    assert judged[..|r.lines|] == judged;
  }

  // --- When a receipt goes through --------------------------------------------------------------

  /** What is still to come of an order line; nothing once more was received than ordered. */
  function StillToCome(line: OrderLine): int {
    if line.received <= line.ordered then line.ordered - line.received else 0
  }

  /** What was found on a line: as it was fixed for its approver, or as it is found now. */
  function FoundOn(line: Line, orderLine: OrderLine, day: int, item: ItemFacts, mode: Mode): seq<Finding> {
    match (mode, line.findings)
    case (AsApproved, Some(findings)) => findings
    case _ =>
      Inspect(StillToCome(orderLine), line.counted, line.temperature, line.damaged, line.supplierExpiry,
              day + item.shelfLifeDays, item)
  }

  predicate GivesAReason(line: Line) {
    line.reason.Some? && exists i :: 0 <= i < |line.reason.value| && !Texts.IsSpace(line.reason.value[i])
  }

  lemma {:induction false} BlankMeans(line: Line)
    ensures Blank(line.reason) <==> !GivesAReason(line)
  {
    if line.reason.Some? {
      var from, to := Texts.TrimIs(line.reason.value);
    }
  }

  /** Nothing stands against a line: it can be received as it is, on that day. */
  predicate LineCanPost(line: Line, orderLine: OrderLine, day: int, item: ItemFacts, mode: Mode) {
    && item.active
    && (item.maxTemperature.Some? ==> line.temperature.Some?)
    && (FoundOn(line, orderLine, day, item, mode) != [] || line.rejected > 0 ==> GivesAReason(line))
    && (line.counted > line.rejected ==> ExpiryOf(line, day, item) >= day)
    && (orderLine.received + line.counted - line.rejected) * 10000
       <= orderLine.ordered * (10000 + if item.maxVariance.Some? then item.maxVariance.value else 0)
  }

  lemma {:induction false} LineRefusedWhen(orderLines: seq<OrderLine>, line: Line, facts: Facts, day: int, mode: Mode)
    requires LineOk(orderLines, line)
    ensures
      var orderLine, item := orderLines[FindLine(orderLines, line.orderLine).value], facts.item(line.item);
      var refusal := LineRefusal(Judge(orderLines, line, facts, day, mode == AsApproved), day);
      && (refusal.None? <==> LineCanPost(line, orderLine, day, item, mode))
      && (refusal == Some(InactiveItem(line.lineNo)) <==> !item.active)
      && (refusal == Some(TemperatureRequired(line.lineNo)) ==>
            item.maxTemperature.Some? && line.temperature.None?)
      && (refusal == Some(ReasonRequired(line.lineNo)) ==>
            !GivesAReason(line) && (FoundOn(line, orderLine, day, item, mode) != [] || line.rejected > 0))
      && (refusal == Some(ExpiredOnArrival(line.lineNo)) ==>
            line.counted > line.rejected && ExpiryOf(line, day, item) < day)
      && (refusal.Some? ==>
            refusal.value in {InactiveItem(line.lineNo), TemperatureRequired(line.lineNo),
                              ReasonRequired(line.lineNo), ExpiredOnArrival(line.lineNo), OverReceipt(line.lineNo)})
      && Judge(orderLines, line, facts, day, mode == AsApproved).findings
         == FoundOn(line, orderLine, day, item, mode)
  {
    BlankMeans(line);
  }

  /** A receipt can be posted against its order as it stands. */
  predicate CanPost(order: Order, r: Receipt, facts: Facts, mode: Mode)
    requires LinesOk(order.lines, r.lines)
  {
    && r.lines != []
    && (order.status == OrderApproved || order.status == OrderSent || order.status == OrderPartiallyReceived)
    && facts.active(r.location)
    && forall i :: 0 <= i < |r.lines| ==>
         && LineOk(order.lines, r.lines[i])
         && LineCanPost(r.lines[i], order.lines[FindLine(order.lines, r.lines[i].orderLine).value], r.day,
                        facts.item(r.lines[i].item), mode)
  }

  predicate NothingIsFound(order: Order, r: Receipt, facts: Facts, mode: Mode)
    requires LinesOk(order.lines, r.lines)
  {
    forall i :: 0 <= i < |r.lines| ==>
      && LineOk(order.lines, r.lines[i])
      && FoundOn(r.lines[i], order.lines[FindLine(order.lines, r.lines[i].orderLine).value], r.day,
                 facts.item(r.lines[i].item), mode) == []
  }

  lemma {:induction false} CheckedWhen(order: Order, r: Receipt, facts: Facts, mode: Mode)
    requires LinesOk(order.lines, r.lines)
    ensures Check(order, r, facts, mode == AsApproved).None? <==> CanPost(order, r, facts, mode)
    ensures NeedsApproval(JudgedAgainst(order.lines, r, facts, mode == AsApproved))
       <==> !NothingIsFound(order, r, facts, mode)
  {
    var judged := JudgedAgainst(order.lines, r, facts, mode == AsApproved);
    RefusalIsFirst(judged, r.day);
    forall i | 0 <= i < |r.lines|
      ensures
        var orderLine := order.lines[FindLine(order.lines, r.lines[i].orderLine).value];
        && (LineRefusal(judged[i], r.day).None?
            <==> LineCanPost(r.lines[i], orderLine, r.day, facts.item(r.lines[i].item), mode))
        && judged[i].findings == FoundOn(r.lines[i], orderLine, r.day, facts.item(r.lines[i].item), mode)
    {
      assert LineOk(order.lines, r.lines[i]);
      LineRefusedWhen(order.lines, r.lines[i], facts, r.day, mode);
    }
  }

  /**
   * A posting is let through under its order's lock exactly when order, location and every line allow
   * it and, unless somebody approved it, nothing is found.
   */
  lemma {:induction false} PostsWhen(order: Order, r: Receipt, facts: Facts, mode: Mode)
    requires LinesOk(order.lines, r.lines)
    ensures PlanProblem(order, r, facts, mode).None?
       <==> CanPost(order, r, facts, mode) && (mode == Clean ==> NothingIsFound(order, r, facts, Clean))
  {
    CheckedWhen(order, r, facts, mode);
  }

  // --- Submitting, deciding and editing -----------------------------------------------------------

  /** One receipt is now this one, at its next revision, and all else is as it was. */
  predicate OnlyReceipt(t: Tables, after: Tables, id: ReceiptId, r: Receipt) {
    && id < |t.receipts| == |after.receipts| && after.orders == t.orders && after.arrivals == t.arrivals
    && after.receipts[id] == r.(revision := t.receipts[id].revision + 1)
    && forall i :: 0 <= i < |t.receipts| && i != id ==> after.receipts[i] == t.receipts[i]
  }

  /** A receipt at the revision somebody saw, with the status a step asks for. */
  predicate IsAt(t: Tables, id: ReceiptId, revision: nat, status: ReceiptStatus) {
    id < |t.receipts| && t.receipts[id].revision == revision && t.receipts[id].status == status
  }

  /** What was found and expected is written on a line. */
  predicate FixedAs(line: Line, fixed: Line, orderLine: OrderLine, day: int, item: ItemFacts) {
    fixed == line.(expected := Some(StillToCome(orderLine)),
                   findings := Some(FoundOn(line, orderLine, day, item, Clean)))
  }

  /**
   * A draft that could be posted is submitted: with nothing found it is left to be posted, else it
   * waits for an approver with what was found and expected on every line.
   */
  lemma {:induction false} SubmitDecides(t: Tables, id: ReceiptId, revision: nat, facts: Facts, actor: Person)
    requires id < |t.receipts| ==> Known(t, id)
    ensures
      AfterSubmit(t, id, revision, facts, actor).Success? <==>
        IsAt(t, id, revision, ReceiptDraft) && CanPost(t.orders[t.receipts[id].order], t.receipts[id], facts, Clean)
    ensures AfterSubmit(t, id, revision, facts, actor).Success? ==>
        var r, order := t.receipts[id], t.orders[t.receipts[id].order];
        var submission := AfterSubmit(t, id, revision, facts, actor).value;
        && (submission.clean <==> NothingIsFound(order, r, facts, Clean))
        && (submission.clean ==> submission.tables == t)
        && (!submission.clean ==>
              && id < |submission.tables.receipts|
              && var lines := submission.tables.receipts[id].lines;
                 && OnlyReceipt(t, submission.tables, id,
                      r.(status := ReceiptSubmitted, submittedBy := Some(actor), lines := lines))
                 && |lines| == |r.lines|
                 && forall i :: 0 <= i < |lines| ==>
                      && LineOk(order.lines, r.lines[i])
                      && FixedAs(r.lines[i], lines[i], order.lines[FindLine(order.lines, r.lines[i].orderLine).value],
                                 r.day, facts.item(r.lines[i].item)))
  {
    if IsAt(t, id, revision, ReceiptDraft) {
      var r, order := t.receipts[id], t.orders[t.receipts[id].order];
      CheckedWhen(order, r, facts, Clean);
      forall i | 0 <= i < |r.lines|
        ensures LineOk(order.lines, r.lines[i])
        ensures
          FixedAs(r.lines[i], Fixed(JudgedAgainst(order.lines, r, facts, false))[i],
                  order.lines[FindLine(order.lines, r.lines[i].orderLine).value], r.day, facts.item(r.lines[i].item))
      {
        assert LineOk(order.lines, r.lines[i]);
        LineRefusedWhen(order.lines, r.lines[i], facts, r.day, Clean);
      }
    }
  }

  /** Approval: of a receipt as submitted, by anybody but its creator. */
  lemma {:induction false} ApproveDecides(t: Tables, id: ReceiptId, revision: nat, actor: Person)
    ensures
      AfterApprove(t, id, revision, actor).Success? <==>
        IsAt(t, id, revision, ReceiptSubmitted) && t.receipts[id].createdBy != actor
    ensures AfterApprove(t, id, revision, actor).Success? ==>
        OnlyReceipt(t, AfterApprove(t, id, revision, actor).value, id,
                    t.receipts[id].(status := ReceiptApproved, approvedBy := Some(actor)))
  {}

  /** A submitted or approved receipt is rejected with a reason. */
  lemma {:induction false} RejectDecides(t: Tables, id: ReceiptId, revision: nat, reason: string)
    ensures
      AfterReject(t, id, revision, reason).Success? <==>
        && reason != ""
        && (IsAt(t, id, revision, ReceiptSubmitted) || IsAt(t, id, revision, ReceiptApproved))
    ensures AfterReject(t, id, revision, reason).Success? ==>
        OnlyReceipt(t, AfterReject(t, id, revision, reason).value, id, t.receipts[id].(status := ReceiptRejected))
  {}

  /** An order something can be received on. */
  predicate TakesDeliveries(t: Tables, o: OrderId) {
    o < |t.orders| && t.orders[o].status in {OrderApproved, OrderSent, OrderPartiallyReceived}
  }

  /** A receipt is drafted exactly for such an order and lines that can be entered on it, where the order goes. */
  lemma {:induction false} CreateDecides(
      t: Tables, o: OrderId, inputs: seq<LineInput>, facts: Facts, day: int, actor: Person)
    ensures
      AfterCreate(t, o, inputs, facts, day, actor).Success? <==>
        TakesDeliveries(t, o) && AreEntered(t.orders[o], inputs, facts)
    ensures AfterCreate(t, o, inputs, facts, day, actor).Success? ==>
        var after, id := AfterCreate(t, o, inputs, facts, day, actor).value, |t.receipts|;
        && after.orders == t.orders && after.arrivals == t.arrivals
        && |after.receipts| == |t.receipts| + 1 && after.receipts[..id] == t.receipts
        && var r := after.receipts[id];
           && r == Receipt(o, t.orders[o].location, day, ReceiptDraft, 1, actor, None, None, r.lines)
           && LinesAreStored(t.orders[o], inputs, r.lines)
  {
    if o < |t.orders| { LinesEnteredWhen(t.orders[o], inputs, facts); }
  }

  /** A draft is changed exactly at the revision its editor saw, in its day, its lines, or both. */
  lemma {:induction false} UpdateDecides(
      t: Tables, id: ReceiptId, revision: nat, day: Option<int>, inputs: Option<seq<LineInput>>, facts: Facts)
    ensures
      AfterUpdate(t, id, revision, day, inputs, facts).Success? <==>
        && IsAt(t, id, revision, ReceiptDraft)
        && (inputs.Some? ==>
              TakesDeliveries(t, t.receipts[id].order)
              && AreEntered(t.orders[t.receipts[id].order], inputs.value, facts))
    ensures AfterUpdate(t, id, revision, day, inputs, facts).Success? ==>
        var after := AfterUpdate(t, id, revision, day, inputs, facts).value;
        && id < |after.receipts|
        && OnlyReceipt(t, after, id, t.receipts[id].(day := after.receipts[id].day, lines := after.receipts[id].lines))
        && after.receipts[id].day == (match day case None => t.receipts[id].day case Some(given) => given)
        && (inputs.None? ==> after.receipts[id].lines == t.receipts[id].lines)
        && (inputs.Some? ==>
              t.receipts[id].order < |t.orders|
              && LinesAreStored(t.orders[t.receipts[id].order], inputs.value, after.receipts[id].lines))
  {
    if id < |t.receipts| && t.receipts[id].order < |t.orders| && inputs.Some? {
      LinesEnteredWhen(t.orders[t.receipts[id].order], inputs.value, facts);
    }
  }

  /** A posting begins with a clean draft, or with an approved receipt, at the revision somebody saw. */
  lemma {:induction false} PostingBeginsWhen(t: Tables, id: ReceiptId, revision: nat, mode: Mode)
    ensures PostProblem(t, id, revision, mode).None? <==>
        match mode
        case Clean => IsAt(t, id, revision, ReceiptDraft)
        case AsApproved => IsAt(t, id, revision, ReceiptApproved)
  {}

  /** A posted receipt: as approved, or as submitted just now with what was found written on its lines. */
  lemma {:induction false} ReceiptIsPosted(t: Tables, id: ReceiptId, mode: Mode, actor: Person, facts: Facts)
    requires Known(t, id)
    ensures
      var r, after := t.receipts[id], AfterPost(t, id, mode, actor, facts);
      && |after.receipts| == |t.receipts| && |after.orders| == |t.orders|
      && (forall i :: 0 <= i < |t.receipts| && i != id ==> after.receipts[i] == t.receipts[i])
      && (forall o :: 0 <= o < |t.orders| && o != r.order ==> after.orders[o] == t.orders[o])
      && after.receipts[id].status == ReceiptPosted && after.receipts[id].revision == r.revision + 1
      && (mode == AsApproved ==>
            after.receipts[id] == r.(status := ReceiptPosted, revision := r.revision + 1))
      && (mode == Clean ==>
            && after.receipts[id]
               == r.(status := ReceiptPosted, revision := r.revision + 1, submittedBy := Some(actor),
                     lines := after.receipts[id].lines)
            && |after.receipts[id].lines| == |r.lines|
            && forall i :: 0 <= i < |r.lines| ==>
                 && LineOk(t.orders[r.order].lines, r.lines[i])
                 && FixedAs(r.lines[i], after.receipts[id].lines[i],
                      t.orders[r.order].lines[FindLine(t.orders[r.order].lines, r.lines[i].orderLine).value], r.day,
                      facts.item(r.lines[i].item)))
  {
    var r, order := t.receipts[id], t.orders[t.receipts[id].order];
    forall i | 0 <= i < |r.lines|
      ensures LineOk(order.lines, r.lines[i])
      ensures
        FixedAs(r.lines[i], Fixed(JudgedAgainst(order.lines, r, facts, false))[i],
                order.lines[FindLine(order.lines, r.lines[i].orderLine).value], r.day, facts.item(r.lines[i].item))
    {
      assert LineOk(order.lines, r.lines[i]);
      LineRefusedWhen(order.lines, r.lines[i], facts, r.day, Clean);
    }
  }

  /** What the order of a receipt has become when its lots are in: received, begun, or as it was. */
  lemma {:induction false} OrderFollows(t: Tables, id: ReceiptId, mode: Mode, actor: Person, facts: Facts)
    requires Known(t, id)
    ensures
      var o := t.receipts[id].order;
      var before, after := t.orders[o], AfterPost(t, id, mode, actor, facts).orders[o];
      && after.location == before.location && |after.lines| == |before.lines|
      && (after.status == OrderReceived || after.status == OrderPartiallyReceived || after.status == before.status)
      && ((forall i :: 0 <= i < |after.lines| ==> IsComplete(after.lines[i], facts.item(after.lines[i].item))) ==>
            after.status == OrderReceived)
      && ((exists i :: 0 <= i < |after.lines| && !IsComplete(after.lines[i], facts.item(after.lines[i].item))) ==>
            after.status == if exists i :: 0 <= i < |after.lines| && after.lines[i].received != 0
                            then OrderPartiallyReceived else before.status)
  {
    var o := t.receipts[id].order;
    var after := AfterPost(t, id, mode, actor, facts).orders[o];
    forall i | 0 <= i < |after.lines|
      ensures IsComplete(after.lines[i], facts.item(after.lines[i].item))
         <==> LineComplete(after.lines[i].ordered, after.lines[i].received, Variance(facts.item(after.lines[i].item)))
    {}
  }

  /** What was received comes within the item's limit of what was ordered. */
  predicate IsComplete(line: OrderLine, item: ItemFacts) {
    line.received * 10000 >= line.ordered * (10000 - if item.maxVariance.Some? then item.maxVariance.value else 0)
  }

  // --- Lines as they are entered ----------------------------------------------------------------

  /** Pieces are counted for variable weight alone, and agree with what was accepted and rejected. */
  predicate PiecesAgree(input: LineInput, variableWeight: bool) {
    if !variableWeight then input.countedPieces.None? && input.rejectedPieces.None?
    else
      && input.countedPieces.Some?
      && var counted := input.countedPieces.value;
         var rejected := if input.rejectedPieces.Some? then input.rejectedPieces.value else 0;
         && counted > 0 && 0 <= rejected <= counted
         && (input.rejected > 0 <==> rejected > 0)
         && (input.counted > input.rejected <==> counted > rejected)
  }

  /** An input that can be received on its order line. */
  predicate CanBeEntered(input: LineInput, orderLine: OrderLine, item: ItemFacts) {
    && item.active && (input.unit == orderLine.unit || input.unit == item.baseUnit)
    && input.counted > 0 && 0 <= input.rejected <= input.counted
    && PiecesAgree(input, item.variableWeight)
  }

  /** So many units that hold so much each. */
  function InBase(units: int, size: nat): int {
    if size == 0 then 0 else InBase(units, size - 1) + units
  }

  lemma {:induction false} InBaseIs(units: int, size: nat)
    ensures InBase(units, size) == units * size
  {
    if size == 0 {
    } else {
      InBaseIs(units, size - 1);
    }
  }

  /** `line` is `input` in base quantities, with nothing expected or found yet. */
  predicate StoredAs(input: LineInput, lineNo: nat, orderLine: OrderLine, line: Line) {
    var size := if input.unit == orderLine.unit then orderLine.factor else 1;
    && line.lineNo == lineNo && line.orderLine == input.orderLine && line.item == orderLine.item
    && line.counted == InBase(input.counted, size) && line.rejected == InBase(input.rejected, size)
    && line.countedPieces == input.countedPieces
    && (input.rejectedPieces.Some? ==> line.rejectedPieces == input.rejectedPieces)
    && (input.rejectedPieces.None? ==> line.rejectedPieces == if input.countedPieces.Some? then Some(0) else None)
    && line.temperature == input.temperature && line.damaged == input.damaged
    && line.supplierExpiry == input.supplierExpiry && line.reason == input.reason
    && line.expected == None && line.findings == None
  }

  /** A line is stored exactly when its order line is known, not taken yet, and the input can be received on it. */
  lemma {:induction false} LineEnteredWhen(order: Order, input: LineInput, lineNo: nat, seen: set<nat>, facts: Facts)
    ensures
      var at := FindLine(order.lines, input.orderLine);
      && (ValidLine(order, input, lineNo, seen, facts).Success? <==>
            && at.Some? && input.orderLine !in seen
            && CanBeEntered(input, order.lines[at.value], facts.item(order.lines[at.value].item)))
      && (ValidLine(order, input, lineNo, seen, facts).Success? ==>
            at.Some? && StoredAs(input, lineNo, order.lines[at.value],
                                 ValidLine(order, input, lineNo, seen, facts).value))
      && (ValidLine(order, input, lineNo, seen, facts).Failure? ==>
            ValidLine(order, input, lineNo, seen, facts).error.lineNo == lineNo)
  {
    var at := FindLine(order.lines, input.orderLine);
    if at.Some? {
      var size := if input.unit == order.lines[at.value].unit then order.lines[at.value].factor else 1;
      InBaseIs(input.counted, size);
      InBaseIs(input.rejected, size);
    }
  }

  predicate IsEntered(order: Order, input: LineInput, facts: Facts) {
    && FindLine(order.lines, input.orderLine).Some?
    && var orderLine := order.lines[FindLine(order.lines, input.orderLine).value];
       CanBeEntered(input, orderLine, facts.item(orderLine.item))
  }

  predicate AreEntered(order: Order, inputs: seq<LineInput>, facts: Facts) {
    && (forall i :: 0 <= i < |inputs| ==> IsEntered(order, inputs[i], facts))
    && forall i, j :: 0 <= i < j < |inputs| ==> inputs[i].orderLine != inputs[j].orderLine
  }

  predicate LinesAreStored(order: Order, inputs: seq<LineInput>, lines: seq<Line>) {
    && |lines| == |inputs|
    && forall i :: 0 <= i < |inputs| ==>
         && FindLine(order.lines, inputs[i].orderLine).Some?
         && StoredAs(inputs[i], i + 1, order.lines[FindLine(order.lines, inputs[i].orderLine).value], lines[i])
  }

  /** The lines of a receipt are stored exactly when each can be and no two are for one order line. */
  lemma {:induction false} LinesEnteredWhen(order: Order, inputs: seq<LineInput>, facts: Facts)
    ensures ValidLines(order, inputs, facts).Success? <==> AreEntered(order, inputs, facts)
    ensures ValidLines(order, inputs, facts).Success? ==>
        LinesAreStored(order, inputs, ValidLines(order, inputs, facts).value)
  {
    if inputs == [] {
    } else {
      var front, last := inputs[..|inputs| - 1], inputs[|inputs| - 1];
      LinesEnteredWhen(order, front, facts);
      LastLine(order, inputs, facts);
      if ValidLines(order, front, facts).Success? {
        TakenOrderLines(front, ValidLines(order, front, facts).value);
      }
      EnteredLast(order, front, last, facts);
      assert inputs == front + [last];
    }
  }

  lemma {:induction false} LastLine(order: Order, inputs: seq<LineInput>, facts: Facts)
    requires inputs != []
    ensures
      var front, last := inputs[..|inputs| - 1], inputs[|inputs| - 1];
      var before, all := ValidLines(order, front, facts), ValidLines(order, inputs, facts);
      && (all.Success? <==>
            before.Success? && IsEntered(order, last, facts) && last.orderLine !in OrderLinesOf(before.value))
      && (all.Success? ==>
            && |all.value| == |inputs| && all.value[..|front|] == before.value
            && FindLine(order.lines, last.orderLine).Some?
            && StoredAs(last, |inputs|, order.lines[FindLine(order.lines, last.orderLine).value], all.value[|front|]))
  {
    var front, last := inputs[..|inputs| - 1], inputs[|inputs| - 1];
    if ValidLines(order, front, facts).Success? {
      LineEnteredWhen(order, last, |inputs|, OrderLinesOf(ValidLines(order, front, facts).value), facts);
    }
  }

  lemma {:induction false} EnteredLast(order: Order, front: seq<LineInput>, last: LineInput, facts: Facts)
    ensures AreEntered(order, front + [last], facts) <==>
        && AreEntered(order, front, facts) && IsEntered(order, last, facts)
        && forall i :: 0 <= i < |front| ==> front[i].orderLine != last.orderLine
  {
    var all := front + [last];
    assert all[|front|] == last && forall i :: 0 <= i < |front| ==> all[i] == front[i];
  }

  lemma {:induction false} TakenOrderLines(inputs: seq<LineInput>, lines: seq<Line>)
    requires |lines| == |inputs| && forall i :: 0 <= i < |inputs| ==> lines[i].orderLine == inputs[i].orderLine
    ensures forall n :: n in OrderLinesOf(lines) <==> exists i :: 0 <= i < |inputs| && inputs[i].orderLine == n
  {
    forall n | exists i :: 0 <= i < |inputs| && inputs[i].orderLine == n ensures n in OrderLinesOf(lines) {
      var i :| 0 <= i < |inputs| && inputs[i].orderLine == n;
      assert lines[i] in lines;
    }
  }

  // --- One at a time --------------------------------------------------------------------------------

  /**
   * With no other posting under way, locking the receipt, judging it under its order's lock and
   * committing posts it exactly when it may begin and is let through, and else leaves all as it was.
   */
  lemma {:induction false} AloneItIsPosted(
      w: World, p: Processor, id: ReceiptId, revision: nat, mode: Mode, actor: Person, facts: Facts)
    requires Inv(w) && w.works == map[]
    ensures
      var n := Take(Take(Take(w, LockReceipt(p, id, revision, mode, actor)), LockOrder(p, facts)), Commit(p));
      if && IsAt(w.tables, id, revision, if mode == Clean then ReceiptDraft else ReceiptApproved) && Known(w.tables, id)
         && PlanProblem(w.tables.orders[w.tables.receipts[id].order], w.tables.receipts[id], facts, mode).None?
      then n == World(AfterPost(w.tables, id, mode, actor, facts), map[])
      else n == w
  {
    var t := w.tables;
    var locked := Take(w, LockReceipt(p, id, revision, mode, actor));
    if PostProblem(t, id, revision, mode).None? {
      assert ReceiptOk(t, id);
      assert locked.works == map[p := Holding(id, mode, actor)];
      assert map[p := Holding(id, mode, actor)] - {p} == map[];
      var judged := Take(locked, LockOrder(p, facts));
      if PlanProblem(t.orders[t.receipts[id].order], t.receipts[id], facts, mode).None? {
        assert judged.works
            == map[p := Judged(id, mode, actor, facts, t.receipts[id].order, t.orders[t.receipts[id].order])];
        assert judged.works - {p} == map[];
      }
    }
  }

  /** A decision takes effect at once when nobody holds its receipt; a refused one changes nothing. */
  lemma {:induction false} DecisionsTakeEffect(
      w: World, id: ReceiptId, revision: nat, facts: Facts, actor: Person, reason: string)
    requires Inv(w) && ReceiptFree(w, id)
    ensures
      var approved := AfterApprove(w.tables, id, revision, actor);
      Take(w, ApproveStep(id, revision, actor)) == if approved.Success? then w.(tables := approved.value) else w
    ensures
      var rejected := AfterReject(w.tables, id, revision, reason);
      Take(w, RejectStep(id, revision, reason)) == if rejected.Success? then w.(tables := rejected.value) else w
    ensures id < |w.tables.receipts| ==>
      && Known(w.tables, id)
      && var submitted := AfterSubmit(w.tables, id, revision, facts, actor);
         Take(w, SubmitStep(id, revision, facts, actor))
         == if submitted.Success? then w.(tables := submitted.value.tables) else w
  {
    if id < |w.tables.receipts| { assert ReceiptOk(w.tables, id); }
  }

  /** So do orders, drafts and their changes. */
  lemma {:induction false} DraftsTakeEffect(
      w: World, order: Order, o: OrderId, status: OrderStatus, id: ReceiptId, revision: nat, day: int,
      newDay: Option<int>, inputs: seq<LineInput>, newInputs: Option<seq<LineInput>>, facts: Facts, actor: Person)
    ensures Fresh(order) ==>
        Take(w, PlaceOrder(order)) == w.(tables := w.tables.(orders := w.tables.orders + [order]))
    ensures o < |w.tables.orders| && OrderFree(w, o) ==>
        Take(w, MoveOrder(o, status))
        == w.(tables := w.tables.(orders := w.tables.orders[o := w.tables.orders[o].(status := status)]))
    ensures
      var created := AfterCreate(w.tables, o, inputs, facts, day, actor);
      Take(w, GoodsReceipts.CreateStep(o, inputs, facts, day, actor))
      == if created.Success? then w.(tables := created.value) else w
    ensures ReceiptFree(w, id) ==>
      var updated := AfterUpdate(w.tables, id, revision, newDay, newInputs, facts);
      Take(w, UpdateStep(id, revision, newDay, newInputs, facts))
      == if updated.Success? then w.(tables := updated.value) else w
  {}
}
