/**
 * The goods receipts service working on its tables (goods-receipts.service.ts), with the order lines
 * it updates through the purchase orders service. Each operation does what the transactions of
 * `GoodsReceipts` say, and so keeps their invariant.
 */
module GoodsReceiptService {
  import opened Options
  import opened PostingRules
  import Ledger
  import opened GoodsReceiptRules
  import opened GoodsReceipts

  /** Tables whose receipts all fit their orders. */
  ghost predicate AllKnown(t: Tables) {
    forall id :: 0 <= id < |t.receipts| ==> Known(t, id)
  }

  function WithFixed(lines: seq<Line>, judged: seq<JudgedLine>, n: nat): seq<Line>
    requires n <= |lines| == |judged|
  {
    Fixed(judged[..n]) + lines[n..]
  }

  lemma {:induction false} FixOneMore(lines: seq<Line>, judged: seq<JudgedLine>, n: nat)
    requires n < |lines| == |judged| && judged[n].line == lines[n]
    ensures WithFixed(lines, judged, n)[n] == lines[n]
    ensures WithFixed(lines, judged, n)
              [n := lines[n].(expected := Some(judged[n].expected), findings := Some(judged[n].findings))]
         == WithFixed(lines, judged, n + 1)
  {}

  /** What a posting writes, table by table. */
  lemma {:induction false} AfterPostIs(
      t: Tables, id: ReceiptId, mode: Mode, actor: Person, facts: Facts, judged: seq<JudgedLine>)
    requires Known(t, id)
    requires judged == JudgedAgainst(t.orders[t.receipts[id].order].lines, t.receipts[id], facts, mode == AsApproved)
    ensures
      var n := AfterPost(t, id, mode, actor, facts);
      var r := t.receipts[id];
      var lines := RecordedLines(t.orders[r.order].lines, AddedByLine(r.lines));
      var status := OrderStatusAfter(lines, facts);
      && n.orders == t.orders[r.order := t.orders[r.order].(
           lines := lines, status := if status.Some? then status.value else t.orders[r.order].status)]
      && n.receipts == t.receipts[id := PostedReceipt(r, judged, mode, actor).(revision := r.revision + 1)]
      && n.arrivals == t.arrivals + ArrivalsOf(id, LotsOf(judged, r.location))
  {}

  lemma {:induction false} RecordedOneMore(lines: seq<OrderLine>, added: map<nat, Added>, done: map<nat, Added>, k: nat)
    requires k in added && k !in done
    ensures RecordedLines(RecordedLines(lines, done), map[k := added[k]]) == RecordedLines(lines, done[k := added[k]])
  {}

  class GoodsReceiptDesk {
    var orders: seq<Order>
    var receipts: seq<Receipt>
    var arrivals: seq<Arrival>

    constructor ()
      ensures Stored() == Tables([], [], []) && Valid()
    {
      orders, receipts, arrivals := [], [], [];
    }

    function Stored(): Tables
      reads this
    {
      Tables(orders, receipts, arrivals)
    }

    ghost predicate Valid()
      reads this
    {
      TablesOk(Stored())
    }

    lemma {:induction false} ValidIsKnown()
      requires Valid()
      ensures AllKnown(Stored())
    {
      forall id | 0 <= id < |receipts| ensures Known(Stored(), id) {
        assert ReceiptOk(Stored(), id);
      }
    }

    /** Computes `ValidLines`; `seen` holds the order lines of the lines accepted so far. */
    method CheckedLines(order: Order, inputs: seq<LineInput>, facts: Facts) returns (r: Result<seq<Line>, LineError>)
      ensures r == ValidLines(order, inputs, facts)
    {
      var seen: set<nat> := {};
      var lines: seq<Line> := [];
      for i := 0 to |inputs|
        invariant ValidLines(order, inputs[..i], facts) == Success(lines)
        invariant seen == OrderLinesOf(lines)
      {
        assert inputs[..i + 1][..i] == inputs[..i];
        var line := ValidLine(order, inputs[i], i + 1, seen, facts);
        if line.Failure? {
          ghost var n := i + 1;
          FirstProblemStays(order, inputs, n, facts);
          return Failure(line.error);
        }
        lines := lines + [line.value];
        seen := seen + {line.value.orderLine};
      }
      assert inputs[..|inputs|] == inputs;
      r := Success(lines);
    }

    method LinesForOrder(order: OrderId, inputs: seq<LineInput>, facts: Facts) returns (r: Result<seq<Line>, Problem>)
      ensures r == LinesFor(Stored(), order, inputs, facts)
    {
      if order >= |orders| { return Failure(UnknownPurchaseOrder); }
      if !Receivable(orders[order].status) { return Failure(PurchaseOrderNotReceivable); }
      var lines := CheckedLines(orders[order], inputs, facts);
      match lines
      case Failure(error) => return Failure(InvalidLine(error));
      case Success(value) => return Success(value);
    }

    method Create(
        order: OrderId, inputs: seq<LineInput>, facts: Facts, day: int, actor: Person)
        returns (problem: Option<Problem>)
      requires Valid()
      modifies this
      ensures Valid()
      ensures var r := AfterCreate(old(Stored()), order, inputs, facts, day, actor);
              Stored() == Or(old(Stored()), r) && problem == if r.Success? then None else Some(r.error)
    {
      ghost var before := Stored();
      var lines := LinesForOrder(order, inputs, facts);
      if lines.Failure? { return Some(lines.error); }
      receipts := receipts
          + [Receipt(order, orders[order].location, day, ReceiptDraft, 1, actor, None, None, lines.value)];
      CreateKeeps(before, order, inputs, facts, day, actor);
      assert Stored() == AfterCreate(before, order, inputs, facts, day, actor).value;
      problem := None;
    }

    method Update(id: ReceiptId, revision: nat, day: Option<int>, inputs: Option<seq<LineInput>>, facts: Facts)
      returns (problem: Option<Problem>)
      requires Valid()
      modifies this
      ensures Valid()
      ensures var r := AfterUpdate(old(Stored()), id, revision, day, inputs, facts);
              Stored() == Or(old(Stored()), r) && problem == if r.Success? then None else Some(r.error)
    {
      ghost var before := Stored();
      if id >= |receipts| { return Some(UnknownReceipt); }
      var lines := receipts[id].lines;
      if inputs.Some? {
        var checked := LinesForOrder(receipts[id].order, inputs.value, facts);
        if checked.Failure? { return Some(checked.error); }
        lines := checked.value;
      }
      problem := LockProblem(Stored(), id, revision, Edit);
      if problem.Some? { return; }
      var r := receipts[id];
      receipts := receipts[id :=
          r.(day := if day.Some? then day.value else r.day, lines := lines, revision := r.revision + 1)];
      assert Stored() == AfterUpdate(before, id, revision, day, inputs, facts).value;
      UpdateKeeps(before, id, revision, day, inputs, facts);
    }

    /** Turns the stored lines into `Fixed(judged)`, one index after another. */
    method FixInspection(id: ReceiptId, judged: seq<JudgedLine>)
      requires id < |receipts| && |judged| == |receipts[id].lines|
      requires forall i :: 0 <= i < |judged| ==> judged[i].line == receipts[id].lines[i]
      modifies this
      ensures Stored() == old(Stored()).(receipts := old(receipts)[id := old(receipts)[id].(lines := Fixed(judged))])
    {
      assert WithFixed(receipts[id].lines, judged, 0) == receipts[id].lines;
      assert receipts == receipts[id := receipts[id].(lines := receipts[id].lines)];
      for i := 0 to |judged|
        invariant orders == old(orders) && arrivals == old(arrivals)
        invariant receipts == old(receipts)[id :=
            old(receipts)[id].(lines := WithFixed(old(receipts)[id].lines, judged, i))]
      {
        var lines := receipts[id].lines;
        FixOneMore(old(receipts)[id].lines, judged, i);
        receipts := receipts[id := receipts[id].(
          lines := lines[i := lines[i].(expected := Some(judged[i].expected), findings := Some(judged[i].findings))])];
      }
      assert WithFixed(old(receipts)[id].lines, judged, |judged|) == Fixed(judged);
    }

    method SetStatus(id: ReceiptId, status: ReceiptStatus)
      requires id < |receipts|
      modifies this
      ensures Stored() == With(old(Stored()), id, old(receipts)[id].(status := status))
    {
      receipts := receipts[id := receipts[id].(status := status, revision := receipts[id].revision + 1)];
    }

    /** `AfterSubmit`, and then `PostFrom` as `Clean` when that leaves nothing to approve. */
    method Submit(
        id: ReceiptId, revision: nat, facts: Facts, actor: Person, again: Facts) returns (problem: Option<Problem>)
      requires Valid()
      modifies this
      ensures Valid()
      ensures id >= |old(receipts)| ==> problem == Some(UnknownReceipt) && Stored() == old(Stored())
      ensures id < |old(receipts)| ==>
                && Known(old(Stored()), id)
                && var r := AfterSubmit(old(Stored()), id, revision, facts, actor);
                   && (r.Failure? ==> problem == Some(r.error) && Stored() == old(Stored()))
                   && (r.Success? && !r.value.clean ==> problem == None && Stored() == r.value.tables)
                   && (r.Success? && r.value.clean ==>
                         && PostProblem(old(Stored()), id, revision, Clean).None?
                         && problem
                            == PlanProblem(old(orders)[old(receipts)[id].order], old(receipts)[id], again, Clean)
                         && Stored()
                            == if problem.Some? then old(Stored())
                               else AfterPost(old(Stored()), id, Clean, actor, again))
    {
      ghost var before := Stored();
      ValidIsKnown();
      problem := LockProblem(Stored(), id, revision, GoodsReceipts.Submit);
      if problem.Some? { return; }
      assert Known(Stored(), id);
      var order := orders[receipts[id].order];
      var refusal := Check(order, receipts[id], facts, false);
      if refusal.Some? { return Some(Refused(refusal.value)); }
      var judged := JudgedAgainst(order.lines, receipts[id], facts, false);
      if NeedsApproval(judged) {
        SubmitKeeps(before, id, revision, facts, actor);
        FixInspection(id, judged);
        receipts := receipts[id := receipts[id].(submittedBy := Some(actor))];
        SetStatus(id, ReceiptSubmitted);
        assert Stored() == AfterSubmit(before, id, revision, facts, actor).value.tables;
        return None;
      }
      problem := PostFrom(id, revision, Clean, actor, again);
    }

    /**
     * An approval by someone who did not create the receipt, and then its posting; refused that, the
     * receipt stays approved.
     */
    method Approve(id: ReceiptId, revision: nat, actor: Person, facts: Facts)
      returns (problem: Option<Problem>, postingRefusal: Option<Problem>)
      requires Valid()
      modifies this
      ensures Valid()
      ensures
        var r := AfterApprove(old(Stored()), id, revision, actor);
        && (r.Failure? ==> problem == Some(r.error) && postingRefusal == None && Stored() == old(Stored()))
        && (r.Success? ==>
              && problem == None && Known(r.value, id)
              && postingRefusal
                 == PlanProblem(r.value.orders[r.value.receipts[id].order], r.value.receipts[id], facts, AsApproved)
              && Stored() == if postingRefusal.Some? then r.value else AfterPost(r.value, id, AsApproved, actor, facts))
    {
      problem := RecordApproval(id, revision, actor);
      postingRefusal := None;
      if problem.None? { postingRefusal := PostFrom(id, revision + 1, AsApproved, actor, facts); }
    }

    method RecordApproval(id: ReceiptId, revision: nat, actor: Person) returns (problem: Option<Problem>)
      requires Valid()
      modifies this
      ensures Valid()
      ensures var r := AfterApprove(old(Stored()), id, revision, actor);
              Stored() == Or(old(Stored()), r) && problem == if r.Success? then None else Some(r.error)
    {
      ghost var before := Stored();
      DecideKeeps(before, id, revision, actor, "");
      problem := LockProblem(Stored(), id, revision, GoodsReceipts.Approve);
      if problem.Some? { return; }
      if receipts[id].createdBy == actor { return Some(SelfApproval); }
      receipts := receipts[id := receipts[id].(approvedBy := Some(actor))];
      SetStatus(id, ReceiptApproved);
      assert Stored() == AfterApprove(before, id, revision, actor).value;
    }

    method Reject(id: ReceiptId, revision: nat, reason: string) returns (problem: Option<Problem>)
      requires Valid()
      modifies this
      ensures Valid()
      ensures var r := AfterReject(old(Stored()), id, revision, reason);
              Stored() == Or(old(Stored()), r) && problem == if r.Success? then None else Some(r.error)
    {
      ghost var before := Stored();
      DecideKeeps(before, id, revision, 0, reason);
      if id >= |receipts| { return Some(UnknownReceipt); }
      if reason == "" { return Some(RejectionReasonMissing); }
      problem := LockProblem(Stored(), id, revision, GoodsReceipts.Reject);
      if problem.Some? { return; }
      SetStatus(id, ReceiptRejected);
      assert Stored() == AfterReject(before, id, revision, reason).value;
    }

    /** What each order line takes on. */
    method Additions(lines: seq<Line>) returns (added: map<nat, Added>)
      ensures added == AddedByLine(lines)
    {
      added := map[];
      for i := 0 to |lines|
        invariant added == AddedByLine(lines[..i])
      {
        assert lines[..i + 1][..i] == lines[..i];
        added := added[lines[i].orderLine := Added(Accepted(lines[i]), lines[i].rejected)];
      }
      assert lines[..|lines|] == lines;
    }

    /** `RecordedLines`, reached by adding the keys of `added` in any order, and then the status. */
    method RecordReceipt(o: OrderId, added: map<nat, Added>, status: Option<OrderStatus>)
      requires o < |orders|
      modifies this
      ensures Stored() == old(Stored()).(orders := old(orders)[o := old(orders)[o].(
                lines := RecordedLines(old(orders)[o].lines, added),
                status := if status.Some? then status.value else old(orders)[o].status)])
    {
      var left := added.Keys;
      ghost var done: map<nat, Added> := map[];
      assert RecordedLines(orders[o].lines, done) == orders[o].lines;
      while left != {}
        invariant receipts == old(receipts) && arrivals == old(arrivals)
        invariant left <= added.Keys && done == map k | k in added && k !in left :: added[k]
        invariant orders == old(orders)[o := old(orders)[o].(lines := RecordedLines(old(orders)[o].lines, done))]
        decreases |left|
      {
        var k :| k in left;
        RecordedOneMore(old(orders)[o].lines, added, done, k);
        orders := orders[o := orders[o].(lines := RecordedLines(orders[o].lines, map[k := added[k]]))];
        done := done[k := added[k]];
        left := left - {k};
      }
      assert done == added;
      if status.Some? { orders := orders[o := orders[o].(status := status.value)]; }
    }

    /** Everything a posting writes. */
    method WritePosting(id: ReceiptId, mode: Mode, actor: Person, facts: Facts, judged: seq<JudgedLine>)
      requires Known(Stored(), id)
      requires judged == JudgedAgainst(orders[receipts[id].order].lines, receipts[id], facts, mode == AsApproved)
      modifies this
      ensures Stored() == AfterPost(old(Stored()), id, mode, actor, facts)
    {
      var r := receipts[id];
      ghost var n := AfterPost(Stored(), id, mode, actor, facts);
      AfterPostIs(Stored(), id, mode, actor, facts, judged);
      var added := Additions(r.lines);
      if mode == Clean { FixAsSubmitted(id, judged, actor); }
      RecordReceipt(r.order, added, OrderStatusAfter(RecordedLines(orders[r.order].lines, added), facts));
      assert orders == n.orders;
      arrivals := arrivals + ArrivalsOf(id, LotsOf(judged, r.location));
      assert arrivals == n.arrivals;
      SetStatus(id, ReceiptPosted);
      assert receipts == n.receipts;
    }

    /** A clean receipt is submitted as it posts. */
    method FixAsSubmitted(id: ReceiptId, judged: seq<JudgedLine>, actor: Person)
      requires id < |receipts| && |judged| == |receipts[id].lines|
      requires forall i :: 0 <= i < |judged| ==> judged[i].line == receipts[id].lines[i]
      modifies this
      ensures Stored() == old(Stored()).(receipts :=
                old(receipts)[id := old(receipts)[id].(submittedBy := Some(actor), lines := Fixed(judged))])
    {
      FixInspection(id, judged);
      receipts := receipts[id := receipts[id].(submittedBy := Some(actor))];
    }

    /** Posts a receipt, as clean from a draft or as approved. */
    method PostFrom(
        id: ReceiptId, revision: nat, mode: Mode, actor: Person, facts: Facts) returns (problem: Option<Problem>)
      requires Valid()
      modifies this
      ensures Valid()
      ensures PostProblem(old(Stored()), id, revision, mode).Some? ==>
                problem == PostProblem(old(Stored()), id, revision, mode) && Stored() == old(Stored())
      ensures PostProblem(old(Stored()), id, revision, mode).None? ==>
                && Known(old(Stored()), id)
                && problem == PlanProblem(old(orders)[old(receipts)[id].order], old(receipts)[id], facts, mode)
                && Stored() == if problem.Some? then old(Stored()) else AfterPost(old(Stored()), id, mode, actor, facts)
    {
      ghost var before := Stored();
      ValidIsKnown();
      problem := PostProblem(Stored(), id, revision, mode);
      if problem.Some? { return; }
      assert Known(Stored(), id);
      var r := receipts[id];
      var order := orders[r.order];
      var refusal := Check(order, r, facts, mode == AsApproved);
      if refusal.Some? { return Some(Refused(refusal.value)); }
      var judged := JudgedAgainst(order.lines, r, facts, mode == AsApproved);
      if mode == Clean && NeedsApproval(judged) { return Some(NotClean); }
      PostKeeps(before, id, mode, actor, facts);
      WritePosting(id, mode, actor, facts, judged);
    }
  }

  /** A problem among the first lines is the problem of them all. */
  lemma {:induction false} FirstProblemStays(order: Order, inputs: seq<LineInput>, n: nat, facts: Facts)
    requires n <= |inputs| && ValidLines(order, inputs[..n], facts).Failure?
    ensures ValidLines(order, inputs, facts) == ValidLines(order, inputs[..n], facts)
    decreases |inputs|
  {
    if n == |inputs| {
      assert inputs[..n] == inputs;
    } else {
      assert inputs[..|inputs| - 1][..n] == inputs[..n];
      FirstProblemStays(order, inputs[..|inputs| - 1], n, facts);
    }
  }
}
