/**
 * Goods receipts against purchase orders (goods-receipts.service.ts): what each transaction does to
 * the tables, and a machine in which receipts are drafted, submitted, decided and posted at the
 * same time. A posting locks its receipt, then its order; it judges what it reads and commits later.
 */
module GoodsReceipts {
  import opened Options
  import opened PostingRules
  import opened Ledger
  import opened GoodsReceiptRules

  type ReceiptId = nat
  type OrderId = nat
  type Person = nat
  type Processor = nat

  datatype ReceiptStatus = ReceiptDraft | ReceiptSubmitted | ReceiptApproved | ReceiptPosted | ReceiptRejected

  datatype Receipt = Receipt(
    order: OrderId, location: LocationId, day: int, status: ReceiptStatus, revision: nat,
    createdBy: Person, submittedBy: Option<Person>, approvedBy: Option<Person>, lines: seq<Line>)

  /** A lot a receipt brought in. */
  datatype Arrival = Arrival(receipt: ReceiptId, lot: NewLot)

  datatype Tables = Tables(orders: seq<Order>, receipts: seq<Receipt>, arrivals: seq<Arrival>)

  datatype Problem =
    | UnknownReceipt | UnknownPurchaseOrder | PurchaseOrderNotReceivable | InvalidLine(error: LineError)
    | DocumentChanged | StepNotAllowed | SelfApproval | RejectionReasonMissing
    | PostedAlready | RevisionStale | NotFromHere | NotClean | Refused(refusal: ReceiptRefusal)

  // --- The transactions -----------------------------------------------------------------------

  datatype Action = Edit | Submit | Approve | Reject

  predicate StepAllowed(status: ReceiptStatus, action: Action) {
    match action
    case Edit => status == ReceiptDraft
    case Submit => status == ReceiptDraft
    case Approve => status == ReceiptSubmitted
    case Reject => status == ReceiptSubmitted || status == ReceiptApproved
  }

  /** `ValidLines` for an existing order whose status is `Receivable`. */
  function LinesFor(t: Tables, order: OrderId, inputs: seq<LineInput>, facts: Facts): Result<seq<Line>, Problem> {
    if order >= |t.orders| then Failure(UnknownPurchaseOrder)
    else if !Receivable(t.orders[order].status) then Failure(PurchaseOrderNotReceivable)
    else
      match ValidLines(t.orders[order], inputs, facts)
      case Failure(error) => Failure(InvalidLine(error))
      case Success(lines) => Success(lines)
  }

  function AfterCreate(
      t: Tables, order: OrderId, inputs: seq<LineInput>, facts: Facts, day: int, actor: Person)
      : Result<Tables, Problem> {
    var lines :- LinesFor(t, order, inputs, facts);
    Success(t.(receipts := t.receipts
      + [Receipt(order, t.orders[order].location, day, ReceiptDraft, 1, actor, None, None, lines)]))
  }

  /** Why `action` cannot be taken on receipt `id` at this `revision`. */
  function LockProblem(t: Tables, id: ReceiptId, revision: nat, action: Action): Option<Problem> {
    if id >= |t.receipts| then Some(UnknownReceipt)
    else if t.receipts[id].revision != revision then Some(DocumentChanged)
    else if !StepAllowed(t.receipts[id].status, action) then Some(StepNotAllowed)
    else None
  }

  function With(t: Tables, id: ReceiptId, r: Receipt): Tables
    requires id < |t.receipts|
  {
    t.(receipts := t.receipts[id := r.(revision := t.receipts[id].revision + 1)])
  }

  /** A draft with a new `day`, new `lines`, or both; `LinesFor` answers before `LockProblem` does. */
  function AfterUpdate(
      t: Tables, id: ReceiptId, revision: nat, day: Option<int>, inputs: Option<seq<LineInput>>, facts: Facts)
    : Result<Tables, Problem>
  {
    if id >= |t.receipts| then Failure(UnknownReceipt)
    else
      var r := t.receipts[id];
      var lines :- if inputs.None? then Success(r.lines) else LinesFor(t, r.order, inputs.value, facts);
      var problem := LockProblem(t, id, revision, Edit);
      if problem.Some? then Failure(problem.value)
      else Success(With(t, id, r.(day := if day.Some? then day.value else r.day, lines := lines)))
  }

  /** A receipt whose lines are for its order's lines: every one is (see `Inv`). */
  predicate Known(t: Tables, id: ReceiptId) {
    && id < |t.receipts| && t.receipts[id].order < |t.orders|
    && LinesOk(t.orders[t.receipts[id].order].lines, t.receipts[id].lines)
  }

  function JudgedAgainst(orderLines: seq<OrderLine>, r: Receipt, facts: Facts, stored: bool): seq<JudgedLine>
    requires LinesOk(orderLines, r.lines)
  {
    JudgeAll(orderLines, r.lines, facts, r.day, stored)
  }

  function Check(order: Order, r: Receipt, facts: Facts, stored: bool): Option<ReceiptRefusal>
    requires LinesOk(order.lines, r.lines)
  {
    RefusalOf(JudgedAgainst(order.lines, r, facts, stored), order.status, facts.active(r.location), r.day)
  }

  function FixedLine(j: JudgedLine): Line {
    j.line.(expected := Some(j.expected), findings := Some(j.findings))
  }

  /** Each line with its findings and what was expected fixed on it. */
  function Fixed(judged: seq<JudgedLine>): seq<Line> {
    seq(|judged|, i requires 0 <= i < |judged| => FixedLine(judged[i]))
  }

  /** A submission with findings is stored for an approver; one without is clean, and left to post. */
  datatype Submission = Submission(tables: Tables, clean: bool)

  function AfterSubmit(
      t: Tables, id: ReceiptId, revision: nat, facts: Facts, actor: Person): Result<Submission, Problem>
    requires id < |t.receipts| ==> Known(t, id)
  {
    var problem := LockProblem(t, id, revision, Submit);
    if problem.Some? then Failure(problem.value)
    else
      var r := t.receipts[id];
      var order := t.orders[r.order];
      var refusal := Check(order, r, facts, false);
      if refusal.Some? then Failure(Refused(refusal.value))
      else
        var judged := JudgedAgainst(order.lines, r, facts, false);
        if !NeedsApproval(judged) then Success(Submission(t, true))
        else Success(Submission(With(t, id,
            r.(status := ReceiptSubmitted, submittedBy := Some(actor), lines := Fixed(judged))), false))
  }

  function AfterApprove(t: Tables, id: ReceiptId, revision: nat, actor: Person): Result<Tables, Problem> {
    var problem := LockProblem(t, id, revision, Approve);
    if problem.Some? then Failure(problem.value)
    else if t.receipts[id].createdBy == actor then Failure(SelfApproval)
    else Success(With(t, id, t.receipts[id].(status := ReceiptApproved, approvedBy := Some(actor))))
  }

  function AfterReject(t: Tables, id: ReceiptId, revision: nat, reason: string): Result<Tables, Problem> {
    if id >= |t.receipts| then Failure(UnknownReceipt)
    else if reason == "" then Failure(RejectionReasonMissing)
    else
      var problem := LockProblem(t, id, revision, Reject);
      if problem.Some? then Failure(problem.value)
      else Success(With(t, id, t.receipts[id].(status := ReceiptRejected)))
  }

  /** `Clean` judges live and fixes the result; `AsApproved` judges by what is fixed already. */
  datatype Mode = Clean | AsApproved

  function From(mode: Mode): ReceiptStatus {
    if mode == Clean then ReceiptDraft else ReceiptApproved
  }

  function PostProblem(t: Tables, id: ReceiptId, revision: nat, mode: Mode): Option<Problem> {
    if id >= |t.receipts| then Some(UnknownReceipt)
    else if t.receipts[id].status == ReceiptPosted then Some(PostedAlready)
    else if t.receipts[id].revision != revision then Some(RevisionStale)
    else if t.receipts[id].status != From(mode) then Some(NotFromHere)
    else None
  }

  /** Why a receipt cannot post against its order, as read under the order's lock. */
  function PlanProblem(order: Order, r: Receipt, facts: Facts, mode: Mode): Option<Problem>
    requires LinesOk(order.lines, r.lines)
  {
    var refusal := Check(order, r, facts, mode == AsApproved);
    if refusal.Some? then Some(Refused(refusal.value))
    else if mode == Clean && NeedsApproval(JudgedAgainst(order.lines, r, facts, false)) then Some(NotClean)
    else None
  }

  function ArrivalsOf(id: ReceiptId, lots: seq<NewLot>): seq<Arrival> {
    seq(|lots|, i requires 0 <= i < |lots| => Arrival(id, lots[i]))
  }

  function PostedReceipt(r: Receipt, judged: seq<JudgedLine>, mode: Mode, actor: Person): Receipt {
    if mode == Clean
    then r.(status := ReceiptPosted, submittedBy := Some(actor), lines := Fixed(judged))
    else r.(status := ReceiptPosted)
  }

  /** All three tables after the posting of `id`, given the facts it was judged with. */
  function AfterPost(t: Tables, id: ReceiptId, mode: Mode, actor: Person, facts: Facts): Tables
    requires Known(t, id)
  {
    var r := t.receipts[id];
    var order := t.orders[r.order];
    var judged := JudgedAgainst(order.lines, r, facts, mode == AsApproved);
    var lines := RecordedLines(order.lines, AddedByLine(r.lines));
    var status := OrderStatusAfter(lines, facts);
    With(t.(orders := t.orders[r.order :=
        order.(lines := lines, status := if status.Some? then status.value else order.status)],
            arrivals := t.arrivals + ArrivalsOf(id, LotsOf(judged, r.location))),
         id, PostedReceipt(r, judged, mode, actor))
  }

  // --- Many at once ---------------------------------------------------------------------------

  /** A posting under way: it holds its receipt, and from when it judged also the order it read. */
  datatype Work =
    | Holding(receipt: ReceiptId, mode: Mode, actor: Person)
    | Judged(receipt: ReceiptId, mode: Mode, actor: Person, facts: Facts, orderId: OrderId, order: Order)

  datatype World = World(tables: Tables, works: map<Processor, Work>)

  datatype Step =
    | PlaceOrder(order: Order)
    | MoveOrder(orderId: OrderId, status: OrderStatus)
    | CreateStep(orderId: OrderId, inputs: seq<LineInput>, facts: Facts, day: int, actor: Person)
    | UpdateStep(id: ReceiptId, revision: nat, newDay: Option<int>, newInputs: Option<seq<LineInput>>, facts: Facts)
    | SubmitStep(id: ReceiptId, revision: nat, facts: Facts, actor: Person)
    | ApproveStep(id: ReceiptId, revision: nat, actor: Person)
    | RejectStep(id: ReceiptId, revision: nat, reason: string)
    | LockReceipt(p: Processor, id: ReceiptId, revision: nat, mode: Mode, actor: Person)
    | LockOrder(p: Processor, facts: Facts)
    | Commit(p: Processor)
    | Abort(p: Processor)

  ghost predicate ReceiptFree(w: World, id: ReceiptId) {
    forall p :: p in w.works ==> w.works[p].receipt != id
  }

  ghost predicate OrderFree(w: World, o: OrderId) {
    forall p :: p in w.works ==> !HoldsOrder(w.works[p], o)
  }

  predicate HoldsOrder(work: Work, o: OrderId) {
    work.Judged? && work.orderId == o
  }

  /** An order that has left draft with nothing received; its lines never change from then on. */
  predicate Fresh(order: Order) {
    OrderOk(order) && forall i :: 0 <= i < |order.lines| ==> order.lines[i].received == 0 == order.lines[i].returned
  }

  function Ends(w: World, p: Processor, t: Tables): World {
    World(t, w.works - {p})
  }

  function Or(t: Tables, r: Result<Tables, Problem>): Tables {
    if r.Success? then r.value else t
  }

  /** One step; a lock that is held is waited for, and a refusal changes nothing. */
  ghost function Take(w: World, step: Step): World {
    var t := w.tables;
    match step
    case PlaceOrder(order) => if Fresh(order) then w.(tables := t.(orders := t.orders + [order])) else w
    case MoveOrder(o, status) =>
      if o < |t.orders| && OrderFree(w, o)
      then w.(tables := t.(orders := t.orders[o := t.orders[o].(status := status)])) else w
    case CreateStep(o, inputs, facts, day, actor) => w.(tables := Or(t, AfterCreate(t, o, inputs, facts, day, actor)))
    case UpdateStep(id, revision, day, inputs, facts) =>
      if ReceiptFree(w, id) then w.(tables := Or(t, AfterUpdate(t, id, revision, day, inputs, facts))) else w
    case SubmitStep(id, revision, facts, actor) =>
      if ReceiptFree(w, id) && Known(t, id) then
        var r := AfterSubmit(t, id, revision, facts, actor);
        if r.Success? then w.(tables := r.value.tables) else w
      else w
    case ApproveStep(id, revision, actor) =>
      if ReceiptFree(w, id) then w.(tables := Or(t, AfterApprove(t, id, revision, actor))) else w
    case RejectStep(id, revision, reason) =>
      if ReceiptFree(w, id) then w.(tables := Or(t, AfterReject(t, id, revision, reason))) else w
    case LockReceipt(p, id, revision, mode, actor) =>
      if p !in w.works && ReceiptFree(w, id) && PostProblem(t, id, revision, mode).None?
      then w.(works := w.works[p := Holding(id, mode, actor)]) else w
    case LockOrder(p, facts) =>
      if p in w.works && w.works[p].Holding? && Known(t, w.works[p].receipt) then
        var work := w.works[p];
        var r := t.receipts[work.receipt];
        if !OrderFree(w, r.order) then w
        else if PlanProblem(t.orders[r.order], r, facts, work.mode).Some? then Ends(w, p, t)
        else w.(works := w.works[p := Judged(work.receipt, work.mode, work.actor, facts, r.order, t.orders[r.order])])
      else w
    case Commit(p) =>
      if p in w.works && w.works[p].Judged? && Known(t, w.works[p].receipt)
      then Ends(w, p, AfterPost(t, w.works[p].receipt, w.works[p].mode, w.works[p].actor, w.works[p].facts)) else w
    case Abort(p) => Ends(w, p, t)
  }

  const NOTHING := World(Tables([], [], []), map[])

  ghost function Run(steps: seq<Step>): World {
    if steps == [] then NOTHING else Take(Run(steps[..|steps| - 1]), steps[|steps| - 1])
  }

  // --- The books ------------------------------------------------------------------------------

  /** What one receipt posted on an order line. */
  function PostedBy(r: Receipt, o: OrderId, orderLine: nat, w: Line -> int): int {
    if r.status == ReceiptPosted && r.order == o then SumLines(r.lines, orderLine, w) else 0
  }

  function PostedOn(receipts: seq<Receipt>, o: OrderId, orderLine: nat, w: Line -> int): int {
    if receipts == [] then 0
    else PostedOn(receipts[..|receipts| - 1], o, orderLine, w) + PostedBy(receipts[|receipts| - 1], o, orderLine, w)
  }

  /** The quantity of the lots a receipt's line brought in. */
  function ArrivedOn(arrivals: seq<Arrival>, id: ReceiptId, lineNo: nat): int {
    if arrivals == [] then 0
    else
      var last := arrivals[|arrivals| - 1];
      ArrivedOn(arrivals[..|arrivals| - 1], id, lineNo)
        + if last.receipt == id && last.lot.lineNo == lineNo then last.lot.amount.quantity else 0
  }

  /** What a receipt's line brought into stock: its accepted quantity once posted. */
  function Brings(receipts: seq<Receipt>, id: ReceiptId, lineNo: nat): int {
    if id < |receipts| && receipts[id].status == ReceiptPosted && 1 <= lineNo <= |receipts[id].lines|
    then Accepted(receipts[id].lines[lineNo - 1]) else 0
  }

  // --- The invariant --------------------------------------------------------------------------

  predicate HasFinding(line: Line) {
    line.findings.Some? && line.findings.value != []
  }

  predicate IsFixed(line: Line) {
    line.findings.Some? && line.expected.Some?
  }

  predicate ReceiptOk(t: Tables, id: ReceiptId)
    requires id < |t.receipts|
  {
    var r := t.receipts[id];
    && Known(t, id)
    && (r.status == ReceiptDraft ==> forall i :: 0 <= i < |r.lines| ==> r.lines[i].findings.None?)
    && (r.status != ReceiptDraft ==> forall i :: 0 <= i < |r.lines| ==> IsFixed(r.lines[i]))
    && (r.status == ReceiptDraft || r.status == ReceiptSubmitted ==> r.approvedBy.None?)
    && (r.status == ReceiptApproved ==> r.approvedBy.Some?)
    && (r.approvedBy.Some? ==> r.approvedBy.value != r.createdBy)
    && (r.status == ReceiptPosted ==> r.approvedBy.Some? || forall i :: 0 <= i < |r.lines| ==> !HasFinding(r.lines[i]))
  }

  /** Each order line has received what its posted receipts accepted, and returned what they rejected. */
  predicate LineBooked(receipts: seq<Receipt>, o: OrderId, line: OrderLine) {
    && line.received == PostedOn(receipts, o, line.lineNo, AcceptedQuantity())
    && line.returned == PostedOn(receipts, o, line.lineNo, RejectedQuantity())
  }

  predicate OrderBooked(t: Tables, o: OrderId)
    requires o < |t.orders|
  {
    OrderOk(t.orders[o]) && forall i :: 0 <= i < |t.orders[o].lines| ==> LineBooked(t.receipts, o, t.orders[o].lines[i])
  }

  ghost predicate TablesOk(t: Tables) {
    && (forall id :: 0 <= id < |t.receipts| ==> ReceiptOk(t, id))
    && (forall o :: 0 <= o < |t.orders| ==> OrderBooked(t, o))
    && forall id: ReceiptId, lineNo: nat :: ArrivedOn(t.arrivals, id, lineNo) == Brings(t.receipts, id, lineNo)
  }

  /** What a posting judged is still so: it holds its receipt and its order. */
  predicate WorkOk(t: Tables, work: Work) {
    && Known(t, work.receipt) && t.receipts[work.receipt].status == From(work.mode)
    && (work.Judged? ==>
          && work.orderId == t.receipts[work.receipt].order
          && work.order == t.orders[work.orderId]
          && PlanProblem(work.order, t.receipts[work.receipt], work.facts, work.mode).None?)
  }

  ghost predicate LocksOk(works: map<Processor, Work>) {
    forall p, q :: p in works && q in works && p != q ==>
      works[p].receipt != works[q].receipt && !(works[p].Judged? && HoldsOrder(works[q], works[p].orderId))
  }

  ghost predicate Inv(w: World) {
    && TablesOk(w.tables)
    && (forall p :: p in w.works ==> WorkOk(w.tables, w.works[p]))
    && LocksOk(w.works)
  }

  // --- Sums under change ----------------------------------------------------------------------

  lemma {:induction false} PostedChange(
      receipts: seq<Receipt>, id: ReceiptId, r: Receipt, o: OrderId, orderLine: nat, w: Line -> int)
    requires id < |receipts|
    ensures PostedOn(receipts[id := r], o, orderLine, w)
         == PostedOn(receipts, o, orderLine, w) - PostedBy(receipts[id], o, orderLine, w) + PostedBy(r, o, orderLine, w)
  {
    var front := receipts[..|receipts| - 1];
    if id < |front| {
      PostedChange(front, id, r, o, orderLine, w);
      assert receipts[id := r][..|receipts| - 1] == front[id := r];
    } else {
      assert receipts[id := r][..|receipts| - 1] == front;
    }
  }

  lemma {:induction false} ArrivedAppend(
      arrivals: seq<Arrival>, id: ReceiptId, lots: seq<NewLot>, other: ReceiptId, lineNo: nat)
    ensures ArrivedOn(arrivals + ArrivalsOf(id, lots), other, lineNo)
         == ArrivedOn(arrivals, other, lineNo) + if other == id then LotsOn(lots, lineNo) else 0
  {
    var all := arrivals + ArrivalsOf(id, lots);
    if lots == [] {
      assert all == arrivals;
    } else {
      assert all[..|all| - 1] == arrivals + ArrivalsOf(id, lots[..|lots| - 1]);
      ArrivedAppend(arrivals, id, lots[..|lots| - 1], other, lineNo);
    }
  }

  function LotsOn(lots: seq<NewLot>, lineNo: nat): int {
    if lots == [] then 0
    else
      var last := lots[|lots| - 1];
      LotsOn(lots[..|lots| - 1], lineNo) + if last.lineNo == lineNo then last.amount.quantity else 0
  }

  /** The lots of a posting hold, line by line, what was accepted. */
  lemma {:induction false} LotsAreAccepted(judged: seq<JudgedLine>, location: LocationId, lineNo: nat)
    requires forall i :: 0 <= i < |judged| ==> judged[i].line.lineNo == i + 1 && Accepted(judged[i].line) >= 0
    ensures LotsOn(LotsOf(judged, location), lineNo)
         == if 1 <= lineNo <= |judged| then Accepted(judged[lineNo - 1].line) else 0
  {
    if judged == [] {
    } else {
      LotsAreAccepted(judged[..|judged| - 1], location, lineNo);
      var lots := LotsOf(judged, location);
      if Accepted(judged[|judged| - 1].line) > 0 {
        assert lots[..|lots| - 1] == LotsOf(judged[..|judged| - 1], location);
      }
    }
  }

  lemma {:induction false} FixedSums(lines: seq<Line>, fixed: seq<Line>, orderLine: nat)
    requires |lines| == |fixed|
    requires forall i :: 0 <= i < |lines| ==>
        fixed[i] == lines[i].(expected := fixed[i].expected, findings := fixed[i].findings)
    ensures SumLines(fixed, orderLine, AcceptedQuantity()) == SumLines(lines, orderLine, AcceptedQuantity())
    ensures SumLines(fixed, orderLine, RejectedQuantity()) == SumLines(lines, orderLine, RejectedQuantity())
  {
    if lines == [] {
    } else {
      FixedSums(lines[..|lines| - 1], fixed[..|lines| - 1], orderLine);
    }
  }

  /** Recording changes what was received, not which line is which. */
  lemma {:induction false} FindRecorded(lines: seq<OrderLine>, more: seq<OrderLine>, lineNo: nat)
    requires |lines| == |more| && forall i :: 0 <= i < |lines| ==> more[i].lineNo == lines[i].lineNo
    ensures FindLine(more, lineNo) == FindLine(lines, lineNo)
  {
    if lines == [] {
    } else {
      FindRecorded(lines[1..], more[1..], lineNo);
    }
  }

  // --- Every step keeps it --------------------------------------------------------------------

  lemma {:induction false} SameLinesOk(lines: seq<OrderLine>, more: seq<OrderLine>, stored: seq<Line>)
    requires |lines| == |more|
    requires forall i :: 0 <= i < |lines| ==> lines[i].lineNo == more[i].lineNo && lines[i].item == more[i].item
    requires LinesOk(lines, stored)
    ensures LinesOk(more, stored)
  {
    forall i | 0 <= i < |stored| ensures LineOk(more, stored[i]) {
      FindRecorded(lines, more, stored[i].orderLine);
      assert LineOk(lines, stored[i]);
    }
  }

  lemma {:induction false} FixedOk(orderLines: seq<OrderLine>, r: Receipt, facts: Facts, stored: bool)
    requires LinesOk(orderLines, r.lines)
    ensures LinesOk(orderLines, Fixed(JudgedAgainst(orderLines, r, facts, stored)))
  {
    var fixed := Fixed(JudgedAgainst(orderLines, r, facts, stored));
    forall i | 0 <= i < |fixed| ensures LineOk(orderLines, fixed[i]) && fixed[i].lineNo == i + 1 {
      assert LineOk(orderLines, r.lines[i]);
    }
    forall i, j | 0 <= i < j < |fixed| ensures fixed[i].orderLine != fixed[j].orderLine {
      assert r.lines[i].orderLine != r.lines[j].orderLine;
    }
  }

  /** Changing a receipt that is not posted, to one that is not posted, leaves the books alone. */
  lemma {:induction false} UnpostedChange(t: Tables, id: ReceiptId, r: Receipt)
    requires TablesOk(t) && id < |t.receipts|
    requires t.receipts[id].status != ReceiptPosted && r.status != ReceiptPosted
    requires ReceiptOk(With(t, id, r), id)
    ensures TablesOk(With(t, id, r))
  {
    var n := With(t, id, r);
    forall i | 0 <= i < |n.receipts| ensures ReceiptOk(n, i) {
      assert ReceiptOk(t, i);
    }
    forall o | 0 <= o < |n.orders| ensures OrderBooked(n, o) {
      assert OrderBooked(t, o);
      forall i | 0 <= i < |n.orders[o].lines| ensures LineBooked(n.receipts, o, n.orders[o].lines[i]) {
        assert LineBooked(t.receipts, o, t.orders[o].lines[i]);
        PostedChange(t.receipts, id, n.receipts[id], o, n.orders[o].lines[i].lineNo, AcceptedQuantity());
        PostedChange(t.receipts, id, n.receipts[id], o, n.orders[o].lines[i].lineNo, RejectedQuantity());
      }
    }
    forall i: ReceiptId, lineNo: nat ensures ArrivedOn(n.arrivals, i, lineNo) == Brings(n.receipts, i, lineNo) {
      assert ArrivedOn(t.arrivals, i, lineNo) == Brings(t.receipts, i, lineNo);
    }
  }

  lemma {:induction false} CreateKeeps(
      t: Tables, o: OrderId, inputs: seq<LineInput>, facts: Facts, day: int, actor: Person)
    requires TablesOk(t) && AfterCreate(t, o, inputs, facts, day, actor).Success?
    ensures TablesOk(AfterCreate(t, o, inputs, facts, day, actor).value)
  {
    var n := AfterCreate(t, o, inputs, facts, day, actor).value;
    assert OrderBooked(t, o);
    ValidLinesOk(t.orders[o], inputs, facts);
    forall id | 0 <= id < |n.receipts| ensures ReceiptOk(n, id) {
      if id < |t.receipts| { assert ReceiptOk(t, id); }
    }
    assert n.receipts[..|t.receipts|] == t.receipts;
    forall q | 0 <= q < |n.orders| ensures OrderBooked(n, q) {
      assert OrderBooked(t, q);
      forall i | 0 <= i < |n.orders[q].lines| ensures LineBooked(n.receipts, q, n.orders[q].lines[i]) {
        assert LineBooked(t.receipts, q, t.orders[q].lines[i]);
      }
    }
    forall i: ReceiptId, lineNo: nat ensures ArrivedOn(n.arrivals, i, lineNo) == Brings(n.receipts, i, lineNo) {
      assert ArrivedOn(t.arrivals, i, lineNo) == Brings(t.receipts, i, lineNo);
    }
  }

  lemma {:induction false} UpdateKeeps(
      t: Tables, id: ReceiptId, revision: nat, day: Option<int>, inputs: Option<seq<LineInput>>, facts: Facts)
    requires TablesOk(t) && AfterUpdate(t, id, revision, day, inputs, facts).Success?
    ensures TablesOk(AfterUpdate(t, id, revision, day, inputs, facts).value)
  {
    var n := AfterUpdate(t, id, revision, day, inputs, facts).value;
    assert ReceiptOk(t, id);
    if inputs.Some? {
      assert OrderBooked(t, t.receipts[id].order);
      ValidLinesOk(t.orders[t.receipts[id].order], inputs.value, facts);
    }
    UnpostedChange(t, id, n.receipts[id].(revision := 0));
    assert n == With(t, id, n.receipts[id].(revision := 0));
  }

  lemma {:induction false} SubmitKeeps(t: Tables, id: ReceiptId, revision: nat, facts: Facts, actor: Person)
    requires TablesOk(t) && Known(t, id) && AfterSubmit(t, id, revision, facts, actor).Success?
    ensures TablesOk(AfterSubmit(t, id, revision, facts, actor).value.tables)
  {
    var s := AfterSubmit(t, id, revision, facts, actor).value;
    assert ReceiptOk(t, id);
    if !s.clean {
      FixedOk(t.orders[t.receipts[id].order].lines, t.receipts[id], facts, false);
      UnpostedChange(t, id, s.tables.receipts[id].(revision := 0));
      assert s.tables == With(t, id, s.tables.receipts[id].(revision := 0));
    }
  }

  lemma {:induction false} DecideKeeps(t: Tables, id: ReceiptId, revision: nat, actor: Person, reason: string)
    requires TablesOk(t)
    ensures AfterApprove(t, id, revision, actor).Success? ==> TablesOk(AfterApprove(t, id, revision, actor).value)
    ensures AfterReject(t, id, revision, reason).Success? ==> TablesOk(AfterReject(t, id, revision, reason).value)
  {
    if id < |t.receipts| {
      assert ReceiptOk(t, id);
      if AfterApprove(t, id, revision, actor).Success? {
        UnpostedChange(t, id, t.receipts[id].(status := ReceiptApproved, approvedBy := Some(actor)));
      }
      if AfterReject(t, id, revision, reason).Success? {
        UnpostedChange(t, id, t.receipts[id].(status := ReceiptRejected));
      }
    }
  }

  /** What a posting leaves on its receipt. */
  lemma {:induction false} PostReceiptOk(t: Tables, id: ReceiptId, mode: Mode, actor: Person, facts: Facts)
    requires TablesOk(t) && Known(t, id) && t.receipts[id].status == From(mode)
    requires PlanProblem(t.orders[t.receipts[id].order], t.receipts[id], facts, mode).None?
    ensures forall i :: 0 <= i < |t.receipts| ==> ReceiptOk(AfterPost(t, id, mode, actor, facts), i)
  {
    forall i | 0 <= i < |t.receipts| ensures ReceiptOk(AfterPost(t, id, mode, actor, facts), i) {
      assert ReceiptOk(t, i);
      if i == id {
        PostedReceiptOk(t, id, mode, actor, facts);
      } else {
        OtherReceiptOk(t, id, mode, actor, facts, i);
      }
    }
  }

  lemma {:induction false} PostedReceiptOk(t: Tables, id: ReceiptId, mode: Mode, actor: Person, facts: Facts)
    requires Known(t, id) && ReceiptOk(t, id) && t.receipts[id].status == From(mode)
    requires PlanProblem(t.orders[t.receipts[id].order], t.receipts[id], facts, mode).None?
    ensures ReceiptOk(AfterPost(t, id, mode, actor, facts), id)
  {
    var n := AfterPost(t, id, mode, actor, facts);
    var o := t.receipts[id].order;
    PostedLinesOk(t.orders[o].lines, t.receipts[id], facts, mode, actor);
    CleanHasNoFinding(t.orders[o], t.receipts[id], facts, mode);
    SameLinesOk(t.orders[o].lines, n.orders[o].lines, n.receipts[id].lines);
  }

  lemma {:induction false} CleanHasNoFinding(order: Order, r: Receipt, facts: Facts, mode: Mode)
    requires LinesOk(order.lines, r.lines) && PlanProblem(order, r, facts, mode).None?
    ensures
      var fixed := Fixed(JudgedAgainst(order.lines, r, facts, mode == AsApproved));
      mode == Clean ==> forall i :: 0 <= i < |fixed| ==> IsFixed(fixed[i]) && !HasFinding(fixed[i])
  {}

  lemma {:induction false} PostedLinesOk(
      orderLines: seq<OrderLine>, r: Receipt, facts: Facts, mode: Mode, actor: Person)
    requires LinesOk(orderLines, r.lines)
    ensures
      var posted := PostedReceipt(r, JudgedAgainst(orderLines, r, facts, mode == AsApproved), mode, actor);
      LinesOk(orderLines, posted.lines)
  {
    FixedOk(orderLines, r, facts, mode == AsApproved);
  }

  lemma {:induction false} OtherReceiptOk(
      t: Tables, id: ReceiptId, mode: Mode, actor: Person, facts: Facts, i: ReceiptId)
    requires Known(t, id) && i < |t.receipts| && i != id && ReceiptOk(t, i)
    ensures ReceiptOk(AfterPost(t, id, mode, actor, facts), i)
  {
    var n := AfterPost(t, id, mode, actor, facts);
    var o := t.receipts[id].order;
    if t.receipts[i].order == o { SameLinesOk(t.orders[o].lines, n.orders[o].lines, t.receipts[i].lines); }
  }

  /** One order line's books, before and after a receipt of its order posts. */
  lemma {:induction false} RecordedIsBooked(receipts: seq<Receipt>, id: ReceiptId, r: Receipt, line: OrderLine)
    requires id < |receipts| && receipts[id].status != ReceiptPosted && r.status == ReceiptPosted
    requires r.order == receipts[id].order && |r.lines| == |receipts[id].lines|
    requires forall i :: 0 <= i < |r.lines| ==>
               r.lines[i] == receipts[id].lines[i].(expected := r.lines[i].expected, findings := r.lines[i].findings)
    requires forall i, j :: 0 <= i < j < |r.lines| ==>
        receipts[id].lines[i].orderLine != receipts[id].lines[j].orderLine
    requires LineBooked(receipts, r.order, line)
    ensures LineBooked(receipts[id := r], r.order, RecordedLine(line, AddedByLine(receipts[id].lines)))
  {
    PostedChange(receipts, id, r, r.order, line.lineNo, AcceptedQuantity());
    PostedChange(receipts, id, r, r.order, line.lineNo, RejectedQuantity());
    FixedSums(receipts[id].lines, r.lines, line.lineNo);
    AddedKeepsAll(receipts[id].lines, line.lineNo);
  }

  lemma {:induction false} OtherOrderBooked(
      receipts: seq<Receipt>, id: ReceiptId, r: Receipt, o: OrderId, line: OrderLine)
    requires id < |receipts| && receipts[id].order == r.order != o
    requires LineBooked(receipts, o, line)
    ensures LineBooked(receipts[id := r], o, line)
  {
    PostedChange(receipts, id, r, o, line.lineNo, AcceptedQuantity());
    PostedChange(receipts, id, r, o, line.lineNo, RejectedQuantity());
  }

  lemma {:induction false} PostLineBooked(
      t: Tables, id: ReceiptId, mode: Mode, actor: Person, facts: Facts, o: OrderId, i: nat)
    requires TablesOk(t) && Known(t, id) && t.receipts[id].status == From(mode)
    requires o < |t.orders| && i < |t.orders[o].lines|
    ensures var n := AfterPost(t, id, mode, actor, facts);
            |n.orders[o].lines| == |t.orders[o].lines| && LineBooked(n.receipts, o, n.orders[o].lines[i])
  {
    var n := AfterPost(t, id, mode, actor, facts);
    assert OrderBooked(t, o);
    assert LineBooked(t.receipts, o, t.orders[o].lines[i]);
    if o == t.receipts[id].order {
      RecordedIsBooked(t.receipts, id, n.receipts[id], t.orders[o].lines[i]);
    } else {
      OtherOrderBooked(t.receipts, id, n.receipts[id], o, t.orders[o].lines[i]);
    }
  }

  lemma {:induction false} PostArrivals(
      t: Tables, id: ReceiptId, mode: Mode, actor: Person, facts: Facts, other: ReceiptId, lineNo: nat)
    requires TablesOk(t) && Known(t, id) && t.receipts[id].status == From(mode)
    ensures var n := AfterPost(t, id, mode, actor, facts);
            ArrivedOn(n.arrivals, other, lineNo) == Brings(n.receipts, other, lineNo)
  {
    var r := t.receipts[id];
    var judged := JudgedAgainst(t.orders[r.order].lines, r, facts, mode == AsApproved);
    assert ArrivedOn(t.arrivals, other, lineNo) == Brings(t.receipts, other, lineNo);
    ArrivedAppend(t.arrivals, id, LotsOf(judged, r.location), other, lineNo);
    if other == id {
      assert ReceiptOk(t, id);
      JudgedLotsAreAccepted(t.orders[r.order].lines, r, facts, mode == AsApproved, lineNo);
      PostedBrings(t, id, mode, actor, facts, lineNo);
    }
  }

  lemma {:induction false} PostedBrings(
      t: Tables, id: ReceiptId, mode: Mode, actor: Person, facts: Facts, lineNo: nat)
    requires Known(t, id)
    ensures var lines := t.receipts[id].lines;
            Brings(AfterPost(t, id, mode, actor, facts).receipts, id, lineNo)
            == if 1 <= lineNo <= |lines| then Accepted(lines[lineNo - 1]) else 0
  {}

  lemma {:induction false} JudgedLotsAreAccepted(
      orderLines: seq<OrderLine>, r: Receipt, facts: Facts, stored: bool, lineNo: nat)
    requires LinesOk(orderLines, r.lines)
    ensures LotsOn(LotsOf(JudgedAgainst(orderLines, r, facts, stored), r.location), lineNo)
         == if 1 <= lineNo <= |r.lines| then Accepted(r.lines[lineNo - 1]) else 0
  {
    var judged := JudgedAgainst(orderLines, r, facts, stored);
    forall i | 0 <= i < |judged| ensures judged[i].line.lineNo == i + 1 && Accepted(judged[i].line) >= 0 {
      assert LineOk(orderLines, r.lines[i]);
    }
    LotsAreAccepted(judged, r.location, lineNo);
  }

  lemma {:induction false} PostKeeps(t: Tables, id: ReceiptId, mode: Mode, actor: Person, facts: Facts)
    requires TablesOk(t) && Known(t, id) && t.receipts[id].status == From(mode)
    requires PlanProblem(t.orders[t.receipts[id].order], t.receipts[id], facts, mode).None?
    ensures TablesOk(AfterPost(t, id, mode, actor, facts))
  {
    var n := AfterPost(t, id, mode, actor, facts);
    PostReceiptOk(t, id, mode, actor, facts);
    forall o | 0 <= o < |n.orders| ensures OrderBooked(n, o) {
      assert OrderBooked(t, o);
      forall i | 0 <= i < |n.orders[o].lines| ensures LineBooked(n.receipts, o, n.orders[o].lines[i]) {
        PostLineBooked(t, id, mode, actor, facts, o, i);
      }
    }
    forall i: ReceiptId, lineNo: nat ensures ArrivedOn(n.arrivals, i, lineNo) == Brings(n.receipts, i, lineNo) {
      PostArrivals(t, id, mode, actor, facts, i, lineNo);
    }
  }

  lemma {:induction false} OrdersKeep(t: Tables, n: Tables)
    requires TablesOk(t) && n.receipts == t.receipts && n.arrivals == t.arrivals && |t.orders| <= |n.orders|
    requires forall o :: 0 <= o < |t.orders| ==> n.orders[o].lines == t.orders[o].lines
    requires forall o :: |t.orders| <= o < |n.orders| ==> Fresh(n.orders[o])
    ensures TablesOk(n)
  {
    forall id | 0 <= id < |n.receipts| ensures ReceiptOk(n, id) {
      assert ReceiptOk(t, id);
    }
    forall o | 0 <= o < |n.orders| ensures OrderBooked(n, o) {
      if o < |t.orders| {
        assert OrderBooked(t, o);
      } else {
        forall id | 0 <= id < |t.receipts| ensures t.receipts[id].order != o {
          assert ReceiptOk(t, id);
        }
        forall i | 0 <= i < |n.orders[o].lines| ensures LineBooked(n.receipts, o, n.orders[o].lines[i]) {
          PostedNone(t.receipts, o, n.orders[o].lines[i].lineNo, AcceptedQuantity());
          PostedNone(t.receipts, o, n.orders[o].lines[i].lineNo, RejectedQuantity());
        }
      }
    }
  }

  lemma {:induction false} PostedNone(receipts: seq<Receipt>, o: OrderId, orderLine: nat, w: Line -> int)
    requires forall i :: 0 <= i < |receipts| ==> receipts[i].order != o
    ensures PostedOn(receipts, o, orderLine, w) == 0
  {
    if receipts == [] {
    } else {
      PostedNone(receipts[..|receipts| - 1], o, orderLine, w);
    }
  }

  lemma {:induction false} TakeKeepsTables(w: World, step: Step)
    requires Inv(w)
    ensures TablesOk(Take(w, step).tables)
  {
    var t := w.tables;
    match step
    case PlaceOrder(_) => OrdersKeep(t, Take(w, step).tables);
    case MoveOrder(_, _) => OrdersKeep(t, Take(w, step).tables);
    case CreateStep(o, inputs, facts, day, actor) =>
      if AfterCreate(t, o, inputs, facts, day, actor).Success? { CreateKeeps(t, o, inputs, facts, day, actor); }
    case UpdateStep(id, revision, day, inputs, facts) =>
      if AfterUpdate(t, id, revision, day, inputs, facts).Success? { UpdateKeeps(t, id, revision, day, inputs, facts); }
    case SubmitStep(id, revision, facts, actor) =>
      if Known(t, id) && AfterSubmit(t, id, revision, facts, actor).Success? {
        SubmitKeeps(t, id, revision, facts, actor);
      }
    case ApproveStep(id, revision, actor) => DecideKeeps(t, id, revision, actor, "");
    case RejectStep(id, revision, reason) => DecideKeeps(t, id, revision, 0, reason);
    case Commit(p) =>
      if p in w.works && w.works[p].Judged? {
        assert WorkOk(t, w.works[p]);
        PostKeeps(t, w.works[p].receipt, w.works[p].mode, w.works[p].actor, w.works[p].facts);
      }
    case _ =>
  }

  /** A step on one receipt, that receipt being free, leaves every posting's own as it was. */
  lemma {:induction false} ReceiptStepLeavesWork(t: Tables, n: Tables, work: Work)
    requires WorkOk(t, work)
    requires StaysFor(t, n, work)
    ensures WorkOk(n, work)
  {
    var o := t.receipts[work.receipt].order;
    SameLinesOk(t.orders[o].lines, n.orders[o].lines, t.receipts[work.receipt].lines);
  }

  predicate SameLines(a: Order, b: Order) {
    && |a.lines| == |b.lines|
    && forall i :: 0 <= i < |a.lines| ==> a.lines[i].lineNo == b.lines[i].lineNo && a.lines[i].item == b.lines[i].item
  }

  /** What a posting under way relies on: its own receipt and, once it has judged, the order. */
  predicate StaysFor(t: Tables, n: Tables, work: Work)
    requires Known(t, work.receipt)
  {
    var o := t.receipts[work.receipt].order;
    && |t.receipts| <= |n.receipts| && |t.orders| <= |n.orders|
    && n.receipts[work.receipt] == t.receipts[work.receipt] && SameLines(t.orders[o], n.orders[o])
    && (work.Judged? ==> n.orders[o] == t.orders[o])
  }

  /** No step touches the receipt somebody else holds, nor, once judged, the order. */
  lemma {:induction false} HeldStays(w: World, step: Step, q: Processor)
    requires Inv(w) && q in w.works && !step.Commit?
    ensures Known(w.tables, w.works[q].receipt) && StaysFor(w.tables, Take(w, step).tables, w.works[q])
  {
    assert WorkOk(w.tables, w.works[q]);
    HeldReceiptStays(w, step, q);
    HeldOrderStays(w, step, q);
  }

  lemma {:induction false} HeldReceiptStays(w: World, step: Step, q: Processor)
    requires q in w.works && w.works[q].receipt < |w.tables.receipts| && !step.Commit?
    ensures |w.tables.receipts| <= |Take(w, step).tables.receipts|
    ensures Take(w, step).tables.receipts[w.works[q].receipt] == w.tables.receipts[w.works[q].receipt]
  {}

  lemma {:induction false} HeldOrderStays(w: World, step: Step, q: Processor)
    requires q in w.works && !step.Commit?
    ensures |w.tables.orders| <= |Take(w, step).tables.orders|
    ensures forall o :: 0 <= o < |w.tables.orders| ==> Take(w, step).tables.orders[o].lines == w.tables.orders[o].lines
    ensures w.works[q].Judged? && w.works[q].orderId < |w.tables.orders| ==>
              Take(w, step).tables.orders[w.works[q].orderId] == w.tables.orders[w.works[q].orderId]
  {}

  lemma {:induction false} HeldStaysAtCommit(w: World, p: Processor, q: Processor)
    requires LocksOk(w.works) && q in w.works && p != q
    requires WorkOk(w.tables, w.works[q]) && (p in w.works ==> WorkOk(w.tables, w.works[p]))
    ensures Known(w.tables, w.works[q].receipt) && StaysFor(w.tables, Take(w, Commit(p)).tables, w.works[q])
  {
    if p in w.works && w.works[p].Judged? {
      var work := w.works[p];
      assert work.receipt != w.works[q].receipt;
      assert !HoldsOrder(w.works[q], work.orderId);
      PostLeaves(w.tables, work.receipt, work.mode, work.actor, work.facts, w.works[q]);
    }
  }

  lemma {:induction false} PostLeaves(
      t: Tables, id: ReceiptId, mode: Mode, actor: Person, facts: Facts, work: Work)
    requires Known(t, id) && Known(t, work.receipt) && work.receipt != id
    requires work.Judged? ==> t.receipts[work.receipt].order != t.receipts[id].order
    ensures StaysFor(t, AfterPost(t, id, mode, actor, facts), work)
  {}

  /** A processor that goes on has what it needs. */
  lemma {:induction false} NewWorkOk(w: World, step: Step, q: Processor)
    requires Inv(w) && q in Take(w, step).works
    requires q !in w.works || Take(w, step).works[q] != w.works[q]
    ensures WorkOk(Take(w, step).tables, Take(w, step).works[q])
  {
    match step
    case LockReceipt(p, id, revision, mode, actor) => NewHoldingOk(w, p, id, revision, mode, actor, q);
    case LockOrder(p, facts) => NewJudgementOk(w, p, facts, q);
    case _ =>
  }

  lemma {:induction false} NewHoldingOk(
      w: World, p: Processor, id: ReceiptId, revision: nat, mode: Mode, actor: Person, q: Processor)
    requires TablesOk(w.tables) && q in Take(w, LockReceipt(p, id, revision, mode, actor)).works
    requires var n := Take(w, LockReceipt(p, id, revision, mode, actor)).works;
             q !in w.works || n[q] != w.works[q]
    ensures var n := Take(w, LockReceipt(p, id, revision, mode, actor)); WorkOk(n.tables, n.works[q])
  {
    assert p == q && id < |w.tables.receipts|;
    assert ReceiptOk(w.tables, id);
  }

  lemma {:induction false} NewJudgementOk(w: World, p: Processor, facts: Facts, q: Processor)
    requires Inv(w) && q in Take(w, LockOrder(p, facts)).works
    requires q !in w.works || Take(w, LockOrder(p, facts)).works[q] != w.works[q]
    ensures WorkOk(Take(w, LockOrder(p, facts)).tables, Take(w, LockOrder(p, facts)).works[q])
  {
    assert p in w.works && p == q;
    assert WorkOk(w.tables, w.works[p]);
  }

  lemma {:induction false} TakeKeepsWork(w: World, step: Step, q: Processor)
    requires Inv(w) && q in Take(w, step).works
    ensures WorkOk(Take(w, step).tables, Take(w, step).works[q])
  {
    if q in w.works && Take(w, step).works[q] == w.works[q] {
      assert WorkOk(w.tables, w.works[q]);
      if !step.Commit? {
        HeldStays(w, step, q);
      } else if step.p != q {
        HeldStaysAtCommit(w, step.p, q);
      }
      ReceiptStepLeavesWork(w.tables, Take(w, step).tables, w.works[q]);
    } else {
      NewWorkOk(w, step, q);
    }
  }

  lemma {:induction false} TakeKeepsLocks(w: World, step: Step)
    requires LocksOk(w.works)
    ensures LocksOk(Take(w, step).works)
  {
    var n := Take(w, step);
    forall p, q | p in n.works && q in n.works && p != q
      ensures n.works[p].receipt != n.works[q].receipt
          && !(n.works[p].Judged? && HoldsOrder(n.works[q], n.works[p].orderId))
    {
      assert p in w.works && q in w.works ==> w.works[p].receipt != w.works[q].receipt;
    }
  }

  lemma {:induction false} Reachable(steps: seq<Step>)
    ensures Inv(Run(steps))
  {
    if steps == [] {
    } else {
      var w := Run(steps[..|steps| - 1]);
      var step := steps[|steps| - 1];
      Reachable(steps[..|steps| - 1]);
      TakeKeepsTables(w, step);
      TakeKeepsLocks(w, step);
      forall q | q in Take(w, step).works ensures WorkOk(Take(w, step).tables, Take(w, step).works[q]) {
        TakeKeepsWork(w, step, q);
      }
    }
  }
}
