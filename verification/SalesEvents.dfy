/**
 * Sales events becoming branch consumption (branch-consumption.service.ts, consumption-rules.ts,
 * sales-events.service.ts). What one transaction does to the tables, and a machine in which any
 * number of processors, people asking for another try, and crashes take those transactions in any
 * order.
 */
module SalesEvents {
  import opened Options

  /** Events and consumptions are known by the order they were received, and created, in. */
  type EventId = nat
  type ConsumptionId = nat
  type Processor = nat

  /** Why a sale's usage cannot be worked out. */
  datatype Reason =
    | UnknownMenuItem | UnknownModifier | InactiveIngredient | NoRecipeInEffect | SoldByMismatch | NegativeUsage

  /** One row of an event's record of attempts. An event is only ever held for its sale time. */
  datatype Outcome = Held | Failed(reason: Reason) | Reprocessed | Processed(document: ConsumptionId)

  datatype EventStatus = StillReceived | HasFailed | IsProcessed

  /** `ahead` is how far the sale time was after its receipt, in milliseconds. */
  datatype SalesEvent = SalesEvent(saleDate: int, ahead: int, status: EventStatus, history: seq<Outcome>)

  datatype Consumption = Consumption(event: EventId, posted: bool, revision: nat)

  datatype Tables = Tables(events: seq<SalesEvent>, documents: seq<Consumption>)

  datatype Attempt = AttemptProcessed | AttemptFailed | AttemptHeld | AttemptWaiting | AttemptSkipped

  // --- The rules ------------------------------------------------------------------------------

  datatype Decision = GoAhead | Wait | Hold

  /** `reviewed` switches the `Hold` test off, so that only `Wait` and `GoAhead` are left. */
  function SaleTimeDecision(ahead: int, saleDate: int, today: int, toleranceMinutes: nat, reviewed: bool): Decision {
    if !reviewed && ahead > toleranceMinutes * 60 * 1000 then Hold
    else if saleDate > today then Wait
    else GoAhead
  }

  /** True of a problem row that `AfterReview` turns down on the day `today`. */
  predicate ReprocessBlocked(problem: Outcome, saleDate: int, today: int) {
    match problem
    case Held => saleDate > today
    case Failed(UnknownMenuItem) => false
    case Failed(UnknownModifier) => false
    case Failed(InactiveIngredient) => false
    case Failed(NoRecipeInEffect) => saleDate < today
    case _ => true
  }

  predicate IsProblem(outcome: Outcome) {
    outcome.Held? || outcome.Failed?
  }

  function Latest(history: seq<Outcome>): Option<Outcome> {
    if history == [] then None else Some(history[|history| - 1])
  }

  // --- The transactions -----------------------------------------------------------------------

  function DocumentOf(documents: seq<Consumption>, e: EventId): (found: Option<ConsumptionId>)
    ensures found.Some? ==> found.value < |documents| && documents[found.value].event == e
    ensures found.None? ==> forall d :: 0 <= d < |documents| ==> documents[d].event != e
  {
    if documents == [] then None
    else if documents[|documents| - 1].event == e then Some(|documents| - 1)
    else DocumentOf(documents[..|documents| - 1], e)
  }

  function Record(t: Tables, e: EventId, outcome: Outcome, status: EventStatus): Tables
    requires e < |t.events|
  {
    t.(events := t.events[e := t.events[e].(history := t.events[e].history + [outcome], status := status)])
  }

  datatype Claim = Ends(attempt: Attempt) | Draft(document: ConsumptionId, revision: nat)

  /** What a claim finds once it holds a received event: an attempt that ends there, or a draft to post. */
  function ClaimOf(t: Tables, e: EventId, today: int, toleranceMinutes: nat, usage: Option<Reason>): Claim
    requires e < |t.events|
  {
    var event := t.events[e];
    var existing := DocumentOf(t.documents, e);
    if existing.Some? then
      if t.documents[existing.value].posted then Ends(AttemptSkipped)
      else Draft(existing.value, t.documents[existing.value].revision)
    else if Latest(event.history) == Some(Held) then Ends(AttemptSkipped)
    else
      match SaleTimeDecision(event.ahead, event.saleDate, today, toleranceMinutes, Reprocessed in event.history)
      case Wait => Ends(AttemptWaiting)
      case Hold => Ends(AttemptHeld)
      case GoAhead => if usage.Some? then Ends(AttemptFailed) else Draft(|t.documents|, 1)
  }

  /** What that claim writes: the problem it recorded, or the draft it made unless one was left over. */
  function AfterClaim(t: Tables, e: EventId, today: int, toleranceMinutes: nat, usage: Option<Reason>): Tables
    requires e < |t.events|
  {
    match ClaimOf(t, e, today, toleranceMinutes, usage)
    case Ends(AttemptHeld) => Record(t, e, Held, t.events[e].status)
    case Ends(AttemptFailed) => if usage.Some? then Record(t, e, Failed(usage.value), HasFailed) else t
    case Draft(d, _) => if d == |t.documents| then t.(documents := t.documents + [Consumption(e, false, 1)]) else t
    case _ => t
  }

  /** The ledger posts a document once, at the revision its poster saw. */
  predicate Postable(t: Tables, d: ConsumptionId, revision: nat) {
    d < |t.documents| && !t.documents[d].posted && t.documents[d].revision == revision
  }

  /** The posting, and with it the end of the event. */
  function AfterPost(t: Tables, e: EventId, d: ConsumptionId): Tables
    requires e < |t.events| && d < |t.documents|
  {
    Record(t.(documents := t.documents[d := t.documents[d].(posted := true, revision := t.documents[d].revision + 1)]),
           e, Processed(d), IsProcessed)
  }

  datatype Refusal = NoSuchEvent | EventIsProcessed | NotReprocessable

  /** Adds a `Reprocessed` row after a problem row, and makes the event `StillReceived` again. */
  function AfterReview(t: Tables, e: EventId, today: int): Result<Tables, Refusal> {
    if e >= |t.events| then Failure(NoSuchEvent)
    else
      var event := t.events[e];
      var latest := Latest(event.history);
      if event.status == IsProcessed then Failure(EventIsProcessed)
      else if latest.None? || !IsProblem(latest.value) then Failure(NotReprocessable)
      else if ReprocessBlocked(latest.value, event.saleDate, today) then Failure(NotReprocessable)
      else Success(Record(t, e, Reprocessed, StillReceived))
  }

  // --- Many processors ------------------------------------------------------------------------

  /**
   * Where a processor is. While claiming or reviewing it holds its event's row; while posting it
   * holds the document's.
   */
  datatype Work =
    | Claiming(event: EventId)
    | Claimed(event: EventId, document: ConsumptionId, revision: nat)
    | Posting(event: EventId, document: ConsumptionId)
    | Reviewing(event: EventId)

  /** A processor with no work is idle. */
  datatype World = World(tables: Tables, works: map<Processor, Work>, today: int)

  datatype Step =
    | Receive(saleDate: int, ahead: int)
    | LockEvent(p: Processor, event: EventId)
    | FinishClaim(p: Processor, toleranceMinutes: nat, usage: Option<Reason>)
    | LockDocument(p: Processor)
    | FinishPost(p: Processor, written: bool)
    | LockForReview(p: Processor, event: EventId)
    | FinishReview(p: Processor)
    | Crash(p: Processor)
    | NextDay

  predicate HoldsEvent(work: Work, e: EventId) {
    (work.Claiming? || work.Reviewing?) && work.event == e
  }

  predicate HoldsDocument(work: Work, d: ConsumptionId) {
    work.Posting? && work.document == d
  }

  ghost predicate EventFree(w: World, e: EventId) {
    forall p :: p in w.works ==> !HoldsEvent(w.works[p], e)
  }

  ghost predicate DocumentFree(w: World, d: ConsumptionId) {
    forall p :: p in w.works ==> !HoldsDocument(w.works[p], d)
  }

  function Rests(w: World, p: Processor, t: Tables): World {
    w.(tables := t, works := w.works - {p})
  }

  /**
   * One step of one processor. A row somebody holds is skipped or waited for: either way nothing
   * happens yet. A crash, and a posting that was refused, leave no trace.
   */
  ghost function Take(w: World, step: Step): World {
    var t := w.tables;
    match step
    case Receive(saleDate, ahead) =>
      w.(tables := t.(events := t.events + [SalesEvent(saleDate, ahead, StillReceived, [])]))
    case LockEvent(p, e) =>
      if p !in w.works && e < |t.events| && t.events[e].status == StillReceived && EventFree(w, e)
      then w.(works := w.works[p := Claiming(e)]) else w
    case FinishClaim(p, toleranceMinutes, usage) =>
      if p in w.works && w.works[p].Claiming? && w.works[p].event < |t.events| then
        var e := w.works[p].event;
        var after := AfterClaim(t, e, w.today, toleranceMinutes, usage);
        match ClaimOf(t, e, w.today, toleranceMinutes, usage)
        case Ends(_) => Rests(w, p, after)
        case Draft(d, revision) => w.(tables := after, works := w.works[p := Claimed(e, d, revision)])
      else w
    case LockDocument(p) =>
      if p in w.works && w.works[p].Claimed? && DocumentFree(w, w.works[p].document) then
        if Postable(t, w.works[p].document, w.works[p].revision)
        then w.(works := w.works[p := Posting(w.works[p].event, w.works[p].document)])
        else Rests(w, p, t)
      else w
    case FinishPost(p, written) =>
      if p in w.works && w.works[p].Posting? then
        var e, d := w.works[p].event, w.works[p].document;
        if !written then Rests(w, p, t)
        else if e < |t.events| && d < |t.documents| && EventFree(w, e) then Rests(w, p, AfterPost(t, e, d))
        else w
      else w
    case LockForReview(p, e) =>
      if p !in w.works && e < |t.events| && t.events[e].status != IsProcessed && EventFree(w, e)
      then w.(works := w.works[p := Reviewing(e)]) else w
    case FinishReview(p) =>
      if p in w.works && w.works[p].Reviewing? then
        var r := AfterReview(t, w.works[p].event, w.today);
        Rests(w, p, if r.Success? then r.value else t)
      else w
    case Crash(p) => Rests(w, p, t)
    case NextDay => w.(today := w.today + 1)
  }

  const START := World(Tables([], []), map[], 0)

  ghost function Run(steps: seq<Step>): World {
    if steps == [] then START else Take(Run(steps[..|steps| - 1]), steps[|steps| - 1])
  }

  // --- What every history looks like ----------------------------------------------------------

  /** ((held | failed) reprocessed)*, and then at most one of held, failed or processed. */
  predicate Matches(history: seq<Outcome>) {
    || history == []
    || (|history| == 1 && !history[0].Reprocessed?)
    || (|history| >= 2 && IsProblem(history[0]) && history[1].Reprocessed? && Matches(history[2..]))
  }

  /** The same, row by row; and only the very first row can be a hold. */
  predicate HistoryOk(history: seq<Outcome>) {
    forall i :: 0 <= i < |history| ==> RowOk(history, i)
  }

  predicate RowOk(history: seq<Outcome>, i: nat)
    requires i < |history|
  {
    && (history[i].Reprocessed? <==> i % 2 == 1)
    && (i + 1 < |history| ==> !history[i].Processed?)
    && (history[i].Held? ==> i == 0)
  }

  lemma {:induction false} HistoryMatches(history: seq<Outcome>)
    requires forall i :: 0 <= i < |history| ==>
               (history[i].Reprocessed? <==> i % 2 == 1) && (i + 1 < |history| ==> !history[i].Processed?)
    ensures Matches(history)
  {
    if |history| >= 2 {
      var rest := history[2..];
      forall i | 0 <= i < |rest|
        ensures (rest[i].Reprocessed? <==> i % 2 == 1) && (i + 1 < |rest| ==> !rest[i].Processed?)
      {
        assert rest[i] == history[i + 2];
      }
      HistoryMatches(rest);
    }
  }

  // --- The invariant --------------------------------------------------------------------------

  /** An event's status and its last row say the same. */
  predicate EventOk(t: Tables, e: EventId)
    requires e < |t.events|
  {
    var event := t.events[e];
    var latest := Latest(event.history);
    && HistoryOk(event.history)
    && (event.status == HasFailed <==> latest.Some? && latest.value.Failed?)
    && (event.status == IsProcessed <==> latest.Some? && latest.value.Processed?)
    && (event.status == IsProcessed ==>
          var d := latest.value.document;
          d < |t.documents| && t.documents[d].event == e && t.documents[d].posted)
  }

  /** A draft's event has nothing against it; a posted consumption's event is processed. */
  predicate DocumentOk(t: Tables, d: ConsumptionId)
    requires d < |t.documents|
  {
    var e := t.documents[d].event;
    && e < |t.events|
    && (t.documents[d].posted <==> t.events[e].status == IsProcessed)
    && (!t.documents[d].posted ==> |t.events[e].history| % 2 == 0)
  }

  ghost predicate TablesOk(t: Tables) {
    && (forall e :: 0 <= e < |t.events| ==> EventOk(t, e))
    && (forall d :: 0 <= d < |t.documents| ==> DocumentOk(t, d))
    && forall c, d :: 0 <= c < d < |t.documents| ==> t.documents[c].event != t.documents[d].event
  }

  predicate WorkOk(t: Tables, work: Work) {
    match work
    case Claiming(e) => e < |t.events| && t.events[e].status == StillReceived
    case Claimed(e, d, _) => d < |t.documents| && t.documents[d].event == e
    case Posting(e, d) => d < |t.documents| && t.documents[d].event == e && !t.documents[d].posted
    case Reviewing(e) => e < |t.events| && t.events[e].status != IsProcessed
  }

  predicate Clash(a: Work, b: Work) {
    || ((a.Claiming? || a.Reviewing?) && HoldsEvent(b, a.event))
    || (a.Posting? && HoldsDocument(b, a.document))
  }

  /** Nobody holds what another holds. */
  ghost predicate LocksOk(works: map<Processor, Work>) {
    forall p, q :: p in works && q in works && p != q ==> !Clash(works[p], works[q])
  }

  ghost predicate Inv(w: World) {
    && TablesOk(w.tables)
    && (forall p :: p in w.works ==> WorkOk(w.tables, w.works[p]))
    && LocksOk(w.works)
  }

  lemma {:induction false} RecordOk(history: seq<Outcome>, outcome: Outcome)
    requires HistoryOk(history)
    requires Latest(history).Some? ==> !Latest(history).value.Processed?
    requires outcome.Reprocessed? <==> |history| % 2 == 1
    requires outcome.Held? ==> history == []
    ensures HistoryOk(history + [outcome])
  {
    forall i | 0 <= i < |history + [outcome]| ensures RowOk(history + [outcome], i) {
      if i < |history| { assert RowOk(history, i); }
    }
  }

  /** An event still received and never reviewed has no history, so it is held at its first attempt only. */
  lemma {:induction false} ReceivedHistory(t: Tables, e: EventId)
    requires e < |t.events| && EventOk(t, e) && t.events[e].status == StillReceived
    ensures var history := t.events[e].history;
            && (|history| % 2 == 1 ==> Latest(history) == Some(Held))
            && (Reprocessed !in history && Latest(history) != Some(Held) ==> history == [])
  {
    var history := t.events[e].history;
    if history != [] {
      assert RowOk(history, |history| - 1);
      if |history| >= 2 {
        assert RowOk(history, 1);
        assert history[1] in history;
      }
    }
  }

  lemma {:induction false} ClaimKeeps(t: Tables, e: EventId, today: int, toleranceMinutes: nat, usage: Option<Reason>)
    requires TablesOk(t) && e < |t.events| && t.events[e].status == StillReceived
    ensures TablesOk(AfterClaim(t, e, today, toleranceMinutes, usage))
    ensures match ClaimOf(t, e, today, toleranceMinutes, usage)
            case Ends(_) => true
            case Draft(d, _) =>
              var n := AfterClaim(t, e, today, toleranceMinutes, usage);
              d < |n.documents| && n.documents[d].event == e && !n.documents[d].posted
  {
    var n := AfterClaim(t, e, today, toleranceMinutes, usage);
    var claim := ClaimOf(t, e, today, toleranceMinutes, usage);
    assert EventOk(t, e);
    ReceivedHistory(t, e);
    if claim == Ends(AttemptHeld) {
      RecordOk(t.events[e].history, Held);
    } else if claim == Ends(AttemptFailed) {
      RecordOk(t.events[e].history, Failed(usage.value));
    }
    forall i | 0 <= i < |n.events| ensures EventOk(n, i) {
      assert EventOk(t, i);
    }
    forall d | 0 <= d < |n.documents| ensures DocumentOk(n, d) {
      if d < |t.documents| { assert DocumentOk(t, d); }
    }
  }

  lemma {:induction false} PostKeeps(t: Tables, d: ConsumptionId)
    requires TablesOk(t) && d < |t.documents| && !t.documents[d].posted
    ensures t.documents[d].event < |t.events|
    ensures TablesOk(AfterPost(t, t.documents[d].event, d))
  {
    assert DocumentOk(t, d);
    var e := t.documents[d].event;
    var n := AfterPost(t, e, d);
    assert EventOk(t, e);
    RecordOk(t.events[e].history, Processed(d));
    forall i | 0 <= i < |n.events| ensures EventOk(n, i) {
      assert EventOk(t, i);
    }
    forall c | 0 <= c < |n.documents| ensures DocumentOk(n, c) {
      assert DocumentOk(t, c);
    }
  }

  lemma {:induction false} ReviewKeeps(t: Tables, e: EventId, today: int)
    requires TablesOk(t) && AfterReview(t, e, today).Success?
    ensures TablesOk(AfterReview(t, e, today).value)
  {
    var n := AfterReview(t, e, today).value;
    var history := t.events[e].history;
    assert EventOk(t, e);
    assert RowOk(history, |history| - 1);
    RecordOk(history, Reprocessed);
    forall i | 0 <= i < |n.events| ensures EventOk(n, i) {
      assert EventOk(t, i);
    }
    forall d | 0 <= d < |n.documents| ensures DocumentOk(n, d) {
      assert DocumentOk(t, d);
    }
  }

  /** Work on other rows is not disturbed: a claim or a review changes one event it holds. */
  lemma {:induction false} ClaimLeavesWork(
      w: World, p: Processor, toleranceMinutes: nat, usage: Option<Reason>, q: Processor)
    requires Inv(w) && p in w.works && w.works[p].Claiming? && q in w.works && q != p
    ensures WorkOk(AfterClaim(w.tables, w.works[p].event, w.today, toleranceMinutes, usage), w.works[q])
  {
    assert HoldsEvent(w.works[p], w.works[p].event);
    assert WorkOk(w.tables, w.works[q]);
  }

  lemma {:induction false} PostLeavesWork(w: World, p: Processor, q: Processor)
    requires Inv(w) && p in w.works && w.works[p].Posting? && q in w.works && q != p
    requires EventFree(w, w.works[p].event) && w.works[p].event < |w.tables.events|
    requires w.works[p].document < |w.tables.documents|
    ensures WorkOk(AfterPost(w.tables, w.works[p].event, w.works[p].document), w.works[q])
  {
    assert HoldsDocument(w.works[p], w.works[p].document);
    assert WorkOk(w.tables, w.works[q]);
    assert !HoldsEvent(w.works[q], w.works[p].event);
    assert !HoldsDocument(w.works[q], w.works[p].document);
  }

  lemma {:induction false} ReviewLeavesWork(w: World, p: Processor, q: Processor)
    requires Inv(w) && p in w.works && w.works[p].Reviewing? && q in w.works && q != p
    requires AfterReview(w.tables, w.works[p].event, w.today).Success?
    ensures WorkOk(AfterReview(w.tables, w.works[p].event, w.today).value, w.works[q])
  {
    assert HoldsEvent(w.works[p], w.works[p].event);
    assert WorkOk(w.tables, w.works[q]);
  }

  lemma {:induction false} TakeKeepsTables(w: World, step: Step)
    requires Inv(w)
    ensures TablesOk(Take(w, step).tables)
  {
    var t := w.tables;
    match step
    case Receive(_, _) =>
      var n := Take(w, step).tables;
      forall i | 0 <= i < |n.events| ensures EventOk(n, i) {
        if i < |t.events| { assert EventOk(t, i); }
      }
      forall d | 0 <= d < |n.documents| ensures DocumentOk(n, d) {
        assert DocumentOk(t, d);
      }
    case FinishClaim(p, toleranceMinutes, usage) =>
      if p in w.works && w.works[p].Claiming? {
        assert WorkOk(t, w.works[p]);
        ClaimKeeps(t, w.works[p].event, w.today, toleranceMinutes, usage);
      }
    case FinishPost(p, _) =>
      if p in w.works && w.works[p].Posting? {
        assert WorkOk(t, w.works[p]);
        PostKeeps(t, w.works[p].document);
      }
    case FinishReview(p) =>
      if p in w.works && w.works[p].Reviewing? && AfterReview(t, w.works[p].event, w.today).Success? {
        ReviewKeeps(t, w.works[p].event, w.today);
      }
    case _ =>
  }

  lemma {:induction false} TakeKeepsWork(w: World, step: Step, q: Processor)
    requires Inv(w) && q in Take(w, step).works
    ensures WorkOk(Take(w, step).tables, Take(w, step).works[q])
  {
    if q in w.works { assert WorkOk(w.tables, w.works[q]); }
    match step
    case FinishClaim(p, toleranceMinutes, usage) =>
      if p in w.works && w.works[p].Claiming? {
        if q != p {
          ClaimLeavesWork(w, p, toleranceMinutes, usage, q);
        } else {
          ClaimKeeps(w.tables, w.works[p].event, w.today, toleranceMinutes, usage);
        }
      }
    case FinishPost(p, _) =>
      if p in w.works && w.works[p].Posting? && q != p && EventFree(w, w.works[p].event) {
        assert WorkOk(w.tables, w.works[p]);
        assert DocumentOk(w.tables, w.works[p].document);
        PostLeavesWork(w, p, q);
      }
    case FinishReview(p) =>
      if p in w.works && w.works[p].Reviewing? && q != p && AfterReview(w.tables, w.works[p].event, w.today).Success? {
        ReviewLeavesWork(w, p, q);
      }
    case _ =>
  }

  lemma {:induction false} TakeKeepsLocks(w: World, step: Step)
    requires LocksOk(w.works)
    ensures LocksOk(Take(w, step).works)
  {
    var n := Take(w, step);
    forall p, q | p in n.works && q in n.works && p != q ensures !Clash(n.works[p], n.works[q]) {
      assert p in w.works && q in w.works ==> !Clash(w.works[p], w.works[q]);
    }
  }

  lemma {:induction false} TakeKeeps(w: World, step: Step)
    requires Inv(w)
    ensures Inv(Take(w, step))
  {
    TakeKeepsTables(w, step);
    TakeKeepsLocks(w, step);
    forall q | q in Take(w, step).works ensures WorkOk(Take(w, step).tables, Take(w, step).works[q]) {
      TakeKeepsWork(w, step, q);
    }
  }

  lemma {:induction false} Reachable(steps: seq<Step>)
    ensures Inv(Run(steps))
  {
    if steps == [] {
    } else {
      Reachable(steps[..|steps| - 1]);
      TakeKeeps(Run(steps[..|steps| - 1]), steps[|steps| - 1]);
    }
  }

  // --- What it comes to -----------------------------------------------------------------------

  /**
   * However runs overlap, crash and are asked for again: an event's record has the one shape, its
   * status is what its last row says, and only its first row can be a hold.
   */
  lemma {:induction false} EveryHistory(steps: seq<Step>, e: EventId)
    requires e < |Run(steps).tables.events|
    ensures
      var event := Run(steps).tables.events[e];
      && Matches(event.history)
      && (event.status == HasFailed <==> Latest(event.history).Some? && Latest(event.history).value.Failed?)
      && (event.status == IsProcessed <==> Latest(event.history).Some? && Latest(event.history).value.Processed?)
      && forall i :: 0 < i < |event.history| ==> !event.history[i].Held?
  {
    Reachable(steps);
    var t := Run(steps).tables;
    assert EventOk(t, e);
    var history := t.events[e].history;
    forall i | 0 <= i < |history|
      ensures (history[i].Reprocessed? <==> i % 2 == 1) && (i + 1 < |history| ==> !history[i].Processed?)
      ensures history[i].Held? ==> i == 0
    {
      assert RowOk(history, i);
    }
    HistoryMatches(history);
  }

  function PostedFor(t: Tables, e: EventId): set<ConsumptionId> {
    set d | 0 <= d < |t.documents| && t.documents[d].event == e && t.documents[d].posted
  }

  /** An event is consumed once when it is processed, and never otherwise. */
  lemma {:induction false} ExactlyOnce(steps: seq<Step>, e: EventId)
    requires e < |Run(steps).tables.events|
    ensures
      var t := Run(steps).tables;
      && (forall c, d :: 0 <= c < d < |t.documents| ==> !(t.documents[c].event == e && t.documents[d].event == e))
      && (t.events[e].status == IsProcessed ==>
            exists d: ConsumptionId :: Latest(t.events[e].history) == Some(Processed(d)) && PostedFor(t, e) == {d})
      && (t.events[e].status != IsProcessed ==> PostedFor(t, e) == {})
  {
    Reachable(steps);
    var t := Run(steps).tables;
    assert EventOk(t, e);
    forall d | d in PostedFor(t, e)
      ensures t.events[e].status == IsProcessed && Latest(t.events[e].history) == Some(Processed(d))
    {
      assert DocumentOk(t, d);
    }
    if t.events[e].status == IsProcessed {
      var d := Latest(t.events[e].history).value.document;
      assert d in PostedFor(t, e);
      assert PostedFor(t, e) == {d};
    }
  }

  /** A held sale is tried again only once its day has come, and then it is neither held nor made to wait. */
  lemma {:induction false} ReviewedHoldGoesAhead(
      t: Tables, e: EventId, today: int, toleranceMinutes: nat, usage: Option<Reason>)
    requires TablesOk(t) && e < |t.events| && Latest(t.events[e].history) == Some(Held)
    ensures AfterReview(t, e, today).Success? <==> t.events[e].saleDate <= today
    ensures AfterReview(t, e, today).Success? ==>
              var claim := ClaimOf(AfterReview(t, e, today).value, e, today, toleranceMinutes, usage);
              if usage.Some? then claim == Ends(AttemptFailed) else claim == Draft(|t.documents|, 1)
  {
    assert EventOk(t, e);
    assert RowOk(t.events[e].history, |t.events[e].history| - 1);
    forall d | 0 <= d < |t.documents| ensures t.documents[d].event != e {
      assert DocumentOk(t, d);
    }
    if AfterReview(t, e, today).Success? {
      var history := AfterReview(t, e, today).value.events[e].history;
      assert history[|history| - 1] == Reprocessed && Reprocessed in history;
    }
  }

  /** Nothing more happens to a processed event. */
  lemma {:induction false} ProcessedIsFinal(steps: seq<Step>, step: Step, e: EventId)
    requires e < |Run(steps).tables.events| && Run(steps).tables.events[e].status == IsProcessed
    ensures e < |Take(Run(steps), step).tables.events|
    ensures Take(Run(steps), step).tables.events[e] == Run(steps).tables.events[e]
  {
    Reachable(steps);
    var w := Run(steps);
    match step
    case FinishClaim(p, _, _) =>
      if p in w.works { assert WorkOk(w.tables, w.works[p]); }
    case FinishPost(p, _) =>
      if p in w.works && w.works[p].Posting? {
        assert WorkOk(w.tables, w.works[p]);
        assert DocumentOk(w.tables, w.works[p].document);
      }
    case FinishReview(p) =>
      if p in w.works { assert WorkOk(w.tables, w.works[p]); }
    case _ =>
  }

  /** A draft left over belongs to an event nobody has recorded anything against since. */
  lemma {:induction false} LeftoverWaits(t: Tables, d: ConsumptionId)
    requires TablesOk(t) && d < |t.documents| && !t.documents[d].posted
    ensures var e := t.documents[d].event;
            e < |t.events| && t.events[e].status == StillReceived && DocumentOf(t.documents, e) == Some(d)
  {
    assert DocumentOk(t, d);
    assert EventOk(t, t.documents[d].event);
    var history := t.events[t.documents[d].event].history;
    if history != [] { assert RowOk(history, |history| - 1); }
  }

  /** A crash between the claim and the posting strands nothing: any free processor posts the draft. */
  lemma {:induction false} LeftoverIsPosted(
      steps: seq<Step>, d: ConsumptionId, p: Processor, toleranceMinutes: nat, usage: Option<Reason>)
    requires
      var w := Run(steps);
      && d < |w.tables.documents| && !w.tables.documents[d].posted
      && p !in w.works && EventFree(w, w.tables.documents[d].event) && DocumentFree(w, d)
    ensures
      var w := Run(steps);
      var e := w.tables.documents[d].event;
      && e < |w.tables.events|
      && Run(steps + [LockEvent(p, e), FinishClaim(p, toleranceMinutes, usage), LockDocument(p), FinishPost(p, true)])
         == w.(tables := AfterPost(w.tables, e, d))
  {
    Reachable(steps);
    var w := Run(steps);
    var e := w.tables.documents[d].event;
    LeftoverWaits(w.tables, d);
    var claimed := w.(works := w.works[p := Claimed(e, d, w.tables.documents[d].revision)]);
    ClaimsLeftover(w, e, d, p, toleranceMinutes, usage);
    RunTwoMore(steps, LockEvent(p, e), FinishClaim(p, toleranceMinutes, usage));
    PostsClaimed(w, claimed, e, d, p);
    RunTwoMore(steps + [LockEvent(p, e), FinishClaim(p, toleranceMinutes, usage)], LockDocument(p),
        FinishPost(p, true));
    assert steps + [LockEvent(p, e), FinishClaim(p, toleranceMinutes, usage), LockDocument(p), FinishPost(p, true)]
        == steps + [LockEvent(p, e), FinishClaim(p, toleranceMinutes, usage)] + [LockDocument(p), FinishPost(p, true)];
  }

  lemma {:induction false} ClaimsLeftover(
      w: World, e: EventId, d: ConsumptionId, p: Processor, toleranceMinutes: nat, usage: Option<Reason>)
    requires p !in w.works && EventFree(w, e)
    requires e < |w.tables.events| && w.tables.events[e].status == StillReceived
    requires d < |w.tables.documents| && !w.tables.documents[d].posted && DocumentOf(w.tables.documents, e) == Some(d)
    ensures Take(Take(w, LockEvent(p, e)), FinishClaim(p, toleranceMinutes, usage))
         == w.(works := w.works[p := Claimed(e, d, w.tables.documents[d].revision)])
  {
    assert w.works[p := Claiming(e)][p := Claimed(e, d, w.tables.documents[d].revision)]
        == w.works[p := Claimed(e, d, w.tables.documents[d].revision)];
  }

  lemma {:induction false} PostsClaimed(w: World, claimed: World, e: EventId, d: ConsumptionId, p: Processor)
    requires p !in w.works && EventFree(w, e) && DocumentFree(w, d)
    requires e < |w.tables.events| && d < |w.tables.documents| && !w.tables.documents[d].posted
    requires claimed == w.(works := w.works[p := Claimed(e, d, w.tables.documents[d].revision)])
    ensures Take(Take(claimed, LockDocument(p)), FinishPost(p, true)) == w.(tables := AfterPost(w.tables, e, d))
  {
    assert claimed.works[p := Posting(e, d)] == w.works[p := Posting(e, d)];
    assert w.works[p := Posting(e, d)] - {p} == w.works;
  }

  lemma {:induction false} RunTwoMore(steps: seq<Step>, first: Step, second: Step)
    ensures Run(steps + [first, second]) == Take(Take(Run(steps), first), second)
  {
    var all := steps + [first, second];
    assert all[..|all| - 1] == steps + [first];
    assert (steps + [first])[..|steps|] == steps;
  }
}
