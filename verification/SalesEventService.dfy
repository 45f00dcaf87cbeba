/**
 * The branch consumption service (branch-consumption.service.ts): one event processed from claim to
 * posting, a person's request to try one again, and a run over everything that waits. Working alone
 * it takes the same transactions as one processor of the machine in `SalesEvents`.
 */
module SalesEventService {
  import opened Options
  import opened SalesEvents

  const BATCH: nat := 100

  /** What the rest of the system answers while a run lasts: usages, and whether a posting is written. */
  datatype Surroundings = Surroundings(today: int, toleranceMinutes: nat, usage: EventId -> Option<Reason>,
      written: EventId -> bool)

  /** An event claimed and, when that leaves a draft, posted. No attempt means the posting broke off. */
  datatype Processing = Processing(tables: Tables, attempt: Option<Attempt>)

  function Process(t: Tables, e: EventId, around: Surroundings): Processing {
    if e >= |t.events| || t.events[e].status != StillReceived then Processing(t, Some(AttemptSkipped))
    else
      var after := AfterClaim(t, e, around.today, around.toleranceMinutes, around.usage(e));
      match ClaimOf(t, e, around.today, around.toleranceMinutes, around.usage(e))
      case Ends(attempt) => Processing(after, Some(attempt))
      case Draft(d, revision) =>
        if !Postable(after, d, revision) then Processing(after, Some(AttemptSkipped))
        else if !around.written(e) then Processing(after, None)
        else Processing(AfterPost(after, e, d), Some(AttemptProcessed))
  }

  /** Waiting ids from one event on, oldest first. */
  function WaitingFrom(events: seq<SalesEvent>, from: nat, limit: nat, excluding: set<EventId>): (ids: seq<EventId>)
    requires from <= |events|
    ensures |ids| <= limit
    ensures forall i :: 0 <= i < |ids| ==>
              from <= ids[i] < |events| && events[ids[i]].status == StillReceived && ids[i] !in excluding
    ensures forall i, j :: 0 <= i < j < |ids| ==> ids[i] < ids[j]
    ensures forall e :: from <= e < |events| && events[e].status == StillReceived && e !in excluding && e !in ids ==>
              |ids| == limit && forall i :: 0 <= i < |ids| ==> ids[i] < e
    ensures |ids| < limit ==>
              forall e :: from <= e < |events| && events[e].status == StillReceived && e !in excluding ==> e in ids
    decreases |events| - from
  {
    if from == |events| || limit == 0 then []
    else if events[from].status == StillReceived && from !in excluding
    then
      var rest := WaitingFrom(events, from + 1, limit - 1, excluding);
      assert forall e :: e in rest ==> e in [from] + rest;
      [from] + rest
    else WaitingFrom(events, from + 1, limit, excluding)
  }

  function HeldIds(events: seq<SalesEvent>): set<EventId> {
    set e | 0 <= e < |events| && Latest(events[e].history) == Some(Held)
  }

  predicate Waits(event: SalesEvent) {
    event.status == StillReceived && Latest(event.history) != Some(Held)
  }

  /** How many of the first `n` events a run has not seen. */
  function Unseen(n: nat, seen: set<EventId>): nat {
    if n == 0 then 0 else Unseen(n - 1, seen) + if n - 1 in seen then 0 else 1
  }

  lemma {:induction false} UnseenFalls(n: nat, before: set<EventId>, seen: set<EventId>, e: EventId)
    requires before <= seen
    ensures Unseen(n, seen) <= Unseen(n, before)
    ensures e < n && e !in before && e in seen ==> Unseen(n, seen) < Unseen(n, before)
  {
    if n == 0 {
    } else {
      UnseenFalls(n - 1, before, seen, e);
    }
  }

  /** Nothing more to do with an event for now: it has ended, is held, or waits for its day. */
  predicate Settled(events: seq<SalesEvent>, e: EventId, today: int)
    requires e < |events|
  {
    var event := events[e];
    || event.status != StillReceived || event.saleDate > today
    || (event.history != [] && event.history[|event.history| - 1] == Held)
  }

  function Count(events: seq<SalesEvent>, p: SalesEvent -> bool): nat {
    if events == [] then 0 else Count(events[..|events| - 1], p) + if p(events[|events| - 1]) then 1 else 0
  }

  function HasStatus(status: EventStatus): SalesEvent -> bool {
    (e: SalesEvent) => e.status == status
  }

  function IsHeld(): SalesEvent -> bool {
    (e: SalesEvent) => Latest(e.history) == Some(Held)
  }

  datatype Totals = Totals(processed: nat, failed: nat, held: nat, waiting: nat, skipped: nat)

  function Counted(totals: Totals, attempt: Attempt): Totals {
    match attempt
    case AttemptProcessed => totals.(processed := totals.processed + 1)
    case AttemptFailed => totals.(failed := totals.failed + 1)
    case AttemptHeld => totals.(held := totals.held + 1)
    case AttemptWaiting => totals.(waiting := totals.waiting + 1)
    case AttemptSkipped => totals.(skipped := totals.skipped + 1)
  }

  lemma {:induction false} CountUpdate(events: seq<SalesEvent>, e: EventId, x: SalesEvent, p: SalesEvent -> bool)
    requires e < |events|
    ensures Count(events[e := x], p) + (if p(events[e]) then 1 else 0) == Count(events, p) + if p(x) then 1 else 0
  {
    var front := events[..|events| - 1];
    if e < |front| {
      CountUpdate(front, e, x, p);
      assert events[e := x][..|events| - 1] == front[e := x];
    } else {
      assert events[e := x][..|events| - 1] == front;
    }
  }

  /** What processing one waiting event does to it, and to nothing else. */
  lemma {:induction false} ProcessSettles(t: Tables, e: EventId, around: Surroundings)
    requires TablesOk(t) && e < |t.events|
    requires Waits(t.events[e])
    ensures
      var r := Process(t, e, around);
      && TablesOk(r.tables)
      && |r.tables.events| == |t.events|
      && (forall i :: 0 <= i < |t.events| && i != e ==> r.tables.events[i] == t.events[i])
      && (r.attempt.None? ==> r.tables.events == t.events)
      && (r.attempt.Some? ==>
            Settled(r.tables.events, e, around.today) && AttemptIs(r.tables.events[e], r.attempt.value))
  {
    assert EventOk(t, e);
    ClaimKeeps(t, e, around.today, around.toleranceMinutes, around.usage(e));
    var existing := DocumentOf(t.documents, e);
    if existing.Some? { assert DocumentOk(t, existing.value); }
    match ClaimOf(t, e, around.today, around.toleranceMinutes, around.usage(e))
    case Ends(_) =>
    case Draft(d, _) => PostKeeps(AfterClaim(t, e, around.today, around.toleranceMinutes, around.usage(e)), d);
  }

  /** What an attempt says of its event afterwards. */
  predicate AttemptIs(event: SalesEvent, attempt: Attempt) {
    match attempt
    case AttemptProcessed => event.status == IsProcessed
    case AttemptFailed => event.status == HasFailed
    case AttemptHeld => event.status == StillReceived && Latest(event.history) == Some(Held)
    case AttemptWaiting => Waits(event)
    case AttemptSkipped => false
  }

  /** The totals so far against what became of the events. */
  ghost predicate TotalsOk(totals: Totals, before: seq<SalesEvent>, now: seq<SalesEvent>, seen: set<EventId>) {
    && totals.processed + Count(before, HasStatus(IsProcessed)) == Count(now, HasStatus(IsProcessed))
    && totals.failed + Count(before, HasStatus(HasFailed)) == Count(now, HasStatus(HasFailed))
    && totals.held + Count(before, IsHeld()) == Count(now, IsHeld())
    && totals.skipped == 0
    && totals.processed + totals.failed + totals.held + totals.waiting == |seen|
  }

  lemma {:induction false} TotalsGrow(
      totals: Totals, before: seq<SalesEvent>, now: seq<SalesEvent>, after: seq<SalesEvent>, seen: set<EventId>,
      e: EventId, attempt: Attempt)
    requires TotalsOk(totals, before, now, seen) && e !in seen
    requires e < |now| == |after| && after == now[e := after[e]]
    requires Waits(now[e])
    requires AttemptIs(after[e], attempt)
    requires after[e].status == IsProcessed || after[e].status == HasFailed ==> Latest(after[e].history) != Some(Held)
    ensures TotalsOk(Counted(totals, attempt), before, after, seen + {e})
  {
    CountUpdate(now, e, after[e], HasStatus(IsProcessed));
    CountUpdate(now, e, after[e], HasStatus(HasFailed));
    CountUpdate(now, e, after[e], IsHeld());
  }

  function SetOf(ids: seq<EventId>): set<EventId> {
    set id | id in ids
  }

  /** Every event seen is settled. */
  ghost predicate AllSettled(events: seq<SalesEvent>, seen: set<EventId>, today: int) {
    forall e :: e in seen ==> e < |events| && Settled(events, e, today)
  }

  /** No event but these has changed. */
  ghost predicate Untouched(was: seq<SalesEvent>, now: seq<SalesEvent>, ids: seq<EventId>) {
    |was| == |now| && forall e :: 0 <= e < |now| && e !in ids ==> now[e] == was[e]
  }

  /** Each of these events waits and is seen for the first time. */
  ghost predicate NewOnes(events: seq<SalesEvent>, ids: seq<EventId>, known: set<EventId>) {
    && (forall i, j :: 0 <= i < j < |ids| ==> ids[i] != ids[j])
    && (forall i :: 0 <= i < |ids| ==> ids[i] < |events| && ids[i] !in known && Waits(events[ids[i]]))
  }

  /** The first so many events of a batch are seen and no other has changed. */
  ghost predicate BatchSoFar(
      was: seq<SalesEvent>, now: seq<SalesEvent>, ids: seq<EventId>, i: nat, known: set<EventId>, seen: set<EventId>)
    requires i <= |ids|
  {
    Untouched(was, now, ids[..i]) && seen == known + SetOf(ids[..i])
  }

  lemma {:induction false} NextIsNew(
      was: seq<SalesEvent>, now: seq<SalesEvent>, ids: seq<EventId>, known: set<EventId>, seen: set<EventId>, i: nat)
    requires i < |ids| && NewOnes(was, ids, known) && BatchSoFar(was, now, ids, i, known, seen)
    ensures ids[i] < |now| && ids[i] !in seen && Waits(now[ids[i]])
  {
    assert ids[i] !in ids[..i];
  }

  lemma {:induction false} BatchGoesOn(
      was: seq<SalesEvent>, now: seq<SalesEvent>, after: seq<SalesEvent>, ids: seq<EventId>, i: nat,
      known: set<EventId>, seen: set<EventId>)
    requires i < |ids| && BatchSoFar(was, now, ids, i, known, seen)
    requires ids[i] < |now| == |after| && after == now[ids[i] := after[ids[i]]]
    ensures BatchSoFar(was, after, ids, i + 1, known, seen + {ids[i]})
    ensures Untouched(was, after, ids)
  {
    assert ids[..i + 1] == ids[..i] + [ids[i]];
    assert forall e :: e in ids[..i] ==> e in ids;
  }

  lemma {:induction false} SettledStay(
      now: seq<SalesEvent>, after: seq<SalesEvent>, e: EventId, seen: set<EventId>, today: int)
    requires e < |now| == |after| && after == now[e := after[e]] && Settled(after, e, today)
    requires AllSettled(now, seen, today)
    ensures AllSettled(after, seen + {e}, today)
  {}

  /** The next events of a run: those of `WaitingFrom` that are neither held nor seen. */
  function NextBatch(events: seq<SalesEvent>, seen: set<EventId>): seq<EventId> {
    WaitingFrom(events, 0, BATCH, HeldIds(events) + seen)
  }

  lemma {:induction false} NextBatchIsNew(events: seq<SalesEvent>, seen: set<EventId>)
    ensures NewOnes(events, NextBatch(events, seen), seen)
  {}

  /** Once a batch that was short is through, nothing is left to do. */
  lemma {:induction false} ShortBatchEnds(
      was: seq<SalesEvent>, now: seq<SalesEvent>, known: set<EventId>, seen: set<EventId>, today: int)
    requires |NextBatch(was, known)| < BATCH
    requires Untouched(was, now, NextBatch(was, known)) && seen == known + SetOf(NextBatch(was, known))
    requires AllSettled(now, seen, today)
    ensures forall e :: 0 <= e < |now| ==> Settled(now, e, today)
  {
    forall e | 0 <= e < |now| ensures Settled(now, e, today) {
      if e !in seen { assert now[e] == was[e]; }
    }
  }

  /** Alone, the service takes the steps of one processor of the machine. */
  lemma {:induction false} ProcessIsSteps(w: World, e: EventId, around: Surroundings, p: Processor)
    requires Inv(w) && w.works == map[] && around.today == w.today
    ensures
      Take(Take(Take(Take(w, LockEvent(p, e)), FinishClaim(p, around.toleranceMinutes, around.usage(e))),
                LockDocument(p)), FinishPost(p, around.written(e)))
      == w.(tables := Process(w.tables, e, around).tables)
  {
    if e < |w.tables.events| && w.tables.events[e].status == StillReceived {
      assert EventFree(w, e);
      assert w.works[p := Claiming(e)] == map[p := Claiming(e)];
      assert map[p := Claiming(e)] - {p} == map[];
      var after := AfterClaim(w.tables, e, around.today, around.toleranceMinutes, around.usage(e));
      match ClaimOf(w.tables, e, around.today, around.toleranceMinutes, around.usage(e))
      case Ends(_) =>
      case Draft(d, revision) =>
        var claimed := World(after, map[p := Claimed(e, d, revision)], w.today);
        assert map[p := Claiming(e)][p := Claimed(e, d, revision)] == claimed.works;
        assert claimed.works - {p} == map[];
        assert claimed.works[p := Posting(e, d)] == map[p := Posting(e, d)];
        assert map[p := Posting(e, d)] - {p} == map[];
    }
  }

  class BranchConsumption {
    var events: seq<SalesEvent>
    var documents: seq<Consumption>

    constructor ()
      ensures Stored() == Tables([], []) && Valid()
    {
      events, documents := [], [];
    }

    function Stored(): Tables
      reads this
    {
      Tables(events, documents)
    }

    ghost predicate Valid()
      reads this
    {
      TablesOk(Stored())
    }

    method AddRow(e: EventId, outcome: Outcome, status: EventStatus)
      requires e < |events|
      modifies this
      ensures Stored() == Record(old(Stored()), e, outcome, status)
    {
      events := events[e := events[e].(history := events[e].history + [outcome], status := status)];
    }

    /** Computes `ClaimOf` and leaves the tables as `AfterClaim` has them. */
    method ClaimEvent(e: EventId, around: Surroundings) returns (claim: Claim)
      requires e < |events| && events[e].status == StillReceived
      modifies this
      ensures claim == ClaimOf(old(Stored()), e, around.today, around.toleranceMinutes, around.usage(e))
      ensures Stored() == AfterClaim(old(Stored()), e, around.today, around.toleranceMinutes, around.usage(e))
    {
      var event := events[e];
      var existing := DocumentOf(documents, e);
      if existing.Some? {
        if documents[existing.value].posted { return Ends(AttemptSkipped); }
        return Draft(existing.value, documents[existing.value].revision);
      }
      if Latest(event.history) == Some(Held) { return Ends(AttemptSkipped); }
      var decision := SaleTimeDecision(event.ahead, event.saleDate, around.today, around.toleranceMinutes,
          Reprocessed in event.history);
      if decision == Wait { return Ends(AttemptWaiting); }
      if decision == Hold {
        AddRow(e, Held, event.status);
        return Ends(AttemptHeld);
      }
      var usage := around.usage(e);
      if usage.Some? {
        AddRow(e, Failed(usage.value), HasFailed);
        return Ends(AttemptFailed);
      }
      claim := Draft(|documents|, 1);
      documents := documents + [Consumption(e, false, 1)];
    }

    /** Computes `Process`; no attempt is returned when the posting was not written. */
    method ProcessOne(e: EventId, around: Surroundings) returns (attempt: Option<Attempt>)
      modifies this
      ensures Processing(Stored(), attempt) == Process(old(Stored()), e, around)
    {
      if e >= |events| || events[e].status != StillReceived { return Some(AttemptSkipped); }
      var claim := ClaimEvent(e, around);
      if claim.Ends? { return Some(claim.attempt); }
      if !Postable(Stored(), claim.document, claim.revision) { return Some(AttemptSkipped); }
      if !around.written(e) { return None; }
      var d := claim.document;
      documents := documents[d := documents[d].(posted := true, revision := documents[d].revision + 1)];
      AddRow(e, Processed(d), IsProcessed);
      attempt := Some(AttemptProcessed);
    }

    /** `AfterReview`, followed by `Process` when it succeeds. */
    method Reprocess(e: EventId, around: Surroundings) returns (refusal: Option<Refusal>)
      modifies this
      ensures
        var r := AfterReview(old(Stored()), e, around.today);
        && (r.Failure? ==> refusal == Some(r.error) && Stored() == old(Stored()))
        && (r.Success? ==> refusal == None && Stored() == Process(r.value, e, around).tables)
    {
      if e >= |events| { return Some(NoSuchEvent); }
      var event := events[e];
      if event.status == IsProcessed { return Some(EventIsProcessed); }
      var latest := Latest(event.history);
      if latest.None? || !IsProblem(latest.value) || ReprocessBlocked(latest.value, event.saleDate, around.today) {
        return Some(NotReprocessable);
      }
      AddRow(e, Reprocessed, StillReceived);
      var _ := ProcessOne(e, around);
      refusal := None;
    }

    /** One waiting event: it is settled, unless its posting broke off, and no other is touched. */
    method ProcessWaiting(e: EventId, around: Surroundings) returns (attempt: Option<Attempt>)
      requires Valid() && e < |events| && Waits(events[e])
      modifies this
      ensures Valid() && |events| == |old(events)|
      ensures forall i :: 0 <= i < |events| && i != e ==> events[i] == old(events[i])
      ensures attempt.None? ==> events == old(events)
      ensures attempt.Some? ==> Settled(events, e, around.today) && AttemptIs(events[e], attempt.value)
      ensures events[e].status == IsProcessed || events[e].status == HasFailed ==>
          Latest(events[e].history) != Some(Held)
    {
      ProcessSettles(Stored(), e, around);
      attempt := ProcessOne(e, around);
      assert EventOk(Stored(), e);
    }

    /** The events of one batch, one after another until a posting breaks off. */
    method RunBatch(
        ids: seq<EventId>, around: Surroundings, sofar: Totals, known: set<EventId>, ghost before: seq<SalesEvent>)
      returns (totals: Totals, seen: set<EventId>, finished: bool)
      requires Valid() && TotalsOk(sofar, before, events, known) && AllSettled(events, known, around.today)
      requires NewOnes(events, ids, known)
      modifies this
      ensures Valid() && TotalsOk(totals, before, events, seen) && AllSettled(events, seen, around.today)
      ensures Untouched(old(events), events, ids)
      ensures finished ==> seen == known + SetOf(ids)
    {
      totals, seen, finished := sofar, known, true;
      var i := 0;
      while i < |ids|
        invariant 0 <= i <= |ids| && Valid() && finished
        invariant BatchSoFar(old(events), events, ids, i, known, seen)
        invariant TotalsOk(totals, before, events, seen) && AllSettled(events, seen, around.today)
      {
        ghost var now := events;
        NextIsNew(old(events), now, ids, known, seen, i);
        totals, seen, finished := RunOne(ids[i], around, totals, seen, before);
        BatchGoesOn(old(events), now, events, ids, i, known, known + SetOf(ids[..i]));
        if !finished { return; }
        i := i + 1;
      }
      assert ids[..i] == ids;
    }

    /** The next event of a batch; totals and events seen stay when its posting breaks off. */
    method RunOne(id: EventId, around: Surroundings, sofar: Totals, known: set<EventId>, ghost before: seq<SalesEvent>)
      returns (totals: Totals, seen: set<EventId>, finished: bool)
      requires Valid() && TotalsOk(sofar, before, events, known) && AllSettled(events, known, around.today)
      requires id < |events| && id !in known && Waits(events[id])
      modifies this
      ensures Valid() && TotalsOk(totals, before, events, seen) && AllSettled(events, seen, around.today)
      ensures |events| == |old(events)| && events == old(events)[id := events[id]]
      ensures seen == if finished then known + {id} else known
    {
      var attempt := ProcessWaiting(id, around);
      assert events == old(events)[id := events[id]];
      if attempt.None? { return sofar, known, false; }
      TotalsGrow(sofar, before, old(events), events, known, id, attempt.value);
      SettledStay(old(events), events, id, known, around.today);
      return Counted(sofar, attempt.value), known + {id}, true;
    }

    /**
     * Batches of `WaitingFrom` until one is short. After a finished run every event has ended, is on
     * hold or is dated ahead, and each total is how many more events there are of its kind.
     */
    method RunBatches(around: Surroundings) returns (totals: Totals, finished: bool)
      requires Valid()
      modifies this
      ensures Valid() && |events| == |old(events)|
      ensures finished ==> forall e :: 0 <= e < |events| ==> Settled(events, e, around.today)
      ensures totals.skipped == 0
      ensures totals.processed + Count(old(events), HasStatus(IsProcessed)) == Count(events, HasStatus(IsProcessed))
      ensures totals.failed + Count(old(events), HasStatus(HasFailed)) == Count(events, HasStatus(HasFailed))
      ensures totals.held + Count(old(events), IsHeld()) == Count(events, IsHeld())
    {
      totals := Totals(0, 0, 0, 0, 0);
      var seen: set<EventId> := {};
      while true
        invariant Valid() && |events| == |old(events)|
        invariant AllSettled(events, seen, around.today)
        invariant TotalsOk(totals, old(events), events, seen)
        decreases Unseen(|events|, seen)
      {
        var ids := NextBatch(events, seen);
        ghost var was, before := events, seen;
        NextBatchIsNew(events, seen);
        var ended: bool;
        totals, seen, ended := RunBatch(ids, around, totals, seen, old(events));
        if !ended { return totals, false; }
        if |ids| < BATCH {
          ShortBatchEnds(was, events, before, seen, around.today);
          return totals, true;
        }
        assert ids[0] in seen;
        UnseenFalls(|events|, before, seen, ids[0]);
      }
    }
  }
}
