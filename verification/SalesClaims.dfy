/** What becomes of a sale when it is claimed, reviewed and processed, said of the sale itself. */
module SalesClaims {
  import opened Options
  import opened SalesEvents
  import opened SalesEventService

  predicate HasDocument(t: Tables, e: EventId) {
    exists d :: 0 <= d < |t.documents| && t.documents[d].event == e
  }

  predicate WasReviewed(event: SalesEvent) {
    exists i :: 0 <= i < |event.history| && event.history[i] == Reprocessed
  }

  predicate IsOnHold(event: SalesEvent) {
    event.history != [] && event.history[|event.history| - 1] == Held
  }

  /** The sale's own clock is ahead of ours by more than is tolerated, and nobody has let it go on. */
  predicate IsSuspicious(event: SalesEvent, toleranceMinutes: nat) {
    event.ahead > toleranceMinutes * 60_000 && !WasReviewed(event)
  }

  /** One event has these rows and this status, and all else is as it was. */
  predicate OnlyEvent(t: Tables, after: Tables, e: EventId, history: seq<Outcome>, status: EventStatus) {
    && e < |t.events| == |after.events|
    && after.events[e] == SalesEvent(t.events[e].saleDate, t.events[e].ahead, status, history)
    && forall i :: 0 <= i < |t.events| && i != e ==> after.events[i] == t.events[i]
  }

  /**
   * A sale with no document that is not on hold: held when it is too far ahead, else left to wait
   * until its day, else failed for want of a usage, and drafted in every other case.
   */
  lemma {:induction false} ClaimDecides(
      t: Tables, e: EventId, today: int, toleranceMinutes: nat, usage: Option<Reason>)
    requires e < |t.events| && !HasDocument(t, e) && !IsOnHold(t.events[e])
    ensures
      var event, claim := t.events[e], ClaimOf(t, e, today, toleranceMinutes, usage);
      var suspicious := IsSuspicious(event, toleranceMinutes);
      && (claim == Ends(AttemptHeld) <==> suspicious)
      && (claim == Ends(AttemptWaiting) <==> !suspicious && event.saleDate > today)
      && (claim == Ends(AttemptFailed) <==> !suspicious && event.saleDate <= today && usage.Some?)
      && (claim == Draft(|t.documents|, 1) <==> !suspicious && event.saleDate <= today && usage.None?)
    ensures
      var event, after := t.events[e], AfterClaim(t, e, today, toleranceMinutes, usage);
      if IsSuspicious(event, toleranceMinutes) then
        OnlyEvent(t, after, e, event.history + [Held], event.status) && after.documents == t.documents
      else if event.saleDate > today then after == t
      else if usage.Some? then
        && OnlyEvent(t, after, e, event.history + [Failed(usage.value)], HasFailed)
        && after.documents == t.documents
      else after.events == t.events && after.documents == t.documents + [Consumption(e, false, 1)]
  {
    assert Reprocessed in t.events[e].history <==> WasReviewed(t.events[e]);
  }

  /** On hold and with no document, it is passed over; with a document, that is posted or passed over. */
  lemma {:induction false} ClaimOfTheRest(
      t: Tables, e: EventId, today: int, toleranceMinutes: nat, usage: Option<Reason>)
    requires e < |t.events| && (HasDocument(t, e) || IsOnHold(t.events[e]))
    ensures AfterClaim(t, e, today, toleranceMinutes, usage) == t
    ensures
      var claim := ClaimOf(t, e, today, toleranceMinutes, usage);
      if HasDocument(t, e) then
        exists d :: 0 <= d < |t.documents| && t.documents[d].event == e
          && claim == if t.documents[d].posted then Ends(AttemptSkipped) else Draft(d, t.documents[d].revision)
      else claim == Ends(AttemptSkipped)
  {
    var existing := DocumentOf(t.documents, e);
    if HasDocument(t, e) { assert t.documents[existing.value].event == e; }
  }

  /** Ordinary sales: one received five seconds after it was made, and one just within tolerance. */
  lemma {:induction false} OrdinarySalesGoAhead()
    ensures
      var t := Tables([SalesEvent(7, -5000, StillReceived, []), SalesEvent(7, 300_000, StillReceived, [])], []);
      && ClaimOf(t, 0, 7, 5, None) == Draft(0, 1) && ClaimOf(t, 1, 7, 5, None) == Draft(0, 1)
      && AfterClaim(t, 0, 7, 5, None) == t.(documents := [Consumption(0, false, 1)])
  {
    var t := Tables([SalesEvent(7, -5000, StillReceived, []), SalesEvent(7, 300_000, StillReceived, [])], []);
    assert t.events[0].history == [] && t.events[1].history == [];
  }

  /** What a person may put right: a hold whose day has come, or a failure that the catalogue can now answer. */
  predicate CanBeFixed(problem: Outcome, saleDate: int, today: int) {
    || (problem == Held && today >= saleDate)
    || problem == Failed(UnknownMenuItem) || problem == Failed(UnknownModifier)
    || problem == Failed(InactiveIngredient)
    || (problem == Failed(NoRecipeInEffect) && saleDate >= today)
  }

  /** A review succeeds exactly for an unprocessed event whose last row can be fixed; it adds one row. */
  lemma {:induction false} ReviewDecides(t: Tables, e: EventId, today: int)
    ensures
      AfterReview(t, e, today).Success? <==>
        && e < |t.events| && t.events[e].status != IsProcessed && t.events[e].history != []
        && CanBeFixed(t.events[e].history[|t.events[e].history| - 1], t.events[e].saleDate, today)
    ensures AfterReview(t, e, today).Failure? ==>
        AfterReview(t, e, today).error
        == if e >= |t.events| then NoSuchEvent
           else if t.events[e].status == IsProcessed then EventIsProcessed else NotReprocessable
    ensures AfterReview(t, e, today).Success? ==>
        && OnlyEvent(t, AfterReview(t, e, today).value, e, t.events[e].history + [Reprocessed], StillReceived)
        && AfterReview(t, e, today).value.documents == t.documents
  {}

  /** Processing a sale that has neither a document nor a hold posts it exactly when nothing stands against it. */
  lemma {:induction false} ProcessedWhen(t: Tables, e: EventId, around: Surroundings)
    requires e < |t.events| && t.events[e].status == StillReceived
    requires !HasDocument(t, e) && !IsOnHold(t.events[e])
    ensures
      var event, r := t.events[e], Process(t, e, around);
      && (r.attempt == Some(AttemptProcessed) <==>
            && !IsSuspicious(event, around.toleranceMinutes) && event.saleDate <= around.today
            && around.usage(e).None? && around.written(e))
      && (r.attempt == Some(AttemptProcessed) ==>
            && OnlyEvent(t, r.tables, e, event.history + [Processed(|t.documents|)], IsProcessed)
            && r.tables.documents == t.documents + [Consumption(e, true, 2)])
      && (r.attempt == None <==>
            && !IsSuspicious(event, around.toleranceMinutes) && event.saleDate <= around.today
            && around.usage(e).None? && !around.written(e))
  {
    ClaimDecides(t, e, around.today, around.toleranceMinutes, around.usage(e));
  }

  /** The one draft of an event is taken up and posted; tolerance, day and usage are not asked again. */
  lemma {:induction false} LeftoverDraftIsPosted(t: Tables, e: EventId, d: ConsumptionId, around: Surroundings)
    requires e < |t.events| && t.events[e].status == StillReceived
    requires d < |t.documents| && t.documents[d].event == e && !t.documents[d].posted
    requires forall c :: 0 <= c < |t.documents| && t.documents[c].event == e ==> c == d
    requires around.written(e)
    ensures
      var r := Process(t, e, around);
      && r.attempt == Some(AttemptProcessed)
      && OnlyEvent(t, r.tables, e, t.events[e].history + [Processed(d)], IsProcessed)
      && r.tables.documents == t.documents[d := Consumption(e, true, t.documents[d].revision + 1)]
  {
    assert HasDocument(t, e);
    ClaimOfTheRest(t, e, around.today, around.toleranceMinutes, around.usage(e));
  }

  // --- One at a time --------------------------------------------------------------------------------

  /** A review under the event's lock takes effect exactly when it may; else all is as it was. */
  lemma {:induction false} ReviewIsSteps(w: World, e: EventId, p: Processor)
    requires w.works == map[] && e < |w.tables.events|
    ensures
      var r := AfterReview(w.tables, e, w.today);
      Take(Take(w, LockForReview(p, e)), FinishReview(p)) == if r.Success? then w.(tables := r.value) else w
  {
    if w.tables.events[e].status != IsProcessed {
      assert w.works[p := Reviewing(e)] == map[p := Reviewing(e)];
      assert map[p := Reviewing(e)] - {p} == map[];
    }
  }

  /** Sales come in with nothing recorded, days pass, and a crash lets go of what was held. */
  lemma {:induction false} TheWorldGoesOn(w: World, saleDate: int, ahead: int, p: Processor)
    ensures
      var n := Take(w, Receive(saleDate, ahead));
      && n.works == w.works && n.today == w.today && n.tables.documents == w.tables.documents
      && n.tables.events == w.tables.events + [SalesEvent(saleDate, ahead, StillReceived, [])]
    ensures Take(w, NextDay) == w.(today := w.today + 1)
    ensures Take(w, Crash(p)) == w.(works := w.works - {p})
  {}
}
