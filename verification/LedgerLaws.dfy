/** What the ledger promises in every state it can reach. */
module LedgerLaws {
  import opened Options
  import opened PostingRules
  import opened Ledger
  import opened LedgerInvariant
  import opened LedgerSums

  // --- The snapshot ---------------------------------------------------------------------------

  /** The keys whose row in `balances` differs from `Net` of the entries, a missing row included. */
  function CompareBalances(s: Ledger): set<Key> {
    var ledger := Net(Moves(s.entries));
    set k | k in s.balances.Keys + ledger.Keys &&
            !(k in s.balances && k in ledger && s.balances[k] == ledger[k])
  }

  /** The comparison is empty exactly when the snapshot is the sum of the entries. */
  lemma {:induction false} CompareBalancesDecides(s: Ledger)
    ensures CompareBalances(s) == {} <==> SnapshotOk(s)
  {
    var ledger := Net(Moves(s.entries));
    if CompareBalances(s) == {} {
      forall k | k in s.balances.Keys + ledger.Keys
        ensures k in s.balances && k in ledger && s.balances[k] == ledger[k]
      {
        assert k !in CompareBalances(s);
      }
      assert s.balances.Keys == ledger.Keys;
    }
  }

  /** Whatever is posted, reversed or rebuilt, the snapshot never disagrees with the ledger. */
  lemma {:induction false} SnapshotNeverDrifts(sites: Sites, steps: seq<Step>)
    requires ProperSteps(steps)
    ensures CompareBalances(Run(sites, steps)) == {}
    ensures Rebuild(Run(sites, steps)) == Run(sites, steps)
  {
    Reachable(sites, steps);
    CompareBalancesDecides(Run(sites, steps));
  }

  /**
   * However the snapshot of a running ledger went wrong, a rebuild brings back the very state the
   * ledger was in; and it leaves a state as it is exactly when there was nothing to mend.
   */
  lemma {:induction false} RebuildMends(sites: Sites, steps: seq<Step>, wrong: Balances)
    requires ProperSteps(steps)
    ensures
      var s := Run(sites, steps);
      && Rebuild(s.(balances := wrong)) == s
      && (Rebuild(s.(balances := wrong)) == s.(balances := wrong) <==> CompareBalances(s.(balances := wrong)) == {})
  {
    var s := Run(sites, steps);
    Reachable(sites, steps);
    CompareBalancesDecides(s.(balances := wrong));
    assert s.(balances := wrong) == s <==> wrong == s.balances;
  }

  /**
   * Judging a posting by the snapshot rows it touches gives the answer that summing every entry
   * again would give: the same refusal, or the same rows.
   */
  lemma {:induction false} SnapshotJudgesLikeTheLedger(
      sites: Sites, steps: seq<Step>, moves: seq<Movement>, r: Outcome, q: Outcome)
    requires ProperSteps(steps)
    requires
      var s := Run(sites, steps);
      && Judged(sites, (map k | k in s.balances && k in Keys(moves) :: s.balances[k]), moves, r)
      && Judged(sites, Net(Moves(s.entries)), moves, q)
    ensures r == q
  {
    Reachable(sites, steps);
    var s := Run(sites, steps);
    JudgedOnce(sites, map k | k in s.balances && k in Keys(moves) :: s.balances[k], Net(Moves(s.entries)), moves, r, q);
  }

  // --- Reversals ------------------------------------------------------------------------------

  /**
   * A document is reversed at most once and a reversal never: asking again is refused by name, on
   * any day, and no two documents reverse the same one.
   */
  lemma {:induction false} ReversedOnce(sites: Sites, steps: seq<Step>, id: DocumentId, day: Option<int>, actor: nat)
    requires ProperSteps(steps) && id < |Run(sites, steps).documents|
    ensures
      var s := Run(sites, steps);
      && (IsReversed(s.documents, id) ==> Reverse(sites, s, id, day, actor) == Failure(AlreadyReversed))
      && (s.documents[id].kind == Reversal ==> Reverse(sites, s, id, day, actor) == Failure(ReversalOfReversal))
      && forall i, j :: (0 <= i < |s.documents| && 0 <= j < |s.documents|
                         && Reverses(s.documents[i], id) && Reverses(s.documents[j], id)) ==> i == j
  {
    Reachable(sites, steps);
    var s := Run(sites, steps);
    assert DocumentOk(s, id);
    if IsReversed(s.documents, id) {
      var r :| 0 <= r < |s.documents| && Reverses(s.documents[r], id);
      assert DocumentOk(s, r);
    }
  }

  lemma {:induction false} ReversedStays(sites: Sites, s: Ledger, step: Step, id: DocumentId)
    requires Inv(sites, s) && id < |s.documents|
    ensures id < |Do(sites, s, step).documents|
    ensures IsReversed(s.documents, id) ==> IsReversed(Do(sites, s, step).documents, id)
    ensures s.documents[id].kind == Do(sites, s, step).documents[id].kind
  {
    var n := Do(sites, s, step);
    if r :| 0 <= r < |s.documents| && Reverses(s.documents[r], id) {
      assert DocumentOk(s, r);
      assert Reverses(n.documents[r], id);
    }
  }

  lemma {:induction false} ReversedStaysOn(sites: Sites, steps: seq<Step>, more: seq<Step>, id: DocumentId)
    requires ProperSteps(steps + more) && id < |Run(sites, steps).documents|
    ensures id < |Run(sites, steps + more).documents|
    ensures IsReversed(Run(sites, steps).documents, id) ==> IsReversed(Run(sites, steps + more).documents, id)
    ensures Run(sites, steps).documents[id].kind == Run(sites, steps + more).documents[id].kind
  {
    if more == [] {
      assert steps + more == steps;
    } else {
      var front := more[..|more| - 1];
      assert (steps + more)[..|steps + more| - 1] == steps + front;
      assert forall step :: step in steps + front ==> step in steps + more;
      ReversedStaysOn(sites, steps, front, id);
      Reachable(sites, steps + front);
      ReversedStays(sites, Run(sites, steps + front), more[|more| - 1], id);
    }
  }

  /** Once reversed, a document can never be reversed again, whatever happens in between; nor can a reversal. */
  lemma {:induction false} ReversedForGood(
    sites: Sites, steps: seq<Step>, more: seq<Step>, id: DocumentId, day: Option<int>, actor: nat)
    requires ProperSteps(steps + more) && id < |Run(sites, steps).documents|
    ensures
      var s, later := Run(sites, steps), Run(sites, steps + more);
      && (IsReversed(s.documents, id) ==> Reverse(sites, later, id, day, actor) == Failure(AlreadyReversed))
      && (s.documents[id].kind == Reversal ==> Reverse(sites, later, id, day, actor) == Failure(ReversalOfReversal))
  {
    ReversedStaysOn(sites, steps, more, id);
    ReversedOnce(sites, steps + more, id, day, actor);
  }

  /** `w` on the entries of either document dated by `asOf`, and nothing on all others. */
  function Together(w: Entry -> int, original: DocumentId, reversal: DocumentId, asOf: int): Entry -> int {
    (e: Entry) => if (e.document == original || e.document == reversal) && e.time.day <= asOf then w(e) else 0
  }

  /**
   * A reversed document shows nothing before its own date, all of its entries from then until the
   * reversal's date, and exactly nothing from the reversal's date on, at any lot and location, in
   * quantity, in pieces and in value.
   */
  lemma {:induction false} ReversedAsOf(
    sites: Sites, steps: seq<Step>, original: DocumentId, reversal: DocumentId, w: Entry -> int, asOf: int)
    requires ProperSteps(steps) && Odd(w)
    requires reversal < |Run(sites, steps).documents| && Reverses(Run(sites, steps).documents[reversal], original)
    ensures
      var s := Run(sites, steps);
      && original < |s.documents|
      && Sum(s.entries, Together(w, original, reversal, asOf))
         == if s.documents[original].day <= asOf < s.documents[reversal].day
            then Sum(EntriesOf(s.entries, original), w) else 0
  {
    Reachable(sites, steps);
    var s := Run(sites, steps);
    assert DocumentOk(s, reversal);
    forall i | 0 <= i < |s.entries| ensures EntryOk(s, s.entries[i]) {}
    SumOnlyBy(s.entries, w, original, s.documents[original].day, asOf);
    SumOnlyBy(s.entries, w, reversal, s.documents[reversal].day, asOf);
    SumSplit(s.entries, OnlyBy(w, original, asOf), OnlyBy(w, reversal, asOf), Together(w, original, reversal, asOf));
    CancelledSum(s.entries, EntriesOf(s.entries, original), EntriesOf(s.entries, reversal), w);
  }

  // --- Conservation ---------------------------------------------------------------------------

  /** A document that still counts: no reversal, and not reversed. */
  predicate Live(documents: seq<Document>, id: DocumentId) {
    id < |documents| && documents[id].kind != Reversal && !IsReversed(documents, id)
  }

  function OnlyLive(w: Entry -> int, documents: seq<Document>): Entry -> int {
    (e: Entry) => if Live(documents, e.document) then w(e) else 0
  }

  lemma {:induction false} ReversedNow(documents: seq<Document>, reversal: Document, id: DocumentId)
    requires reversal.reverses == Some(id)
    ensures forall d :: 0 <= d < |documents| ==>
              (IsReversed(documents + [reversal], d) <==> IsReversed(documents, d) || d == id)
  {
    var more := documents + [reversal];
    assert Reverses(more[|documents|], id);
    forall d | 0 <= d < |documents| && IsReversed(documents, d) ensures IsReversed(more, d) {
      var q :| 0 <= q < |documents| && Reverses(documents[q], d);
      assert Reverses(more[q], d);
    }
  }

  /** A reversal takes the whole of its original out of what counts. */
  lemma {:induction false} ReverseLive(
      sites: Sites, s: Ledger, id: DocumentId, day: Option<int>, actor: nat, w: Entry -> int)
    requires Inv(sites, s) && Odd(w)
    requires Reverse(sites, s, id, day, actor).Success?
    requires Sum(s.entries, w) == Sum(s.entries, OnlyLive(w, s.documents))
    ensures var n := Reverse(sites, s, id, day, actor).value;
            Sum(n.entries, w) == Sum(n.entries, OnlyLive(w, n.documents))
  {
    var n := Reverse(sites, s, id, day, actor).value;
    var r := |s.documents|;
    var added := n.entries[|s.entries|..];
    assert n.entries == s.entries + added;
    ReversalCancels(s, id, r, Instant(n.documents[r].day, 0));
    assert n.documents == s.documents + [n.documents[r]];
    LiveBefore(s, n.documents[r], id, w);
    LiveAddedNothing(s.documents, n.documents[r], added, w);
    SumAppend(s.entries, added, w);
    SumAppend(s.entries, added, OnlyLive(w, n.documents));
    CancelledSum(s.entries, EntriesOf(s.entries, id), added, w);
  }

  /** Of the entries there were, what counts after a reversal is what counted before, less the original's. */
  lemma {:induction false} LiveBefore(s: Ledger, reversal: Document, id: DocumentId, w: Entry -> int)
    requires EntriesOk(s) && id < |s.documents| && reversal.reverses == Some(id)
    requires Live(s.documents, id)
    ensures Sum(s.entries, OnlyLive(w, s.documents))
         == Sum(s.entries, OnlyLive(w, s.documents + [reversal])) + Sum(EntriesOf(s.entries, id), w)
  {
    var more := s.documents + [reversal];
    ReversedNow(s.documents, reversal, id);
    forall i | 0 <= i < |s.entries|
      ensures OnlyLive(w, s.documents)(s.entries[i]) == OnlyLive(w, more)(s.entries[i]) + Only(w, id)(s.entries[i])
    {
      assert EntryOk(s, s.entries[i]);
    }
    SumSplit(s.entries, OnlyLive(w, more), Only(w, id), OnlyLive(w, s.documents));
    SumOnly(s.entries, w, id);
  }

  /** A reversal's own entries never count. */
  lemma {:induction false} LiveAddedNothing(
      documents: seq<Document>, reversal: Document, added: seq<Entry>, w: Entry -> int)
    requires reversal.kind == Reversal && forall i :: 0 <= i < |added| ==> added[i].document == |documents|
    ensures Sum(added, OnlyLive(w, documents + [reversal])) == 0
  {
    SumZero(added, OnlyLive(w, documents + [reversal]));
  }

  lemma {:induction false} SumZero(es: seq<Entry>, w: Entry -> int)
    requires forall i :: 0 <= i < |es| ==> w(es[i]) == 0
    ensures Sum(es, w) == 0
  {
    if es == [] {
    } else {
      SumZero(es[..|es| - 1], w);
    }
  }

  /** Apart from a reversal, a transaction only adds entries of the draft it posts. */
  lemma {:induction false} OthersShape(sites: Sites, s: Ledger, step: Step)
    requires !step.ReverseStep?
    ensures
      var n := Do(sites, s, step);
      && |s.documents| <= |n.documents|
      && s.entries <= n.entries
      && (forall d :: 0 <= d < |s.documents| ==>
            n.documents[d].kind == s.documents[d].kind && n.documents[d].reverses == s.documents[d].reverses)
      && (forall d :: |s.documents| <= d < |n.documents| ==> n.documents[d].reverses.None?)
      && forall i :: |s.entries| <= i < |n.entries| ==>
           step.PostStep? && n.entries[i].document == step.id < |s.documents| && s.documents[step.id].status != Posted
  {}

  /** Any other transaction only adds entries of documents that count. */
  lemma {:induction false} OthersLive(sites: Sites, s: Ledger, step: Step, w: Entry -> int)
    requires Inv(sites, s) && !step.ReverseStep?
    requires Sum(s.entries, w) == Sum(s.entries, OnlyLive(w, s.documents))
    ensures var n := Do(sites, s, step); Sum(n.entries, w) == Sum(n.entries, OnlyLive(w, n.documents))
  {
    OthersShape(sites, s, step);
    LiveAppended(s, Do(sites, s, step), w);
  }

  /** Nothing reverses a document that is not posted, and it is no reversal. */
  lemma {:induction false} UnpostedIsLive(s: Ledger, d: DocumentId)
    requires DocumentsOk(s) && d < |s.documents| && s.documents[d].status != Posted
    ensures Live(s.documents, d)
  {
    assert DocumentOk(s, d);
    forall r | 0 <= r < |s.documents| ensures !Reverses(s.documents[r], d) {
      assert DocumentOk(s, r);
    }
  }

  /** Documents drafted later reverse nothing, so the same documents count. */
  lemma {:induction false} LiveStays(documents: seq<Document>, more: seq<Document>, d: DocumentId)
    requires d < |documents| <= |more|
    requires forall r :: 0 <= r < |documents| ==>
               more[r].kind == documents[r].kind && more[r].reverses == documents[r].reverses
    requires forall r :: |documents| <= r < |more| ==> more[r].reverses.None?
    ensures Live(more, d) == Live(documents, d)
  {
    assert forall r :: 0 <= r < |documents| ==> Reverses(more[r], d) == Reverses(documents[r], d);
  }

  lemma {:induction false} LiveAppended(s: Ledger, n: Ledger, w: Entry -> int)
    requires EntriesOk(s) && DocumentsOk(s)
    requires |s.documents| <= |n.documents| && s.entries <= n.entries
    requires forall d :: 0 <= d < |s.documents| ==>
               n.documents[d].kind == s.documents[d].kind && n.documents[d].reverses == s.documents[d].reverses
    requires forall d :: |s.documents| <= d < |n.documents| ==> n.documents[d].reverses.None?
    requires forall i :: |s.entries| <= i < |n.entries| ==>
               n.entries[i].document < |s.documents| && s.documents[n.entries[i].document].status != Posted
    requires Sum(s.entries, w) == Sum(s.entries, OnlyLive(w, s.documents))
    ensures Sum(n.entries, w) == Sum(n.entries, OnlyLive(w, n.documents))
  {
    var added := n.entries[|s.entries|..];
    assert n.entries == s.entries + added;
    var was, now := OnlyLive(w, s.documents), OnlyLive(w, n.documents);
    SumAppend(s.entries, added, w);
    SumAppend(s.entries, added, now);
    forall i | 0 <= i < |s.entries| ensures now(s.entries[i]) == was(s.entries[i]) {
      assert EntryOk(s, s.entries[i]);
      LiveStays(s.documents, n.documents, s.entries[i].document);
    }
    SumAgree(s.entries, was, now);
    forall i | 0 <= i < |added| ensures now(added[i]) == w(added[i]) {
      assert added[i] == n.entries[|s.entries| + i];
      UnpostedIsLive(s, added[i].document);
      LiveStays(s.documents, n.documents, added[i].document);
    }
    SumAgree(added, w, now);
  }

  /**
   * Conservation: whatever was posted and reversed on the way, the ledger weighs exactly what the
   * documents that are neither reversed nor reversals weigh.
   */
  lemma {:induction false} OnlyLiveDocumentsCount(sites: Sites, steps: seq<Step>, w: Entry -> int)
    requires ProperSteps(steps) && Odd(w)
    ensures var s := Run(sites, steps); Sum(s.entries, w) == Sum(s.entries, OnlyLive(w, s.documents))
  {
    if steps == [] {
    } else {
      var before := steps[..|steps| - 1];
      OnlyLiveDocumentsCount(sites, before, w);
      Reachable(sites, before);
      var s, step := Run(sites, before), steps[|steps| - 1];
      if step.ReverseStep? {
        if Attempt(sites, s, step).Success? { ReverseLive(sites, s, step.id, step.on, step.actor, w); }
      } else {
        OthersLive(sites, s, step, w);
      }
    }
  }
}
