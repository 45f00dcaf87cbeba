/** What every transaction of the ledger keeps, and so what holds in every reachable state. */
module LedgerInvariant {
  import opened Options
  import opened PostingRules
  import opened Ledger

  /** The balance snapshot is the sum of the entries, row for row. */
  predicate SnapshotOk(s: Ledger) {
    s.balances == Net(Moves(s.entries))
  }

  /** No lot is below zero anywhere but at a branch. */
  ghost predicate NonNegative(sites: Sites, balances: Balances) {
    forall k :: k in balances && sites(k.location) != Branch ==> balances[k].quantity >= 0
  }

  /** A movement carries its lot's own item and cost, and a placeholder only moves at its branch. */
  predicate Fits(lots: seq<Lot>, m: Movement) {
    && m.lot < |lots|
    && lots[m.lot].item == m.item
    && lots[m.lot].unitCost == m.unitCost
    && (lots[m.lot].placeholder.Some? ==> m.location == lots[m.lot].placeholder.value.location)
  }

  /** Something is only ever taken from a placeholder lot. */
  predicate TakesOnly(lots: seq<Lot>, m: Movement)
    requires Fits(lots, m)
  {
    lots[m.lot].placeholder.Some? ==> m.amount.quantity < 0
  }

  ghost predicate EntriesOk(s: Ledger) {
    forall i :: 0 <= i < |s.entries| ==> EntryOk(s, s.entries[i])
  }

  /** An entry belongs to a posted document and is dated on its business date. */
  predicate EntryOk(s: Ledger, e: Entry) {
    && e.document < |s.documents|
    && s.documents[e.document].status == Posted
    && s.documents[e.document].day == e.time.day
    && Fits(s.lots, e.move) && StorableMove(e.move)
    && (s.documents[e.document].kind != Reversal ==> TakesOnly(s.lots, e.move))
  }

  ghost predicate DocumentsOk(s: Ledger) {
    && (forall i :: 0 <= i < |s.documents| ==> DocumentOk(s, i))
    && forall i, j :: 0 <= i < j < |s.documents| && s.documents[i].reverses.Some? ==>
         s.documents[i].reverses != s.documents[j].reverses
  }

  /** No document is dated after today; a reversal reverses an earlier, ordinary posted one. */
  predicate DocumentOk(s: Ledger, i: DocumentId)
    requires i < |s.documents|
  {
    var doc := s.documents[i];
    && (doc.kind == Reversal <==> doc.reverses.Some?)
    && doc.day <= s.today
    && (doc.reverses.Some? ==>
          var o := doc.reverses.value;
          && doc.status == Posted && o < i
          && s.documents[o].status == Posted && s.documents[o].kind != Reversal
          && s.documents[o].day <= doc.day)
  }

  /** `reversed` is `original` entry by entry, negated, each naming the entry it negates. */
  predicate Cancels(all: seq<Entry>, original: seq<Entry>, reversed: seq<Entry>) {
    && |reversed| == |original|
    && forall i :: 0 <= i < |original| ==>
         && reversed[i].move.reverses.Some?
         && reversed[i].move.reverses.value < |all|
         && all[reversed[i].move.reverses.value] == original[i]
         && reversed[i].move == Negated(original[i].move, reversed[i].move.reverses.value)
  }

  ghost predicate ReversalsExact(s: Ledger) {
    forall r :: 0 <= r < |s.documents| && s.documents[r].reverses.Some? ==>
      Cancels(s.entries, EntriesOf(s.entries, s.documents[r].reverses.value), EntriesOf(s.entries, r))
  }

  predicate OnePlaceholderEach(lots: seq<Lot>) {
    forall i, j :: 0 <= i < j < |lots| && lots[i].placeholder.Some? && lots[j].placeholder.Some? ==>
      !(lots[i].placeholder.value.location == lots[j].placeholder.value.location && lots[i].item == lots[j].item)
  }

  /** Costs are never below zero, and zero when unknown; every lot but a placeholder has an expiry. */
  predicate LotsOk(lots: seq<Lot>) {
    && OnePlaceholderEach(lots)
    && forall i :: 0 <= i < |lots| ==>
         && lots[i].unitCost >= 0 && (lots[i].placeholder.None? <==> lots[i].expiry.Some?)
         && (lots[i].placeholder.Some? && lots[i].placeholder.value.cost == Unknown ==> lots[i].unitCost == 0)
  }

  /** Every genealogy link leads from a lot to one created before it. */
  ghost predicate LinksOk(s: Ledger) {
    forall l :: l in s.links ==> l.input < l.output < |s.lots|
  }

  ghost predicate Inv(sites: Sites, s: Ledger) {
    && SnapshotOk(s)
    && NonNegative(sites, s.balances)
    && EntriesOk(s)
    && DocumentsOk(s)
    && ReversalsExact(s)
    && LotsOk(s.lots)
    && LinksOk(s)
  }

  // --- Appending entries ----------------------------------------------------------------------

  lemma {:induction false} MovesAppend(a: seq<Entry>, b: seq<Entry>)
    ensures Moves(a + b) == Moves(a) + Moves(b)
  {}

  lemma {:induction false} MovesStamp(id: DocumentId, at: Instant, moves: seq<Movement>)
    ensures Moves(Stamp(id, at, moves)) == moves
  {}

  lemma {:induction false} EntriesOfAppend(a: seq<Entry>, b: seq<Entry>, id: DocumentId)
    ensures EntriesOf(a + b, id) == EntriesOf(a, id) + EntriesOf(b, id)
  {
    if b == [] {
      assert a + b == a;
    } else {
      assert (a + b)[..|a + b| - 1] == a + b[..|b| - 1];
      EntriesOfAppend(a, b[..|b| - 1], id);
    }
  }

  lemma {:induction false} EntriesOfAll(es: seq<Entry>, id: DocumentId)
    requires forall i :: 0 <= i < |es| ==> es[i].document == id
    ensures EntriesOf(es, id) == es
  {
    if es == [] {
    } else {
      EntriesOfAll(es[..|es| - 1], id);
    }
  }

  lemma {:induction false} EntriesOfNone(es: seq<Entry>, id: DocumentId)
    requires forall i :: 0 <= i < |es| ==> es[i].document != id
    ensures EntriesOf(es, id) == []
  {
    if es == [] {
    } else {
      EntriesOfNone(es[..|es| - 1], id);
    }
  }

  lemma {:induction false} EntriesOfFrom(es: seq<Entry>, id: DocumentId)
    ensures forall e :: e in EntriesOf(es, id) ==> e in es && e.document == id
  {
    if es == [] {
    } else {
      EntriesOfFrom(es[..|es| - 1], id);
    }
  }

  /** A write accepted by the rules keeps the snapshot exact and nothing below zero. */
  lemma {:induction false} WriteKeepsBalances(
      sites: Sites, s: Ledger, id: DocumentId, at: Instant, moves: seq<Movement>)
    requires SnapshotOk(s) && NonNegative(sites, s.balances)
    requires Write(sites, s, id, at, moves).Success?
    ensures var w := Write(sites, s, id, at, moves).value; SnapshotOk(w) && NonNegative(sites, w.balances)
  {
    var w := Write(sites, s, id, at, moves).value;
    MovesAppend(s.entries, Stamp(id, at, moves));
    MovesStamp(id, at, moves);
    UpsertIsNet(Moves(s.entries), moves);
    forall k | k in w.balances && sites(k.location) != Branch ensures w.balances[k].quantity >= 0 {
      if k in Keys(moves) { assert k !in Offending(sites, s.balances, moves); }
    }
  }

  // --- What a prepared plan brings ------------------------------------------------------------

  /** Lots are only added, each movement fits its lot, and created lots are new ones. */
  ghost predicate PreparedOk(lots: seq<Lot>, p: Prepared) {
    && lots <= p.lots
    && LotsOk(p.lots)
    && (forall m :: m in p.moves ==> Fits(p.lots, m) && TakesOnly(p.lots, m))
    && forall m :: m in p.created ==> |lots| <= m.lot < |p.lots|
  }

  lemma {:induction false} LatestCostOk(lots: seq<Lot>, item: ItemId)
    requires LotsOk(lots)
    ensures LatestCost(lots, item).Some? ==> LatestCost(lots, item).value >= 0
  {
    if lots == [] {
    } else {
      LatestCostOk(lots[..|lots| - 1], item);
    }
  }

  lemma {:induction false} PlaceholdersOk(lots: seq<Lot>, id: DocumentId, uses: seq<PlaceholderUse>)
    requires LotsOk(lots)
    requires forall u :: u in uses ==> u.quantity > 0
    ensures lots <= PlaceholderLots(lots, id, uses)
    ensures LotsOk(PlaceholderLots(lots, id, uses))
    ensures forall m :: m in PlaceholderMoves(lots, id, uses) ==>
              Fits(PlaceholderLots(lots, id, uses), m) && TakesOnly(PlaceholderLots(lots, id, uses), m)
  {
    if uses == [] {
    } else {
      PlaceholdersOk(lots, id, uses[..|uses| - 1]);
      WithPlaceholderOk(PlaceholderLots(lots, id, uses[..|uses| - 1]), id, uses[|uses| - 1]);
    }
  }

  lemma {:induction false} WithPlaceholderOk(lots: seq<Lot>, id: DocumentId, use: PlaceholderUse)
    requires LotsOk(lots) && use.quantity > 0
    ensures lots <= WithPlaceholder(lots, id, use) && LotsOk(WithPlaceholder(lots, id, use))
    ensures FindPlaceholder(WithPlaceholder(lots, id, use), use.location, use.item).Some?
    ensures var m := TakePlaceholder(WithPlaceholder(lots, id, use), use);
            Fits(WithPlaceholder(lots, id, use), m) && TakesOnly(WithPlaceholder(lots, id, use), m)
  {
    LatestCostOk(lots, use.item);
  }

  lemma {:induction false} LinksFrom(
      id: DocumentId, created: seq<Movement>, genealogy: seq<LinkPlan>, low: nat, high: nat)
    requires forall m :: m in created ==> low <= m.lot < high
    requires forall g :: g in genealogy ==> g.inputLot < low
    requires LinksOf(id, created, genealogy).Success?
    ensures forall l :: l in LinksOf(id, created, genealogy).value ==> l.input < low <= l.output < high
  {
    if genealogy == [] {
    } else {
      LinksFrom(id, created, genealogy[..|genealogy| - 1], low, high);
      LotOfLineAmong(created, genealogy[|genealogy| - 1].outputLineNo);
      assert genealogy[|genealogy| - 1] in genealogy;
    }
  }

  lemma {:induction false} LotOfLineAmong(created: seq<Movement>, lineNo: nat)
    ensures LotOfLine(created, lineNo).Some? ==>
              exists m :: m in created && m.lineNo == lineNo && m.lot == LotOfLine(created, lineNo).value
  {
    if created == [] {
    } else {
      if created[|created| - 1].lineNo == lineNo { assert created[|created| - 1] in created; }
      LotOfLineAmong(created[..|created| - 1], lineNo);
    }
  }

  lemma {:induction false} SortKeeps(ms: seq<Movement>)
    ensures multiset(SortByLine(ms)) == multiset(ms)
  {
    if ms == [] {
    } else {
      assert ms == ms[..|ms| - 1] + [ms[|ms| - 1]];
      SortKeeps(ms[..|ms| - 1]);
      InsertKeeps(SortByLine(ms[..|ms| - 1]), ms[|ms| - 1]);
    }
  }

  lemma {:induction false} InsertKeeps(sorted: seq<Movement>, m: Movement)
    ensures multiset(InsertByLine(sorted, m)) == multiset(sorted) + multiset{m}
  {
    if sorted == [] {
    } else {
      assert sorted == sorted[..|sorted| - 1] + [sorted[|sorted| - 1]];
      InsertKeeps(sorted[..|sorted| - 1], m);
    }
  }

  lemma {:induction false} CreatedOk(lots: seq<Lot>, id: DocumentId, newLots: seq<NewLot>)
    requires LotsOk(lots) && StorableLots(newLots)
    ensures LotsOk(lots + CreatedLots(id, newLots))
    ensures forall m :: m in CreatedMoves(|lots|, newLots) ==>
              && |lots| <= m.lot < |lots| + |newLots|
              && Fits(lots + CreatedLots(id, newLots), m) && TakesOnly(lots + CreatedLots(id, newLots), m)
  {}

  lemma {:induction false} ChangesOk(lots: seq<Lot>, more: seq<Lot>, changes: seq<LotChange>)
    requires AllNameable(lots, changes) && lots <= more
    ensures forall m :: m in ChangeMoves(lots, changes) ==> Fits(more, m) && TakesOnly(more, m)
  {
    forall i | 0 <= i < |changes|
      ensures Fits(more, ChangeMove(lots, changes[i])) && TakesOnly(more, ChangeMove(lots, changes[i]))
    {
      assert Nameable(lots, changes[i]);
    }
  }

  /** A production order consumes only lots that existed, so it links new lots to older ones. */
  lemma {:induction false} GenealogyOk(lots: seq<Lot>, id: DocumentId, plan: Plan)
    requires Proper(plan) && Prepare(lots, id, plan).Success?
    requires PreparedOk(lots, Prepare(lots, id, plan).value)
    requires LinksOf(id, Prepare(lots, id, plan).value.created, GenealogyOf(plan)).Success?
    ensures forall l :: l in LinksOf(id, Prepare(lots, id, plan).value.created, GenealogyOf(plan)).value ==>
              l.input < |lots| <= l.output < |Prepare(lots, id, plan).value.lots|
  {
    var p := Prepare(lots, id, plan).value;
    if plan.Production? {
      forall g | g in plan.genealogy ensures g.inputLot < |lots| {
        var c :| c in plan.consumed && c.lot == g.inputLot;
        var i :| 0 <= i < |plan.consumed| && plan.consumed[i] == c;
        assert Nameable(lots, plan.consumed[i]);
      }
    }
    LinksFrom(id, p.created, GenealogyOf(plan), |lots|, |p.lots|);
  }

  lemma {:induction false} ConsumptionOk(
      lots: seq<Lot>, id: DocumentId, lotChanges: seq<LotChange>, placeholders: seq<PlaceholderUse>)
    requires LotsOk(lots) && Proper(Consumption(lotChanges, placeholders))
    requires Prepare(lots, id, Consumption(lotChanges, placeholders)).Success?
    ensures PreparedOk(lots, Prepare(lots, id, Consumption(lotChanges, placeholders)).value)
  {
    PlaceholdersOk(lots, id, placeholders);
    ChangesOk(lots, PlaceholderLots(lots, id, placeholders), lotChanges);
    var ms := ChangeMoves(lots, lotChanges) + PlaceholderMoves(lots, id, placeholders);
    SortKeeps(ms);
    forall m | m in SortByLine(ms) ensures m in ms {
      assert m in multiset(SortByLine(ms));
    }
  }

  lemma {:induction false} PrepareOk(lots: seq<Lot>, id: DocumentId, plan: Plan)
    requires LotsOk(lots) && Proper(plan)
    requires Prepare(lots, id, plan).Success?
    ensures PreparedOk(lots, Prepare(lots, id, plan).value)
  {
    match plan
    case NewLots(newLots) => CreatedOk(lots, id, newLots);
    case LotChanges(changes) => ChangesOk(lots, lots, changes);
    case Production(consumed, outputs, _) =>
      CreatedOk(lots, id, outputs);
      ChangesOk(lots, lots + CreatedLots(id, outputs), consumed);
    case Consumption(lotChanges, placeholders) => ConsumptionOk(lots, id, lotChanges, placeholders);
  }

  // --- Every transaction keeps the invariant ---------------------------------------------------

  /** Appending a posting's entries leaves every other document's entries as they were. */
  lemma {:induction false} StampedEntries(es: seq<Entry>, id: DocumentId, at: Instant, moves: seq<Movement>)
    requires forall i :: 0 <= i < |es| ==> es[i].document != id
    ensures EntriesOf(es + Stamp(id, at, moves), id) == Stamp(id, at, moves)
    ensures forall d :: d != id ==> EntriesOf(es + Stamp(id, at, moves), d) == EntriesOf(es, d)
  {
    var stamped := Stamp(id, at, moves);
    EntriesOfAppend(es, stamped, id);
    EntriesOfNone(es, id);
    EntriesOfAll(stamped, id);
    forall d | d != id ensures EntriesOf(es + stamped, d) == EntriesOf(es, d) {
      EntriesOfAppend(es, stamped, d);
      EntriesOfNone(stamped, d);
    }
  }

  lemma {:induction false} CancelsStill(all: seq<Entry>, more: seq<Entry>, original: seq<Entry>, reversed: seq<Entry>)
    requires Cancels(all, original, reversed) && all <= more
    ensures Cancels(more, original, reversed)
  {}

  /** What one posting did: its document is posted, its lots, entries and links are added. */
  ghost predicate Posting(s: Ledger, n: Ledger, id: DocumentId, at: Instant, moves: seq<Movement>) {
    && id < |s.documents| && s.documents[id].status != Posted
    && at.day == s.documents[id].day <= s.today == n.today
    && n.documents == s.documents[id := s.documents[id].(status := Posted, revision := s.documents[id].revision + 1)]
    && n.entries == s.entries + Stamp(id, at, moves)
    && s.lots <= n.lots
    && forall m :: m in moves ==> Fits(n.lots, m) && TakesOnly(n.lots, m) && StorableMove(m)
  }

  lemma {:induction false} PostIsPosting(
    sites: Sites, s: Ledger, id: DocumentId, revision: nat, from: Status, time: Option<Instant>, plan: Plan)
    returns (at: Instant, moves: seq<Movement>)
    requires LotsOk(s.lots) && LinksOk(s) && SnapshotOk(s) && NonNegative(sites, s.balances) && Proper(plan)
    requires Post(sites, s, id, revision, from, time, plan).Success?
    ensures
      var n := Post(sites, s, id, revision, from, time, plan).value;
      && Posting(s, n, id, at, moves)
      && LotsOk(n.lots) && LinksOk(n) && SnapshotOk(n) && NonNegative(sites, n.balances)
  {
    var doc := s.documents[id];
    var p := Prepare(s.lots, id, plan).value;
    at, moves := if time.None? then Instant(doc.day, 0) else time.value, p.moves;
    PrepareOk(s.lots, id, plan);
    GenealogyOk(s.lots, id, plan);
    WriteKeepsBalances(sites, s.(lots := p.lots), id, at, moves);
  }

  lemma {:induction false} PostingKeepsRecords(s: Ledger, n: Ledger, id: DocumentId, at: Instant, moves: seq<Movement>)
    requires Posting(s, n, id, at, moves)
    requires EntriesOk(s) && DocumentsOk(s)
    ensures EntriesOk(n) && DocumentsOk(n)
  {
    forall i | 0 <= i < |n.documents| ensures DocumentOk(n, i) {
      assert DocumentOk(s, i);
    }
    forall i | 0 <= i < |n.entries| ensures EntryOk(n, n.entries[i]) {
      if i < |s.entries| {
        assert EntryOk(s, s.entries[i]);
      } else {
        assert moves[i - |s.entries|] in moves;
      }
    }
  }

  lemma {:induction false} PostingKeepsReversals(
      s: Ledger, n: Ledger, id: DocumentId, at: Instant, moves: seq<Movement>)
    requires Posting(s, n, id, at, moves)
    requires EntriesOk(s) && DocumentsOk(s) && ReversalsExact(s)
    ensures ReversalsExact(n)
  {
    forall i | 0 <= i < |s.entries| ensures s.entries[i].document != id {
      assert EntryOk(s, s.entries[i]);
    }
    StampedEntries(s.entries, id, at, moves);
    forall r | 0 <= r < |n.documents| && n.documents[r].reverses.Some?
      ensures Cancels(n.entries, EntriesOf(n.entries, n.documents[r].reverses.value), EntriesOf(n.entries, r))
    {
      assert DocumentOk(s, r);
      CancelsStill(s.entries, n.entries, EntriesOf(s.entries, s.documents[r].reverses.value), EntriesOf(s.entries, r));
    }
  }

  lemma {:induction false} PostKeeps(
    sites: Sites, s: Ledger, id: DocumentId, revision: nat, from: Status, time: Option<Instant>, plan: Plan)
    requires Inv(sites, s) && Proper(plan)
    requires Post(sites, s, id, revision, from, time, plan).Success?
    ensures Inv(sites, Post(sites, s, id, revision, from, time, plan).value)
  {
    var at, moves := PostIsPosting(sites, s, id, revision, from, time, plan);
    var n := Post(sites, s, id, revision, from, time, plan).value;
    PostingKeepsRecords(s, n, id, at, moves);
    PostingKeepsReversals(s, n, id, at, moves);
  }

  lemma {:induction false} PlacesPoint(es: seq<Entry>, id: DocumentId)
    ensures forall i :: 0 <= i < |PlacesOf(es, id)| ==>
              PlacesOf(es, id)[i] < |es| && es[PlacesOf(es, id)[i]] == EntriesOf(es, id)[i]
  {
    if es == [] {
    } else {
      PlacesPoint(es[..|es| - 1], id);
    }
  }

  lemma {:induction false} ReversalCancels(s: Ledger, id: DocumentId, r: DocumentId, at: Instant)
    ensures var original := EntriesOf(s.entries, id);
            Cancels(s.entries, original, Stamp(r, at, ReversalMoves(original, PlacesOf(s.entries, id))))
  {
    PlacesPoint(s.entries, id);
  }

  lemma {:induction false} ReverseKeeps(sites: Sites, s: Ledger, id: DocumentId, day: Option<int>, actor: nat)
    requires Inv(sites, s)
    requires Reverse(sites, s, id, day, actor).Success?
    ensures Inv(sites, Reverse(sites, s, id, day, actor).value)
  {
    var n := Reverse(sites, s, id, day, actor).value;
    var r := |s.documents|;
    var at := Instant(n.documents[r].day, 0);
    var original := EntriesOf(s.entries, id);
    var moves := ReversalMoves(original, PlacesOf(s.entries, id));
    WriteKeepsBalances(sites, s.(documents := n.documents), r, at, moves);
    EntriesOfFrom(s.entries, id);
    forall i | 0 <= i < |n.entries| ensures EntryOk(n, n.entries[i]) {
      if i < |s.entries| {
        assert EntryOk(s, s.entries[i]);
      } else {
        assert original[i - |s.entries|] in original;
        assert original[i - |s.entries|] in s.entries;
      }
    }
    forall i | 0 <= i < |n.documents| ensures DocumentOk(n, i) {
      if i < r { assert DocumentOk(s, i); } else { assert DocumentOk(s, id); }
    }
    forall i, j | 0 <= i < j < |n.documents| && n.documents[i].reverses.Some?
      ensures n.documents[i].reverses != n.documents[j].reverses
    {
      if j == r { assert !Reverses(s.documents[i], id); }
    }
    forall i | 0 <= i < |s.entries| ensures s.entries[i].document != r {
      assert EntryOk(s, s.entries[i]);
    }
    StampedEntries(s.entries, r, at, moves);
    forall q | 0 <= q < |n.documents| && n.documents[q].reverses.Some?
      ensures Cancels(n.entries, EntriesOf(n.entries, n.documents[q].reverses.value), EntriesOf(n.entries, q))
    {
      if q < r {
        assert DocumentOk(s, q);
        CancelsStill(s.entries, n.entries, EntriesOf(s.entries, s.documents[q].reverses.value),
            EntriesOf(s.entries, q));
      } else {
        ReversalCancels(s, id, r, at);
        CancelsStill(s.entries, n.entries, original, Stamp(r, at, moves));
      }
    }
  }

  /** Drafting, editing, moving a document on, rebuilding and a new day. */
  lemma {:induction false} OthersKeep(sites: Sites, s: Ledger, step: Step)
    requires Inv(sites, s) && !step.PostStep? && !step.ReverseStep?
    ensures Inv(sites, Do(sites, s, step))
  {
    var n := Do(sites, s, step);
    OthersKeepTables(sites, s, step);
    OthersKeepDocuments(sites, s, step);
    forall i | 0 <= i < |n.entries| ensures EntryOk(n, n.entries[i]) {
      assert EntryOk(s, s.entries[i]);
    }
    forall r | 0 <= r < |n.documents| && n.documents[r].reverses.Some?
      ensures Cancels(n.entries, EntriesOf(n.entries, n.documents[r].reverses.value), EntriesOf(n.entries, r))
    {
      assert r < |s.documents| && n.documents[r].reverses == s.documents[r].reverses;
    }
  }

  lemma {:induction false} OthersKeepTables(sites: Sites, s: Ledger, step: Step)
    requires SnapshotOk(s) && !step.PostStep? && !step.ReverseStep?
    ensures
      var n := Do(sites, s, step);
      n.entries == s.entries && n.lots == s.lots && n.links == s.links && n.balances == s.balances
  {}

  /** Documents are drafted or moved on; a posted one stays, and none becomes posted or a reversal. */
  lemma {:induction false} OthersKeepDocuments(sites: Sites, s: Ledger, step: Step)
    requires DocumentsOk(s) && !step.PostStep? && !step.ReverseStep?
    ensures
      var n := Do(sites, s, step);
      && DocumentsOk(n) && |s.documents| <= |n.documents|
      && (forall i :: 0 <= i < |s.documents| ==>
            && n.documents[i].reverses == s.documents[i].reverses && n.documents[i].kind == s.documents[i].kind
            && (s.documents[i].status == Posted ==> n.documents[i] == s.documents[i]))
      && forall i :: |s.documents| <= i < |n.documents| ==> n.documents[i].reverses.None?
  {
    var n := Do(sites, s, step);
    forall i | 0 <= i < |s.documents|
      ensures s.documents[i].status == Posted ==> n.documents[i] == s.documents[i]
      ensures n.documents[i].reverses == s.documents[i].reverses && n.documents[i].kind == s.documents[i].kind
    {
      assert DocumentOk(s, i);
    }
    forall i | 0 <= i < |n.documents| ensures DocumentOk(n, i) {
      if i < |s.documents| { assert DocumentOk(s, i); }
    }
  }

  /** Every state the ledger can reach satisfies the invariant. */
  lemma {:induction false} Reachable(sites: Sites, steps: seq<Step>)
    requires ProperSteps(steps)
    ensures Inv(sites, Run(sites, steps))
  {
    if steps == [] {
    } else {
      Reachable(sites, steps[..|steps| - 1]);
      var s := Run(sites, steps[..|steps| - 1]);
      match steps[|steps| - 1]
      case PostStep(id, revision, from, time, plan) =>
        assert steps[|steps| - 1] in steps;
        if Post(sites, s, id, revision, from, time, plan).Success? {
          PostKeeps(sites, s, id, revision, from, time, plan);
        }
      case ReverseStep(id, day, actor) =>
        if Reverse(sites, s, id, day, actor).Success? { ReverseKeeps(sites, s, id, day, actor); }
      case _ => OthersKeep(sites, s, steps[|steps| - 1]);
    }
  }
}
