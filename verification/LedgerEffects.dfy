/** What a posting writes and when it is refused, field by field and row by row. */
module LedgerEffects {
  import opened Options
  import opened PostingRules
  import opened Ledger
  import opened LedgerInvariant
  import opened LedgerSums

  // --- The lots and entries of each plan --------------------------------------------------------

  /** The lot of a document's line, and the entry that brings it in. */
  predicate BroughtInAs(n: NewLot, id: DocumentId, at: Instant, lots: seq<Lot>, lot: LotId, e: Entry) {
    && lot < |lots|
    && lots[lot] == Lot(id, n.lineNo, n.item, n.unitCost, Some(n.expiry), None)
    && e == Entry(id, at, Movement(n.lineNo, lot, n.item, n.location, n.amount, n.unitCost, None))
  }

  /** `e` is change `c` as it is written: on an ordinary lot of its item, at that lot's cost. */
  predicate ChangedAs(c: LotChange, id: DocumentId, at: Instant, lots: seq<Lot>, e: Entry) {
    && c.lot < |lots| && lots[c.lot].placeholder.None? && lots[c.lot].item == c.item
    && e == Entry(id, at, Movement(c.lineNo, c.lot, c.item, c.location, c.amount, lots[c.lot].unitCost, None))
  }

  /** The business time of a posting: the one given, or the start of the document's day. */
  function PostedAt(doc: Document, time: Option<Instant>): Instant {
    match time
    case None => Instant(doc.day, 0)
    case Some(at) => at
  }

  /** A posting only adds to the lots, entries and links, and touches no other document. */
  ghost predicate OnlyAdds(s: Ledger, n: Ledger, id: DocumentId) {
    && |s.lots| <= |n.lots| && n.lots[..|s.lots|] == s.lots
    && |s.entries| <= |n.entries| && n.entries[..|s.entries|] == s.entries
    && |s.links| <= |n.links| && n.links[..|s.links|] == s.links
    && id < |s.documents| == |n.documents|
    && (forall i :: 0 <= i < |s.documents| && i != id ==> n.documents[i] == s.documents[i])
    && s.documents[id].status != Posted && n.documents[id].status == Posted
    && n.documents[id].revision == s.documents[id].revision + 1
    && n.documents[id].kind == s.documents[id].kind && n.documents[id].day == s.documents[id].day
    && n.documents[id].createdBy == s.documents[id].createdBy
    && n.documents[id].reverses == s.documents[id].reverses
    && n.today == s.today
  }

  /** A posting that wrote these movements and links, and has these lots. */
  ghost predicate Wrote(
      s: Ledger, n: Ledger, id: DocumentId, at: Instant, lots: seq<Lot>, moves: seq<Movement>, links: seq<Link>) {
    && n.lots == lots && n.entries == s.entries + Stamp(id, at, moves) && n.links == s.links + links
    && (s.lots <= lots ==> OnlyAdds(s, n, id))
  }

  /** What every plan's posting comes down to. */
  lemma {:induction false} PostWrites(
      sites: Sites, s: Ledger, id: DocumentId, revision: nat, from: Status, time: Option<Instant>, plan: Plan)
    requires Post(sites, s, id, revision, from, time, plan).Success?
    ensures id < |s.documents| && Prepare(s.lots, id, plan).Success?
    ensures
      var p := Prepare(s.lots, id, plan).value;
      var links := LinksOf(id, p.created, GenealogyOf(plan));
      && links.Success?
      && Wrote(s, Post(sites, s, id, revision, from, time, plan).value, id, PostedAt(s.documents[id], time), p.lots,
               p.moves, links.value)
  {}

  /**
   * New lots come in line by line: one lot and one entry each, with the line's item, quantity,
   * pieces, cost, expiry and location.
   */
  lemma {:induction false} NewLotsComeIn(
      sites: Sites, s: Ledger, id: DocumentId, revision: nat, from: Status, time: Option<Instant>,
      newLots: seq<NewLot>)
    requires Post(sites, s, id, revision, from, time, NewLots(newLots)).Success?
    ensures
      var n := Post(sites, s, id, revision, from, time, NewLots(newLots)).value;
      && OnlyAdds(s, n, id)
      && |n.lots| == |s.lots| + |newLots| && |n.entries| == |s.entries| + |newLots| && n.links == s.links
      && forall i :: 0 <= i < |newLots| ==>
           BroughtInAs(newLots[i], id, PostedAt(s.documents[id], time), n.lots, |s.lots| + i,
                       n.entries[|s.entries| + i])
  {
    PostWrites(sites, s, id, revision, from, time, NewLots(newLots));
  }

  /** Changes go through line by line: one entry each, and no lot is added. */
  lemma {:induction false} ChangesGoThrough(
      sites: Sites, s: Ledger, id: DocumentId, revision: nat, from: Status, time: Option<Instant>,
      changes: seq<LotChange>)
    requires Post(sites, s, id, revision, from, time, LotChanges(changes)).Success?
    ensures
      var n := Post(sites, s, id, revision, from, time, LotChanges(changes)).value;
      && OnlyAdds(s, n, id) && n.lots == s.lots && n.links == s.links
      && |n.entries| == |s.entries| + |changes|
      && forall i :: 0 <= i < |changes| ==>
           ChangedAs(changes[i], id, PostedAt(s.documents[id], time), s.lots, n.entries[|s.entries| + i])
  {
    PostWrites(sites, s, id, revision, from, time, LotChanges(changes));
    assert forall i :: 0 <= i < |changes| ==> Nameable(s.lots, changes[i]);
  }

  /** The link from the lot a production order made on a line to a lot it was made from. */
  predicate LinkedAs(g: LinkPlan, id: DocumentId, outputs: seq<NewLot>, first: LotId, link: Link) {
    exists i :: 0 <= i < |outputs| && outputs[i].lineNo == g.outputLineNo
                && link == Link(id, first + i, g.inputLot, g.inputQuantity)
  }

  /** A production order: what it consumed goes out, then its outputs come in and are linked to their inputs. */
  lemma {:induction false} ProductionIsWritten(
      sites: Sites, s: Ledger, id: DocumentId, revision: nat, from: Status, time: Option<Instant>,
      consumed: seq<LotChange>, outputs: seq<NewLot>, genealogy: seq<LinkPlan>)
    requires Post(sites, s, id, revision, from, time, Production(consumed, outputs, genealogy)).Success?
    ensures
      var n := Post(sites, s, id, revision, from, time, Production(consumed, outputs, genealogy)).value;
      var at, brought := PostedAt(s.documents[id], time), |s.entries| + |consumed|;
      && OnlyAdds(s, n, id)
      && |n.lots| == |s.lots| + |outputs| && |n.entries| == brought + |outputs|
      && |n.links| == |s.links| + |genealogy|
      && (forall i :: 0 <= i < |consumed| ==> ChangedAs(consumed[i], id, at, s.lots, n.entries[|s.entries| + i]))
      && (forall i :: 0 <= i < |outputs| ==>
            BroughtInAs(outputs[i], id, at, n.lots, |s.lots| + i, n.entries[brought + i]))
      && forall i :: 0 <= i < |genealogy| ==>
           LinkedAs(genealogy[i], id, outputs, |s.lots|, n.links[|s.links| + i])
  {
    PostWrites(sites, s, id, revision, from, time, Production(consumed, outputs, genealogy));
    ProductionPrepared(s.lots, id, PostedAt(s.documents[id], time), consumed, outputs, genealogy);
    LinksAre(id, |s.lots|, outputs, genealogy);
  }

  lemma {:induction false} ProductionPrepared(
      lots: seq<Lot>, id: DocumentId, at: Instant, consumed: seq<LotChange>, outputs: seq<NewLot>,
      genealogy: seq<LinkPlan>)
    requires Prepare(lots, id, Production(consumed, outputs, genealogy)).Success?
    ensures
      var p := Prepare(lots, id, Production(consumed, outputs, genealogy)).value;
      && lots <= p.lots && |p.lots| == |lots| + |outputs| && |p.moves| == |consumed| + |outputs|
      && p.created == CreatedMoves(|lots|, outputs)
      && (forall i :: 0 <= i < |consumed| ==> ChangedAs(consumed[i], id, at, lots, Entry(id, at, p.moves[i])))
      && forall i :: 0 <= i < |outputs| ==>
           BroughtInAs(outputs[i], id, at, p.lots, |lots| + i, Entry(id, at, p.moves[|consumed| + i]))
  {
    assert forall i :: 0 <= i < |consumed| ==> Nameable(lots, consumed[i]);
  }

  lemma {:induction false} LotOfLineIs(first: LotId, outputs: seq<NewLot>, lineNo: nat)
    ensures
      var lot := LotOfLine(CreatedMoves(first, outputs), lineNo);
      && (lot.Some? ==> first <= lot.value < first + |outputs| && outputs[lot.value - first].lineNo == lineNo)
      && (lot.None? ==> forall i :: 0 <= i < |outputs| ==> outputs[i].lineNo != lineNo)
  {
    if outputs == [] {
    } else {
      var front := outputs[..|outputs| - 1];
      LotOfLineIs(first, front, lineNo);
      assert CreatedMoves(first, outputs)[..|outputs| - 1] == CreatedMoves(first, front);
    }
  }

  lemma {:induction false} LinksAre(id: DocumentId, first: LotId, outputs: seq<NewLot>, genealogy: seq<LinkPlan>)
    requires LinksOf(id, CreatedMoves(first, outputs), genealogy).Success?
    ensures
      var links := LinksOf(id, CreatedMoves(first, outputs), genealogy).value;
      && |links| == |genealogy|
      && forall i :: 0 <= i < |genealogy| ==> LinkedAs(genealogy[i], id, outputs, first, links[i])
  {
    if genealogy == [] {
    } else {
      var last := genealogy[|genealogy| - 1];
      LinksAre(id, first, outputs, genealogy[..|genealogy| - 1]);
      LotOfLineIs(first, outputs, last.outputLineNo);
      var output := LotOfLine(CreatedMoves(first, outputs), last.outputLineNo).value;
      assert outputs[output - first].lineNo == last.outputLineNo;
    }
  }

  // --- Consumptions -----------------------------------------------------------------------------

  /** The placeholder lot of an item at a branch. */
  predicate StandsIn(lots: seq<Lot>, lot: LotId, location: LocationId, item: ItemId) {
    && lot < |lots| && lots[lot].item == item
    && lots[lot].placeholder.Some? && lots[lot].placeholder.value.location == location
  }

  /** The latest ordinary lot of an item. */
  predicate IsLatestLot(lots: seq<Lot>, lot: LotId, item: ItemId) {
    && lot < |lots| && lots[lot].item == item && lots[lot].placeholder.None?
    && forall later :: lot < later < |lots| ==> lots[later].item != item || lots[later].placeholder.Some?
  }

  /** What a placeholder costs: as the item's latest lot, or nothing while it has none. */
  lemma {:induction false} LatestCostIsTheLatestLots(lots: seq<Lot>, item: ItemId)
    ensures LatestCost(lots, item).Some? ==>
              exists lot: LotId :: IsLatestLot(lots, lot, item) && LatestCost(lots, item).value == lots[lot].unitCost
    ensures LatestCost(lots, item).None? ==>
              forall lot :: 0 <= lot < |lots| ==> lots[lot].item != item || lots[lot].placeholder.Some?
  {
    if lots == [] {
    } else {
      var last := |lots| - 1;
      LatestCostIsTheLatestLots(lots[..last], item);
      if lots[last].item == item && lots[last].placeholder.None? {
        assert IsLatestLot(lots, last, item);
      } else if LatestCost(lots, item).Some? {
        var lot: LotId :| IsLatestLot(lots[..last], lot, item) && LatestCost(lots, item).value == lots[lot].unitCost;
        assert IsLatestLot(lots, lot, item);
      }
    }
  }

  predicate EverHeld(lots: seq<Lot>, item: ItemId) {
    exists lot :: 0 <= lot < |lots| && lots[lot].item == item && lots[lot].placeholder.None?
  }

  /** A placeholder a document made: at the latest lot's cost, estimated, or at no known cost. */
  predicate MadeFor(lots: seq<Lot>, made: Lot, id: DocumentId, u: PlaceholderUse) {
    if EverHeld(lots, u.item) then
      exists lot :: 0 <= lot < |lots| && IsLatestLot(lots, lot, u.item)
        && made == Lot(id, u.lineNo, u.item, lots[lot].unitCost, None, Some(Placeholder(u.location, Estimated)))
    else made == Lot(id, u.lineNo, u.item, 0, None, Some(Placeholder(u.location, Unknown)))
  }

  /** The entry that takes a use from its placeholder; it counts no pieces. */
  predicate SentAs(u: PlaceholderUse, id: DocumentId, at: Instant, lots: seq<Lot>, e: Entry) {
    && StandsIn(lots, e.move.lot, u.location, u.item)
    && e == Entry(id, at, Movement(u.lineNo, e.move.lot, u.item, u.location, Amount(-u.quantity, None),
                                   lots[e.move.lot].unitCost, None))
  }

  /** Every lot beyond the first `n` is a placeholder of some use, made when there was none for it. */
  ghost predicate MadeOnDemand(n: nat, lots: seq<Lot>, id: DocumentId, uses: seq<PlaceholderUse>) {
    forall lot :: n <= lot < |lots| ==> MadeForSome(n, lots, id, uses, lot)
  }

  ghost predicate MadeForSome(n: nat, lots: seq<Lot>, id: DocumentId, uses: seq<PlaceholderUse>, lot: LotId)
    requires n <= lot < |lots|
  {
    exists u :: u in uses && MadeFor(lots[..n], lots[lot], id, u)
                && forall other :: 0 <= other < lot ==> !StandsIn(lots, other, u.location, u.item)
  }

  lemma {:induction false} MadeAtLatestCost(lots: seq<Lot>, n: nat, id: DocumentId, u: PlaceholderUse)
    requires n <= |lots| && forall i :: n <= i < |lots| ==> lots[i].placeholder.Some?
    ensures MadeFor(lots[..n], NewPlaceholder(lots, id, u), id, u)
  {
    LatestCostIsTheLatestLots(lots, u.item);
    if LatestCost(lots, u.item).Some? {
      var lot: LotId :| IsLatestLot(lots, lot, u.item) && LatestCost(lots, u.item).value == lots[lot].unitCost;
      assert IsLatestLot(lots[..n], lot, u.item);
    }
  }

  lemma {:induction false} PlaceholdersAreMade(lots: seq<Lot>, id: DocumentId, uses: seq<PlaceholderUse>)
    ensures lots <= PlaceholderLots(lots, id, uses)
    ensures forall i :: |lots| <= i < |PlaceholderLots(lots, id, uses)| ==>
              PlaceholderLots(lots, id, uses)[i].placeholder.Some?
    ensures MadeOnDemand(|lots|, PlaceholderLots(lots, id, uses), id, uses)
  {
    if uses == [] {
    } else {
      var front, last := uses[..|uses| - 1], uses[|uses| - 1];
      var before, after := PlaceholderLots(lots, id, front), PlaceholderLots(lots, id, uses);
      PlaceholdersAreMade(lots, id, front);
      MadeAtLatestCost(before, |lots|, id, last);
      assert before[..|lots|] == lots == after[..|lots|];
      forall lot | |lots| <= lot < |after| ensures MadeForSome(|lots|, after, id, uses, lot) {
        if lot < |before| {
          StillMade(|lots|, before, after, id, front, uses, lot);
        } else {
          assert last in uses;
          forall other | 0 <= other < lot ensures !StandsIn(after, other, last.location, last.item) {
            assert !IsPlaceholder(before[other], last.location, last.item);
          }
        }
      }
    }
  }

  lemma {:induction false} StillMade(
      n: nat, before: seq<Lot>, after: seq<Lot>, id: DocumentId, front: seq<PlaceholderUse>, uses: seq<PlaceholderUse>,
      lot: LotId)
    requires n <= lot < |before| && before <= after && forall u :: u in front ==> u in uses
    requires MadeForSome(n, before, id, front, lot)
    ensures MadeForSome(n, after, id, uses, lot)
  {
    assert before[..n] == after[..n];
    var u :| u in front && MadeFor(before[..n], before[lot], id, u)
             && forall other :: 0 <= other < lot ==> !StandsIn(before, other, u.location, u.item);
    forall other | 0 <= other < lot ensures !StandsIn(after, other, u.location, u.item) {
      assert !StandsIn(before, other, u.location, u.item);
    }
  }

  lemma {:induction false} UsesAreSent(lots: seq<Lot>, id: DocumentId, at: Instant, uses: seq<PlaceholderUse>)
    ensures
      var moves := PlaceholderMoves(lots, id, uses);
      && |moves| == |uses|
      && forall i :: 0 <= i < |uses| ==>
           SentAs(uses[i], id, at, PlaceholderLots(lots, id, uses), Entry(id, at, moves[i]))
  {
    if uses == [] {
    } else {
      var front := uses[..|uses| - 1];
      UsesAreSent(lots, id, at, front);
      assert PlaceholderLots(lots, id, front) <= PlaceholderLots(lots, id, uses);
      var moves := PlaceholderMoves(lots, id, uses);
      assert moves[..|front|] == PlaceholderMoves(lots, id, front);
      forall i | 0 <= i < |uses|
        ensures SentAs(uses[i], id, at, PlaceholderLots(lots, id, uses), Entry(id, at, moves[i]))
      {
        if i < |front| {
          assert SentAs(front[i], id, at, PlaceholderLots(lots, id, front), Entry(id, at, moves[i]));
        }
      }
    }
  }

  ghost predicate ByLine(entries: seq<Entry>) {
    forall i, j :: 0 <= i < j < |entries| ==> entries[i].move.lineNo <= entries[j].move.lineNo
  }

  predicate MovesByLine(ms: seq<Movement>) {
    forall i, j :: 0 <= i < j < |ms| ==> ms[i].lineNo <= ms[j].lineNo
  }

  lemma {:induction false} SortSorts(ms: seq<Movement>)
    ensures MovesByLine(SortByLine(ms))
  {
    if ms == [] {
    } else {
      SortSorts(ms[..|ms| - 1]);
      InsertSorts(SortByLine(ms[..|ms| - 1]), ms[|ms| - 1]);
    }
  }

  lemma {:induction false} InsertSorts(sorted: seq<Movement>, m: Movement)
    requires MovesByLine(sorted)
    ensures MovesByLine(InsertByLine(sorted, m))
  {
    if sorted == [] || sorted[|sorted| - 1].lineNo <= m.lineNo {
    } else {
      var front, last := sorted[..|sorted| - 1], sorted[|sorted| - 1];
      InsertSorts(front, m);
      InsertKeeps(front, m);
      forall x | x in InsertByLine(front, m) ensures x.lineNo <= last.lineNo {
        assert x in multiset(InsertByLine(front, m));
        if x in front {
          var i :| 0 <= i < |front| && front[i] == x;
          assert sorted[i] == x;
        }
      }
    }
  }

  lemma {:induction false} StampMore(id: DocumentId, at: Instant, ms: seq<Movement>, m: Movement)
    ensures Stamp(id, at, ms + [m]) == Stamp(id, at, ms) + [Entry(id, at, m)]
  {}

  lemma {:induction false} StampInsert(id: DocumentId, at: Instant, sorted: seq<Movement>, m: Movement)
    ensures multiset(Stamp(id, at, InsertByLine(sorted, m)))
         == multiset(Stamp(id, at, sorted)) + multiset{Entry(id, at, m)}
  {
    StampMore(id, at, sorted, m);
    if sorted == [] || sorted[|sorted| - 1].lineNo <= m.lineNo {
    } else {
      var front, last := sorted[..|sorted| - 1], sorted[|sorted| - 1];
      StampInsert(id, at, front, m);
      StampMore(id, at, front, last);
      StampMore(id, at, InsertByLine(front, m), last);
      assert sorted == front + [last];
    }
  }

  lemma {:induction false} StampSort(id: DocumentId, at: Instant, ms: seq<Movement>)
    ensures multiset(Stamp(id, at, SortByLine(ms))) == multiset(Stamp(id, at, ms))
  {
    if ms == [] {
    } else {
      var front, last := ms[..|ms| - 1], ms[|ms| - 1];
      StampSort(id, at, front);
      StampInsert(id, at, SortByLine(front), last);
      StampMore(id, at, front, last);
      assert ms == front + [last];
    }
  }

  /**
   * A consumption: one entry for each lot change and one for each use of a placeholder, in the order
   * of the document's lines; the lots added are the placeholders that did not exist yet.
   */
  lemma {:induction false} ConsumptionIsWritten(
      sites: Sites, s: Ledger, id: DocumentId, revision: nat, from: Status, time: Option<Instant>,
      changes: seq<LotChange>, uses: seq<PlaceholderUse>) returns (changed: seq<Entry>, sent: seq<Entry>)
    requires Post(sites, s, id, revision, from, time, Consumption(changes, uses)).Success?
    ensures |changed| == |changes| && |sent| == |uses|
    ensures
      var n := Post(sites, s, id, revision, from, time, Consumption(changes, uses)).value;
      var at := PostedAt(s.documents[id], time);
      && OnlyAdds(s, n, id) && n.links == s.links
      && multiset(n.entries[|s.entries|..]) == multiset(changed + sent) && ByLine(n.entries[|s.entries|..])
      && (forall i :: 0 <= i < |changes| ==> ChangedAs(changes[i], id, at, s.lots, changed[i]))
      && (forall i :: 0 <= i < |uses| ==> SentAs(uses[i], id, at, n.lots, sent[i]))
      && MadeOnDemand(|s.lots|, n.lots, id, uses)
  {
    var at := PostedAt(s.documents[id], time);
    PostWrites(sites, s, id, revision, from, time, Consumption(changes, uses));
    changed, sent := ConsumptionPrepared(s.lots, id, at, changes, uses);
    var moves := Prepare(s.lots, id, Consumption(changes, uses)).value.moves;
    assert (s.entries + Stamp(id, at, moves))[|s.entries|..] == Stamp(id, at, moves);
  }

  lemma {:induction false} ConsumptionPrepared(
      lots: seq<Lot>, id: DocumentId, at: Instant, changes: seq<LotChange>, uses: seq<PlaceholderUse>)
      returns (changed: seq<Entry>, sent: seq<Entry>)
    requires Prepare(lots, id, Consumption(changes, uses)).Success?
    ensures |changed| == |changes| && |sent| == |uses|
    ensures
      var p := Prepare(lots, id, Consumption(changes, uses)).value;
      && lots <= p.lots && p.created == []
      && multiset(Stamp(id, at, p.moves)) == multiset(changed + sent) && ByLine(Stamp(id, at, p.moves))
      && (forall i :: 0 <= i < |changes| ==> ChangedAs(changes[i], id, at, lots, changed[i]))
      && (forall i :: 0 <= i < |uses| ==> SentAs(uses[i], id, at, p.lots, sent[i]))
      && MadeOnDemand(|lots|, p.lots, id, uses)
  {
    var a, b := ChangeMoves(lots, changes), PlaceholderMoves(lots, id, uses);
    changed, sent := Stamp(id, at, a), Stamp(id, at, b);
    PlaceholdersAreMade(lots, id, uses);
    UsesAreSent(lots, id, at, uses);
    StampSorted(id, at, a, b);
    ChangesAre(lots, id, at, changes);
  }

  lemma {:induction false} StampSorted(id: DocumentId, at: Instant, a: seq<Movement>, b: seq<Movement>)
    ensures multiset(Stamp(id, at, SortByLine(a + b))) == multiset(Stamp(id, at, a) + Stamp(id, at, b))
    ensures ByLine(Stamp(id, at, SortByLine(a + b)))
  {
    SortSorts(a + b);
    StampSort(id, at, a + b);
    assert Stamp(id, at, a + b) == Stamp(id, at, a) + Stamp(id, at, b);
  }

  lemma {:induction false} ChangesAre(lots: seq<Lot>, id: DocumentId, at: Instant, changes: seq<LotChange>)
    requires AllNameable(lots, changes)
    ensures forall i :: 0 <= i < |changes| ==>
              ChangedAs(changes[i], id, at, lots, Stamp(id, at, ChangeMoves(lots, changes))[i])
  {
    assert forall i :: 0 <= i < |changes| ==> Nameable(lots, changes[i]);
  }

  // --- When a posting is refused ----------------------------------------------------------------

  /** What the lots table stores. */
  predicate LotsAreStorable(newLots: seq<NewLot>) {
    && (forall i :: 0 <= i < |newLots| ==>
          && newLots[i].amount.quantity > 0 && newLots[i].unitCost >= 0
          && (newLots[i].amount.pieces.Some? ==> newLots[i].amount.pieces.value > 0))
    && forall i, j :: 0 <= i < j < |newLots| ==> newLots[i].lineNo != newLots[j].lineNo
  }

  /** Every change names an ordinary lot of its item. */
  predicate NamesLots(lots: seq<Lot>, changes: seq<LotChange>) {
    forall i :: 0 <= i < |changes| ==>
      && changes[i].lot < |lots| && lots[changes[i].lot].placeholder.None?
      && lots[changes[i].lot].item == changes[i].item
  }

  /** A plan is prepared exactly when it names lots there are and brings in lots that can be stored. */
  lemma {:induction false} PreparedWhen(lots: seq<Lot>, id: DocumentId, plan: Plan)
    ensures
      Prepare(lots, id, plan).Success? <==>
        match plan
        case Refusal => false
        case NewLots(newLots) => LotsAreStorable(newLots)
        case LotChanges(changes) => NamesLots(lots, changes)
        case Production(consumed, outputs, _) => NamesLots(lots, consumed) && LotsAreStorable(outputs)
        case Consumption(changes, _) => NamesLots(lots, changes)
    ensures
      Prepare(lots, id, plan) == Failure(UnknownLot) <==>
        match plan
        case LotChanges(changes) => !NamesLots(lots, changes)
        case Production(consumed, _, _) => !NamesLots(lots, consumed)
        case Consumption(changes, _) => !NamesLots(lots, changes)
        case _ => false
  {
    assert forall changes :: NamesLots(lots, changes) <==> AllNameable(lots, changes);
    forall newLots: seq<NewLot> ensures LotsAreStorable(newLots) <==> StorableLots(newLots) {
      assert forall i :: 0 <= i < |newLots| ==> newLots[i] in newLots;
    }
  }

  /** What movements add to one row. */
  function AddedTo(ms: seq<Movement>, lot: LotId, location: LocationId): int {
    if ms == [] then 0
    else
      var last := ms[|ms| - 1];
      AddedTo(ms[..|ms| - 1], lot, location)
        + if last.lot == lot && last.location == location then last.amount.quantity else 0
  }

  /** No movement leaves its row below zero anywhere but at a branch. */
  predicate StaysInStock(sites: Sites, balances: Balances, ms: seq<Movement>) {
    forall i :: 0 <= i < |ms| && sites(ms[i].location) != Branch ==>
      var k := Key(ms[i].lot, ms[i].location);
      (if k in balances then balances[k].quantity else 0) + AddedTo(ms, ms[i].lot, ms[i].location) >= 0
  }

  /** What the entries table stores. */
  predicate EntriesAreStorable(ms: seq<Movement>) {
    forall i :: 0 <= i < |ms| ==>
      ms[i].amount.quantity != 0 && ms[i].amount.pieces != Some(0) && ms[i].unitCost >= 0
  }

  /** Every link a production order asks for is from a line it has an output on. */
  predicate LinksItsOutputs(plan: Plan) {
    plan.Production? ==>
      forall i :: 0 <= i < |plan.genealogy| ==>
        exists j :: 0 <= j < |plan.outputs| && plan.outputs[j].lineNo == plan.genealogy[i].outputLineNo
  }

  lemma {:induction false} AddedToIs(ms: seq<Movement>, lot: LotId, location: LocationId)
    ensures AddedTo(ms, lot, location) == Total(ms, Key(lot, location)).quantity
  {
    if ms == [] {
    } else {
      AddedToIs(ms[..|ms| - 1], lot, location);
    }
  }

  lemma {:induction false} InStockWhen(sites: Sites, balances: Balances, ms: seq<Movement>)
    ensures Offending(sites, balances, ms) == {} <==> StaysInStock(sites, balances, ms)
  {
    if k :| k in Offending(sites, balances, ms) {
      var m :| m in ms && m.Row() == k;
      var i :| 0 <= i < |ms| && ms[i] == m;
      AddedToIs(ms, m.lot, m.location);
    } else {
      forall i | 0 <= i < |ms| && sites(ms[i].location) != Branch
        ensures
          var k := Key(ms[i].lot, ms[i].location);
          (if k in balances then balances[k].quantity else 0) + AddedTo(ms, ms[i].lot, ms[i].location) >= 0
      {
        AddedToIs(ms, ms[i].lot, ms[i].location);
        assert ms[i] in ms && ms[i].Row() !in Offending(sites, balances, ms);
      }
    }
  }

  lemma {:induction false} StorableWhen(ms: seq<Movement>)
    ensures Storable(ms) <==> EntriesAreStorable(ms)
  {
    assert forall i :: 0 <= i < |ms| ==> ms[i] in ms;
  }

  lemma {:induction false} LinkedWhen(
      lots: seq<Lot>, id: DocumentId, consumed: seq<LotChange>, outputs: seq<NewLot>, genealogy: seq<LinkPlan>)
    ensures LinksOf(id, CreatedMoves(|lots|, outputs), genealogy).Success?
       <==> LinksItsOutputs(Production(consumed, outputs, genealogy))
  {
    if genealogy == [] {
    } else {
      var front, last := genealogy[..|genealogy| - 1], genealogy[|genealogy| - 1];
      LinkedWhen(lots, id, consumed, outputs, front);
      LotOfLineIs(|lots|, outputs, last.outputLineNo);
      var lot := LotOfLine(CreatedMoves(|lots|, outputs), last.outputLineNo);
      if lot.Some? { assert outputs[lot.value - |lots|].lineNo == last.outputLineNo; }
      if LinksItsOutputs(Production(consumed, outputs, front)) && lot.Some? {
        forall i | 0 <= i < |genealogy|
          ensures exists j :: 0 <= j < |outputs| && outputs[j].lineNo == genealogy[i].outputLineNo
        {
          if i < |front| { assert front[i] == genealogy[i]; }
        }
      }
    }
  }

  /** The document can be posted now, with what is asked of its state and dates. */
  predicate MayBePosted(
      s: Ledger, id: DocumentId, revision: nat, from: Status, time: Option<Instant>, plan: Plan) {
    && id < |s.documents| && s.documents[id].status != Posted && s.documents[id].status == from
    && s.documents[id].revision == revision && !plan.Refusal?
    && s.documents[id].day <= s.today
    && (time.Some? ==> time.value.day == s.documents[id].day)
  }

  /** A document is posted exactly when it may be, its plan can be prepared, and what it moves is in stock. */
  lemma {:induction false} PostedWhen(
      sites: Sites, s: Ledger, id: DocumentId, revision: nat, from: Status, time: Option<Instant>, plan: Plan)
    ensures
      Post(sites, s, id, revision, from, time, plan).Success? <==>
        && MayBePosted(s, id, revision, from, time, plan)
        && Prepare(s.lots, id, plan).Success?
        && StaysInStock(sites, s.balances, Prepare(s.lots, id, plan).value.moves)
        && EntriesAreStorable(Prepare(s.lots, id, plan).value.moves)
        && LinksItsOutputs(plan)
  {
    if MayBePosted(s, id, revision, from, time, plan) {
      PlanPostedWhen(sites, s, id, PostedAt(s.documents[id], time), plan);
      assert Post(sites, s, id, revision, from, time, plan)
          == PostPlan(sites, s, id, PostedAt(s.documents[id], time), plan);
    }
  }

  lemma {:induction false} PlanPostedWhen(sites: Sites, s: Ledger, id: DocumentId, at: Instant, plan: Plan)
    requires id < |s.documents|
    ensures
      PostPlan(sites, s, id, at, plan).Success? <==>
        && Prepare(s.lots, id, plan).Success?
        && StaysInStock(sites, s.balances, Prepare(s.lots, id, plan).value.moves)
        && EntriesAreStorable(Prepare(s.lots, id, plan).value.moves)
        && LinksItsOutputs(plan)
  {
    if Prepare(s.lots, id, plan).Success? {
      var p := Prepare(s.lots, id, plan).value;
      InStockWhen(sites, s.balances, p.moves);
      StorableWhen(p.moves);
      PlanLinkedWhen(s.lots, id, plan);
    }
  }

  lemma {:induction false} PlanLinkedWhen(lots: seq<Lot>, id: DocumentId, plan: Plan)
    requires Prepare(lots, id, plan).Success?
    ensures LinksOf(id, Prepare(lots, id, plan).value.created, GenealogyOf(plan)).Success? <==> LinksItsOutputs(plan)
  {
    if plan.Production? { LinkedWhen(lots, id, plan.consumed, plan.outputs, plan.genealogy); }
  }

  /** A posting is refused for the first reason there is, in this order. */
  lemma {:induction false} RefusedFor(
      sites: Sites, s: Ledger, id: DocumentId, revision: nat, from: Status, time: Option<Instant>, plan: Plan)
    requires !MayBePosted(s, id, revision, from, time, plan)
    ensures
      Post(sites, s, id, revision, from, time, plan) == Failure(
        if |s.documents| <= id then UnknownDocument
        else if Posted == s.documents[id].status then AlreadyPosted
        else if revision != s.documents[id].revision then StaleRevision
        else if from != s.documents[id].status then NotReady
        else if plan == Refusal then PlanRefused
        else if s.today < s.documents[id].day then BusinessDateInFuture
        else TimeNotOnDate)
  {}

  // --- Everything short of posting ----------------------------------------------------------------

  /** One document is now this one, at its next revision, and all else is as it was. */
  predicate OnlyDocument(s: Ledger, n: Ledger, id: DocumentId, doc: Document) {
    && id < |s.documents|
    && n == s.(documents := s.documents[id := doc.(revision := s.documents[id].revision + 1)])
  }

  /** A draft is begun for any type but a reversal, dated no later than today. */
  lemma {:induction false} DraftDecides(sites: Sites, s: Ledger, kind: Kind, day: int, actor: nat)
    ensures Attempt(sites, s, CreateStep(kind, day, actor)).Success? <==> day <= s.today && kind != Reversal
    ensures Attempt(sites, s, CreateStep(kind, day, actor)).Success? ==>
        Attempt(sites, s, CreateStep(kind, day, actor)).value
        == s.(documents := s.documents + [Document(kind, Draft, day, 1, actor, None)])
  {}

  /** A draft is redated exactly at the revision its editor saw, and no later than today. */
  lemma {:induction false} EditDecides(sites: Sites, s: Ledger, id: DocumentId, revision: nat, day: int)
    ensures
      Attempt(sites, s, EditStep(id, revision, day)).Success? <==>
        && id < |s.documents| && s.documents[id].status == Draft && s.documents[id].revision == revision
        && day <= s.today
    ensures Attempt(sites, s, EditStep(id, revision, day)).Success? ==>
        id < |s.documents|
        && OnlyDocument(s, Attempt(sites, s, EditStep(id, revision, day)).value, id, s.documents[id].(day := day))
  {}

  /** A document that is not posted moves on to any other status but that one. */
  lemma {:induction false} MoveDecides(sites: Sites, s: Ledger, id: DocumentId, status: Status)
    ensures
      Attempt(sites, s, MoveStep(id, status)).Success? <==>
        id < |s.documents| && s.documents[id].status != Posted && status != Posted
    ensures Attempt(sites, s, MoveStep(id, status)).Success? ==>
        id < |s.documents|
        && OnlyDocument(s, Attempt(sites, s, MoveStep(id, status)).value, id, s.documents[id].(status := status))
  {}

  /** Postings and reversals are steps like these, days pass, and what is refused changes nothing. */
  lemma {:induction false} StepsTakeEffect(
      sites: Sites, s: Ledger, id: DocumentId, revision: nat, from: Status, time: Option<Instant>, plan: Plan,
      day: Option<int>, actor: nat, days: nat, step: Step)
    ensures
      Attempt(sites, s, PostStep(id, revision, from, time, plan)) == Post(sites, s, id, revision, from, time, plan)
    ensures Attempt(sites, s, ReverseStep(id, day, actor)) == Reverse(sites, s, id, day, actor)
    ensures Attempt(sites, s, DayStep(days)) == Success(s.(today := s.today + days))
    ensures Attempt(sites, s, RebuildStep) == Success(s.(balances := Net(Moves(s.entries))))
    ensures
      Do(sites, s, step) == match Attempt(sites, s, step) case Success(n) => n case Failure(_) => s
  {}

  // --- Reversals --------------------------------------------------------------------------------

  /** The entry that takes another one back: everything the same but for its sign. */
  predicate TakenBackBy(e: Entry, id: DocumentId, at: Instant, entries: seq<Entry>, place: nat) {
    && place < |entries|
    && var m := entries[place].move;
       e == Entry(id, at, Movement(m.lineNo, m.lot, m.item, m.location,
           Amount(-m.amount.quantity, if m.amount.pieces.Some? then Some(-m.amount.pieces.value) else None),
           m.unitCost, Some(place)))
  }

  /** The entries of a document, by their places in the ledger, oldest first. */
  ghost predicate AreThePlaces(places: seq<nat>, entries: seq<Entry>, id: DocumentId) {
    && (forall i, j :: 0 <= i < j < |places| ==> places[i] < places[j])
    && (forall i :: 0 <= i < |places| ==> places[i] < |entries| && entries[places[i]].document == id)
    && forall p :: 0 <= p < |entries| && entries[p].document == id ==> p in places
  }

  lemma {:induction false} PlacesAre(entries: seq<Entry>, id: DocumentId)
    ensures AreThePlaces(PlacesOf(entries, id), entries, id)
    ensures forall i :: 0 <= i < |PlacesOf(entries, id)| ==>
              EntriesOf(entries, id)[i] == entries[PlacesOf(entries, id)[i]]
  {
    if entries == [] {
    } else {
      var front, last := entries[..|entries| - 1], |entries| - 1;
      PlacesAre(front, id);
      if entries[last].document == id {
        OneMorePlace(PlacesOf(front, id), entries, id);
      } else {
        forall p | 0 <= p < |entries| && entries[p].document == id ensures p in PlacesOf(front, id) {
          assert front[p].document == id;
        }
      }
    }
  }

  lemma {:induction false} OneMorePlace(places: seq<nat>, entries: seq<Entry>, id: DocumentId)
    requires entries != [] && entries[|entries| - 1].document == id
    requires AreThePlaces(places, entries[..|entries| - 1], id)
    ensures AreThePlaces(places + [|entries| - 1], entries, id)
  {
    var front, more := entries[..|entries| - 1], places + [|entries| - 1];
    forall p | 0 <= p < |entries| && entries[p].document == id ensures p in more {
      if p < |front| {
        assert front[p].document == id;
      } else {
        assert more[|places|] == p;
      }
    }
  }

  /**
   * A reversal is a posted document of its own, dated the day given or today, with one entry for each
   * of the document's, that takes it back; nothing else changes but the snapshot.
   */
  lemma {:induction false} ReversalIsWritten(
      sites: Sites, s: Ledger, id: DocumentId, day: Option<int>, actor: nat) returns (places: seq<nat>)
    requires Reverse(sites, s, id, day, actor).Success?
    ensures AreThePlaces(places, s.entries, id)
    ensures
      var n := Reverse(sites, s, id, day, actor).value;
      var on := if day.Some? then day.value else s.today;
      && n.documents == s.documents + [Document(Reversal, Posted, on, 1, actor, Some(id))]
      && n.lots == s.lots && n.links == s.links && n.today == s.today
      && |n.entries| == |s.entries| + |places| && n.entries[..|s.entries|] == s.entries
      && forall i :: 0 <= i < |places| ==>
           TakenBackBy(n.entries[|s.entries| + i], |s.documents|, Instant(on, 0), s.entries, places[i])
  {
    places := PlacesOf(s.entries, id);
    PlacesAre(s.entries, id);
  }
}
