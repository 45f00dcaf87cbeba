/**
 * The ledger service itself: its tables as fields, and its transactions as the steps it takes,
 * each proved to be the step of the same name in `Ledger`. What a transaction had written when it
 * is refused is rolled back.
 */
module LedgerService {
  import opened Options
  import opened PostingRules
  import opened Ledger
  import opened LedgerInvariant
  import opened LedgerLaws
  import L = Ledger

  /** The answer a caller gets. */
  function Answer(r: Result<Ledger, Rule>): Result<(), Rule> {
    if r.Success? then Success(()) else Failure(r.error)
  }

  class StockLedger {
    const sites: Sites
    var documents: seq<Document>
    var lots: seq<Lot>
    var entries: seq<Entry>
    var balances: Balances
    var links: seq<Link>
    var today: int

    ghost function State(): L.Ledger
      reads this
    {
      L.Ledger.Ledger(documents, lots, entries, balances, links, today)
    }

    constructor (sites: Sites)
      ensures State() == EMPTY && this.sites == sites
    {
      this.sites := sites;
      documents, lots, entries, balances, links, today := [], [], [], map[], [], 0;
    }

    /** Appends `CreatedLots` and returns `CreatedMoves`, which number them from the old end of `lots`. */
    method CreateLots(id: DocumentId, newLots: seq<NewLot>) returns (moves: seq<Movement>)
      modifies this`lots
      ensures lots == old(lots) + CreatedLots(id, newLots)
      ensures moves == CreatedMoves(|old(lots)|, newLots)
    {
      moves := [];
      for i := 0 to |newLots|
        invariant lots == old(lots) + CreatedLots(id, newLots)[..i]
        invariant moves == CreatedMoves(|old(lots)|, newLots)[..i]
      {
        moves := moves + [Bringing(newLots[i], |lots|)];
        lots := lots + [LotOf(id, newLots[i])];
      }
    }

    /** Computes `ChangeMoves`, stopping at the first change that is not `Nameable`. */
    method ChangesOf(changes: seq<LotChange>) returns (r: Result<seq<Movement>, Rule>)
      ensures r == if AllNameable(lots, changes) then Success(ChangeMoves(lots, changes)) else Failure(UnknownLot)
    {
      var moves: seq<Movement> := [];
      for i := 0 to |changes|
        invariant AllNameable(lots, changes[..i]) && moves == ChangeMoves(lots, changes[..i])
      {
        if !Nameable(lots, changes[i]) {
          return Failure(UnknownLot);
        }
        assert forall j :: 0 <= j < i ==> Nameable(lots, changes[..i][j]);
        moves := moves + [ChangeMove(lots, changes[i])];
      }
      assert changes[..|changes|] == changes;
      r := Success(moves);
    }

    /** Runs `PlaceholderLots` and `PlaceholderMoves` side by side, one use at a time. */
    method PlaceholderMovements(id: DocumentId, uses: seq<PlaceholderUse>) returns (moves: seq<Movement>)
      modifies this`lots
      ensures lots == PlaceholderLots(old(lots), id, uses)
      ensures moves == PlaceholderMoves(old(lots), id, uses)
    {
      moves := [];
      for i := 0 to |uses|
        invariant lots == PlaceholderLots(old(lots), id, uses[..i])
        invariant moves == PlaceholderMoves(old(lots), id, uses[..i])
      {
        assert uses[..i + 1][..i] == uses[..i];
        var use := uses[i];
        var found := FindPlaceholder(lots, use.location, use.item);
        if found.None? {
          lots := lots + [NewPlaceholder(lots, id, use)];
        }
        moves := moves + [TakePlaceholder(lots, use)];
      }
      assert uses[..|uses|] == uses;
    }

    /** Appends `LinksOf`, or nothing when an output line has no lot. */
    method WriteGenealogy(
        id: DocumentId, created: seq<Movement>, genealogy: seq<LinkPlan>) returns (r: Result<(), Rule>)
      modifies this`links
      ensures LinksOf(id, created, genealogy).Success? ==>
                r == Success(()) && links == old(links) + LinksOf(id, created, genealogy).value
      ensures LinksOf(id, created, genealogy).Failure? ==>
                r == Failure(LinksOf(id, created, genealogy).error) && links == old(links)
    {
      var written: seq<Link> := [];
      for i := 0 to |genealogy|
        invariant LinksOf(id, created, genealogy[..i]) == Success(written)
        invariant links == old(links)
      {
        assert genealogy[..i + 1][..i] == genealogy[..i];
        var output := LotOfLine(created, genealogy[i].outputLineNo);
        if output.None? {
          LinksFail(id, created, genealogy, i + 1);
          return Failure(NoLotForLine);
        }
        written := written + [Link(id, output.value, genealogy[i].inputLot, genealogy[i].inputQuantity)];
      }
      assert genealogy[..|genealogy|] == genealogy;
      links := links + written;
      r := Success(());
    }

    /**
     * `Ledger.Write` as the service does it: net the movements, judge them on the rows they touch,
     * and only then append and upsert.
     */
    method Write(id: DocumentId, at: Instant, moves: seq<Movement>) returns (r: Result<(), Rule>)
      modifies this`entries, this`balances
      ensures r == Answer(L.Write(sites, old(State()), id, at, moves))
      ensures State() == (if r.Success? then L.Write(sites, old(State()), id, at, moves).value else old(State()))
    {
      var keys, net := NetChanges(moves);
      var current := map k | k in balances && k in net :: balances[k];
      var outcome := ApplyMovements(sites, current, moves);
      RowsJudge(sites, balances, moves);
      if outcome.NegativeStock? {
        return Failure(BelowZero);
      }
      if !Storable(moves) {
        return Failure(DatabaseRefused);
      }
      AppendEntries(id, at, moves);
      UpsertBalances(keys, net);
      r := Success(());
    }

    method AppendEntries(id: DocumentId, at: Instant, moves: seq<Movement>)
      modifies this`entries
      ensures entries == old(entries) + Stamp(id, at, moves)
    {
      for i := 0 to |moves|
        invariant entries == old(entries) + Stamp(id, at, moves)[..i]
      {
        entries := entries + [Entry(id, at, moves[i])];
      }
    }

    /** Row by row in lock order: inserted, or added to. */
    method UpsertBalances(keys: seq<Key>, net: Balances)
      requires Ordered(keys) && forall k :: k in keys <==> k in net
      modifies this`balances
      ensures balances == Upsert(old(balances), net)
    {
      for i := 0 to |keys|
        invariant forall j :: 0 <= j < i ==>
            keys[j] in balances && balances[keys[j]] == Add(At(old(balances), keys[j]), net[keys[j]])
        invariant forall k :: k in balances && k !in keys[..i] ==> k in old(balances) && balances[k] == old(balances)[k]
        invariant old(balances).Keys <= balances.Keys
      {
        var k := keys[i];
        assert k in keys;
        balances := balances[k := if k !in balances then net[k] else Add(balances[k], net[k])];
      }
      UpsertDone(old(balances), net, keys, balances);
    }

    /** The lots and movements of a plan; a refusal leaves the lots to the caller to roll back. */
    method PreparePlan(id: DocumentId, plan: Plan) returns (r: Result<seq<Movement>, Rule>, created: seq<Movement>)
      requires !plan.Refusal?
      modifies this`lots
      ensures
        var spec := Prepare(old(lots), id, plan);
        && (spec.Failure? ==> r == Failure(spec.error))
        && (spec.Success? ==>
              r == Success(spec.value.moves) && lots == spec.value.lots && created == spec.value.created)
    {
      created := [];
      match plan
      case NewLots(newLots) =>
        if !StorableLots(newLots) { return Failure(DatabaseRefused), []; }
        var moves := CreateLots(id, newLots);
        r := Success(moves);
      case LotChanges(changes) =>
        r := ChangesOf(changes);
      case Production(consumed, outputs, _) =>
        var consumption := ChangesOf(consumed);
        if consumption.Failure? { return Failure(consumption.error), created; }
        if !StorableLots(outputs) { return Failure(DatabaseRefused), created; }
        created := CreateLots(id, outputs);
        r := Success(consumption.value + created);
      case Consumption(lotChanges, placeholders) =>
        var changed := ChangesOf(lotChanges);
        if changed.Failure? { return Failure(changed.error), created; }
        var taken := PlaceholderMovements(id, placeholders);
        r := Success(SortByLine(changed.value + taken));
    }

    /** The guards of `Ledger.Post` in their order, and then `WritePlan`. */
    method Post(id: DocumentId, revision: nat, from: Status, time: Option<Instant>, plan: Plan)
      returns (r: Result<(), Rule>)
      modifies this
      ensures r == Answer(L.Post(sites, old(State()), id, revision, from, time, plan))
      ensures State() == Do(sites, old(State()), PostStep(id, revision, from, time, plan))
    {
      if id >= |documents| { return Failure(UnknownDocument); }
      var doc := documents[id];
      if doc.status == Posted { return Failure(AlreadyPosted); }
      if doc.revision != revision { return Failure(StaleRevision); }
      if doc.status != from { return Failure(NotReady); }
      if plan.Refusal? { return Failure(PlanRefused); }
      if doc.day > today { return Failure(BusinessDateInFuture); }
      if time.Some? && time.value.day != doc.day { return Failure(TimeNotOnDate); }
      r := WritePlan(id, if time.None? then Instant(doc.day, 0) else time.value, plan);
    }

    /** Everything of a plan, or nothing. */
    method WritePlan(id: DocumentId, at: Instant, plan: Plan) returns (r: Result<(), Rule>)
      requires id < |documents| && !plan.Refusal?
      modifies this
      ensures r == Answer(L.PostPlan(sites, old(State()), id, at, plan))
      ensures State() == (if r.Success? then L.PostPlan(sites, old(State()), id, at, plan).value else old(State()))
    {
      var lotsBefore, entriesBefore, balancesBefore := lots, entries, balances;
      var moves, created := PreparePlan(id, plan);
      if moves.Failure? {
        lots := lotsBefore;
        return Failure(moves.error);
      }
      r := Write(id, at, moves.value);
      if r.Success? {
        r := WriteGenealogy(id, created, GenealogyOf(plan));
      }
      if r.Failure? {
        lots, entries, balances := lotsBefore, entriesBefore, balancesBefore;
        return;
      }
      documents := documents[id := documents[id].(status := Posted, revision := documents[id].revision + 1)];
    }

    /** Reverses a posted document by a new, posted document that negates its entries. */
    method Reverse(id: DocumentId, day: Option<int>, actor: nat) returns (r: Result<(), Rule>)
      modifies this
      ensures r == Answer(L.Reverse(sites, old(State()), id, day, actor))
      ensures State() == Do(sites, old(State()), ReverseStep(id, day, actor))
    {
      if id >= |documents| { return Failure(UnknownDocument); }
      var originals, places := EntriesOf(entries, id), PlacesOf(entries, id);
      var on := if day.Some? then day.value else today;
      var original := documents[id];
      if original.status != Posted { return Failure(NotPosted); }
      if original.kind == Reversal { return Failure(ReversalOfReversal); }
      if exists q :: 0 <= q < |documents| && Reverses(documents[q], id) { return Failure(AlreadyReversed); }
      if on > today { return Failure(BusinessDateInFuture); }
      if on < original.day { return Failure(BusinessDateBeforeOriginal); }
      var before := documents;
      documents := documents + [Document(Reversal, Posted, on, 1, actor, Some(id))];
      r := Write(|before|, Instant(on, 0), ReversalMoves(originals, places));
      if r.Failure? { documents := before; }
    }

    method CreateDraft(kind: Kind, day: int, actor: nat) returns (r: Result<(), Rule>)
      modifies this`documents
      ensures r == Answer(L.CreateDraft(old(State()), kind, day, actor))
      ensures State() == Do(sites, old(State()), CreateStep(kind, day, actor))
    {
      if day > today { return Failure(BusinessDateInFuture); }
      if kind == Reversal { return Failure(DatabaseRefused); }
      documents := documents + [Document(kind, Draft, day, 1, actor, None)];
      r := Success(());
    }

    method MoveTo(id: DocumentId, status: Status) returns (r: Result<(), Rule>)
      modifies this`documents
      ensures r == Answer(L.MoveTo(old(State()), id, status))
      ensures State() == Do(sites, old(State()), MoveStep(id, status))
    {
      if id >= |documents| { return Failure(UnknownDocument); }
      var doc := documents[id];
      if doc.status == Posted || status == Posted { return Failure(DatabaseRefused); }
      documents := documents[id := doc.(status := status, revision := doc.revision + 1)];
      r := Success(());
    }

    /** Deletes every row and sums the entries again: how many rows there are, how many differed. */
    method RebuildBalances() returns (rows: nat, corrected: nat)
      modifies this`balances
      ensures State() == Rebuild(old(State()))
      ensures rows == |balances|
      ensures corrected == |CompareBalances(old(State()))|
    {
      corrected := |CompareBalances(L.Ledger.Ledger(documents, lots, entries, balances, links, today))|;
      balances := map[];
      var keys, net := NetChanges(Moves(entries));
      balances := net;
      rows := |balances|;
    }
  }

  lemma {:induction false} LinksFail(id: DocumentId, created: seq<Movement>, genealogy: seq<LinkPlan>, i: nat)
    requires 0 < i <= |genealogy|
    requires LinksOf(id, created, genealogy[..i]) == Failure(NoLotForLine)
    ensures LinksOf(id, created, genealogy) == Failure(NoLotForLine)
    decreases |genealogy|
  {
    if i < |genealogy| {
      var before := genealogy[..|genealogy| - 1];
      assert before[..i] == genealogy[..i];
      LinksFail(id, created, before, i);
    } else {
      assert genealogy[..i] == genealogy;
    }
  }

  /** The rows a posting touches judge it as the whole table would. */
  lemma {:induction false} RowsJudge(sites: Sites, balances: Balances, moves: seq<Movement>)
    ensures Offending(sites, map k | k in balances && k in Net(moves) :: balances[k], moves)
         == Offending(sites, balances, moves)
  {}

  lemma {:induction false} UpsertDone(before: Balances, net: Balances, keys: seq<Key>, after: Balances)
    requires forall k :: k in keys <==> k in net
    requires forall j :: 0 <= j < |keys| ==>
        keys[j] in after && after[keys[j]] == Add(At(before, keys[j]), net[keys[j]])
    requires forall k :: k in after && k !in keys ==> k in before && after[k] == before[k]
    requires before.Keys <= after.Keys
    ensures after == Upsert(before, net)
  {
    forall k | k in net ensures k in after && after[k] == Add(At(before, k), net[k]) {
      assert k in keys;
    }
    assert after.Keys == before.Keys + net.Keys;
  }
}
