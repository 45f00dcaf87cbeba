/** Reading the ledger: stock on hand, stock value, placeholder lots and genealogy. */
module LedgerReadings {
  import opened Options
  import opened PostingRules
  import opened Ledger
  import opened LedgerInvariant
  import opened LedgerSums
  import opened LedgerLaws

  // --- Stock on hand --------------------------------------------------------------------------

  /** The entries dated after one day and up to the end of another. */
  function Between(entries: seq<Entry>, after: int, upTo: int): seq<Entry> {
    if entries == [] then []
    else
      var before := Between(entries[..|entries| - 1], after, upTo);
      var last := entries[|entries| - 1];
      if after < last.time.day <= upTo then before + [last] else before
  }

  function UpTo(entries: seq<Entry>, day: int): seq<Entry> {
    if entries == [] then []
    else
      var before := UpTo(entries[..|entries| - 1], day);
      var last := entries[|entries| - 1];
      if last.time.day <= day then before + [last] else before
  }

  /** Rows with neither quantity nor pieces left are left out. */
  function Shown(balances: Balances): Balances {
    map k | k in balances && (balances[k].quantity != 0
              || (balances[k].pieces.Some? && balances[k].pieces.value != 0)) :: balances[k]
  }

  /** Today's answer is the snapshot; an earlier day is summed from the entries; a later one refused. */
  function StockOnHand(s: Ledger, asOf: int): Result<Balances, Rule> {
    if asOf > s.today then Failure(BusinessDateInFuture)
    else Success(Shown(if asOf == s.today then s.balances else Net(Moves(UpTo(s.entries, asOf)))))
  }

  lemma {:induction false} UpToAll(entries: seq<Entry>, day: int)
    requires forall i :: 0 <= i < |entries| ==> entries[i].time.day <= day
    ensures UpTo(entries, day) == entries
  {
    if entries == [] {
    } else {
      UpToAll(entries[..|entries| - 1], day);
    }
  }

  /**
   * On every day that has come, today included, stock on hand is what the entries up to it make; a
   * day ahead is refused.
   */
  lemma {:induction false} StockOnHandIsTheLedger(sites: Sites, steps: seq<Step>, asOf: int)
    requires ProperSteps(steps)
    ensures
      var s := Run(sites, steps);
      StockOnHand(s, asOf)
      == if asOf > s.today then Failure(BusinessDateInFuture) else Success(Shown(Net(Moves(UpTo(s.entries, asOf)))))
  {
    Reachable(sites, steps);
    StockIsTheLedger(sites, Run(sites, steps), asOf);
  }

  lemma {:induction false} StockIsTheLedger(sites: Sites, s: Ledger, asOf: int)
    requires Inv(sites, s)
    ensures
      StockOnHand(s, asOf)
      == if asOf > s.today then Failure(BusinessDateInFuture) else Success(Shown(Net(Moves(UpTo(s.entries, asOf)))))
  {
    if asOf == s.today {
      forall i | 0 <= i < |s.entries| ensures s.entries[i].time.day <= s.today {
        assert EntryOk(s, s.entries[i]);
        assert DocumentOk(s, s.entries[i].document);
      }
      UpToAll(s.entries, asOf);
    }
  }

  // --- Row by row -------------------------------------------------------------------------------

  /** The entry is on the row, and dated no later than the day. */
  predicate OnRowBy(e: Entry, lot: LotId, location: LocationId, day: int) {
    e.move.lot == lot && e.move.location == location && e.time.day <= day
  }

  function QuantityBy(entries: seq<Entry>, lot: LotId, location: LocationId, day: int): int {
    if entries == [] then 0
    else
      var last := entries[|entries| - 1];
      QuantityBy(entries[..|entries| - 1], lot, location, day)
        + if OnRowBy(last, lot, location, day) then last.move.amount.quantity else 0
  }

  /** Entries that count no pieces add none. */
  function PiecesBy(entries: seq<Entry>, lot: LotId, location: LocationId, day: int): int {
    if entries == [] then 0
    else
      var last := entries[|entries| - 1];
      PiecesBy(entries[..|entries| - 1], lot, location, day)
        + if OnRowBy(last, lot, location, day) && last.move.amount.pieces.Some?
          then last.move.amount.pieces.value else 0
  }

  predicate CountsPieces(entries: seq<Entry>, lot: LotId, location: LocationId, day: int) {
    exists i :: 0 <= i < |entries| && OnRowBy(entries[i], lot, location, day) && entries[i].move.amount.pieces.Some?
  }

  lemma {:induction false} TotalBy(entries: seq<Entry>, lot: LotId, location: LocationId, day: int)
    ensures
      var total := Total(Moves(UpTo(entries, day)), Key(lot, location));
      && total.quantity == QuantityBy(entries, lot, location, day)
      && (total.pieces.Some? <==> CountsPieces(entries, lot, location, day))
      && (if total.pieces.Some? then total.pieces.value else 0) == PiecesBy(entries, lot, location, day)
  {
    if entries == [] {
    } else {
      var before, last := entries[..|entries| - 1], entries[|entries| - 1];
      TotalBy(before, lot, location, day);
      CountsLast(entries, lot, location, day);
      if last.time.day <= day { TotalMovesLast(UpTo(before, day), last, Key(lot, location)); }
    }
  }

  lemma {:induction false} CountsLast(entries: seq<Entry>, lot: LotId, location: LocationId, day: int)
    requires entries != []
    ensures
      var last := entries[|entries| - 1];
      CountsPieces(entries, lot, location, day)
      <==> CountsPieces(entries[..|entries| - 1], lot, location, day)
           || (OnRowBy(last, lot, location, day) && last.move.amount.pieces.Some?)
  {
    var front := entries[..|entries| - 1];
    if CountsPieces(front, lot, location, day) {
      var i :| 0 <= i < |front| && OnRowBy(front[i], lot, location, day) && front[i].move.amount.pieces.Some?;
      assert entries[i] == front[i];
    }
  }

  /**
   * Stock on hand lists a row exactly when the entries dated so far come to something on it, in
   * quantity or in pieces, above zero or below; and it lists what they come to.
   */
  lemma {:induction false} StockOnHandShows(
      sites: Sites, steps: seq<Step>, asOf: int, lot: LotId, location: LocationId)
    requires ProperSteps(steps) && asOf <= Run(sites, steps).today
    ensures
      var s := Run(sites, steps);
      var quantity, pieces := QuantityBy(s.entries, lot, location, asOf), PiecesBy(s.entries, lot, location, asOf);
      && StockOnHand(s, asOf).Success?
      && var rows := StockOnHand(s, asOf).value;
         && (Key(lot, location) in rows <==> quantity != 0 || pieces != 0)
         && (Key(lot, location) in rows ==>
               rows[Key(lot, location)] == Amount(quantity,
                 if CountsPieces(s.entries, lot, location, asOf) then Some(pieces) else None))
  {
    var s := Run(sites, steps);
    StockOnHandIsTheLedger(sites, steps, asOf);
    TotalBy(s.entries, lot, location, asOf);
    if Key(lot, location) !in Keys(Moves(UpTo(s.entries, asOf))) {
      TotalUntouched(Moves(UpTo(s.entries, asOf)), Key(lot, location));
    }
  }

  /** The snapshot has a row for each lot and location there is an entry for, with what these come to. */
  lemma {:induction false} SnapshotShows(sites: Sites, steps: seq<Step>, lot: LotId, location: LocationId)
    requires ProperSteps(steps)
    ensures
      var s := Run(sites, steps);
      && (Key(lot, location) in s.balances <==>
            exists i :: 0 <= i < |s.entries| && OnRowBy(s.entries[i], lot, location, s.today))
      && (Key(lot, location) in s.balances ==>
            s.balances[Key(lot, location)] == Amount(QuantityBy(s.entries, lot, location, s.today),
              if CountsPieces(s.entries, lot, location, s.today)
              then Some(PiecesBy(s.entries, lot, location, s.today)) else None))
  {
    Reachable(sites, steps);
    SnapshotSums(Run(sites, steps), lot, location);
    RowsTouched(Run(sites, steps).entries, Key(lot, location));
  }

  lemma {:induction false} SnapshotSums(s: Ledger, lot: LotId, location: LocationId)
    requires SnapshotOk(s) && EntriesOk(s) && DocumentsOk(s)
    ensures forall i :: 0 <= i < |s.entries| ==> s.entries[i].time.day <= s.today
    ensures s.balances == Net(Moves(s.entries))
    ensures
      var total := Total(Moves(s.entries), Key(lot, location));
      && total.quantity == QuantityBy(s.entries, lot, location, s.today)
      && (total.pieces.Some? <==> CountsPieces(s.entries, lot, location, s.today))
      && (if total.pieces.Some? then total.pieces.value else 0) == PiecesBy(s.entries, lot, location, s.today)
  {
    forall i | 0 <= i < |s.entries| ensures s.entries[i].time.day <= s.today {
      assert EntryOk(s, s.entries[i]);
      assert DocumentOk(s, s.entries[i].document);
    }
    UpToAll(s.entries, s.today);
    TotalBy(s.entries, lot, location, s.today);
  }

  lemma {:induction false} RowsTouched(entries: seq<Entry>, k: Key)
    ensures k in Keys(Moves(entries)) <==> exists i :: 0 <= i < |entries| && entries[i].move.Row() == k
  {
    if i :| 0 <= i < |entries| && entries[i].move.Row() == k {
      assert Moves(entries)[i] in Moves(entries);
    }
  }

  lemma {:induction false} AddInTurn(a: Amount, b: Amount, c: Amount)
    ensures Add(Add(a, b), c) == Add(a, Add(b, c)) == Add(Add(a, c), b)
  {}

  /** Stock as of a later day is the stock as of an earlier one plus what is dated in between. */
  lemma {:induction false} StockMovesOn(entries: seq<Entry>, earlier: int, later: int, k: Key)
    requires earlier <= later
    ensures Total(Moves(UpTo(entries, later)), k)
         == Add(Total(Moves(UpTo(entries, earlier)), k), Total(Moves(Between(entries, earlier, later)), k))
  {
    if entries == [] {
    } else {
      var before, last := entries[..|entries| - 1], entries[|entries| - 1];
      StockMovesOn(before, earlier, later, k);
      if last.time.day <= later {
        TotalMovesLast(UpTo(before, later), last, k);
        if last.time.day <= earlier {
          TotalMovesLast(UpTo(before, earlier), last, k);
          AddInTurn(Total(Moves(UpTo(before, earlier)), k), Total(Moves(Between(before, earlier, later)), k),
              last.move.amount);
        } else {
          TotalMovesLast(Between(before, earlier, later), last, k);
          AddInTurn(Total(Moves(UpTo(before, earlier)), k), Total(Moves(Between(before, earlier, later)), k),
              last.move.amount);
        }
      }
    }
  }

  lemma {:induction false} TotalMovesLast(es: seq<Entry>, e: Entry, k: Key)
    ensures Total(Moves(es + [e]), k)
         == if e.move.Row() == k then Add(Total(Moves(es), k), e.move.amount) else Total(Moves(es), k)
  {
    assert Moves(es + [e])[..|es|] == Moves(es);
  }

  // --- Value ----------------------------------------------------------------------------------

  function CostOf(lots: seq<Lot>, k: Key): int {
    if k.lot < |lots| then lots[k.lot].unitCost else 0
  }

  /** Each balance at its lot's cost, summed over some rows. */
  ghost function ValueOf(keys: set<Key>, balances: Balances, lots: seq<Lot>): int {
    if keys == {} then 0
    else
      var k :| k in keys;
      At(balances, k).quantity * CostOf(lots, k) + ValueOf(keys - {k}, balances, lots)
  }

  lemma {:induction false} ValueTakesOut(keys: set<Key>, k: Key, balances: Balances, lots: seq<Lot>)
    requires k in keys
    ensures ValueOf(keys, balances, lots)
         == At(balances, k).quantity * CostOf(lots, k) + ValueOf(keys - {k}, balances, lots)
    decreases |keys|
  {
    var j :| j in keys && ValueOf(keys, balances, lots)
               == At(balances, j).quantity * CostOf(lots, j) + ValueOf(keys - {j}, balances, lots);
    if j == k {
    } else {
      ValueTakesOut(keys - {j}, k, balances, lots);
      ValueTakesOut(keys - {k}, j, balances, lots);
      assert keys - {j} - {k} == keys - {k} - {j};
    }
  }

  lemma {:induction false} ValueAgrees(keys: set<Key>, a: Balances, b: Balances, lots: seq<Lot>)
    requires forall k :: k in keys ==> At(a, k) == At(b, k)
    ensures ValueOf(keys, a, lots) == ValueOf(keys, b, lots)
    decreases |keys|
  {
    if keys != {} {
      var k :| k in keys;
      ValueTakesOut(keys, k, a, lots);
      ValueTakesOut(keys, k, b, lots);
      ValueAgrees(keys - {k}, a, b, lots);
    }
  }

  lemma {:induction false} NetLast(ms: seq<Movement>, m: Movement)
    ensures forall j :: At(Net(ms + [m]), j) == if j == m.Row() then Add(At(Net(ms), j), m.amount) else At(Net(ms), j)
  {
    forall j ensures At(Net(ms + [m]), j) == if j == m.Row() then Add(At(Net(ms), j), m.amount) else At(Net(ms), j) {
      AtNet(ms + [m], j);
      AtNet(ms, j);
      assert (ms + [m])[..|ms|] == ms;
    }
  }

  lemma {:induction false} TimesCost(a: int, b: int, cost: int)
    ensures (a + b) * cost == a * cost + b * cost
  {}

  /** One more entry changes the value of the rows by its quantity at its lot's cost. */
  lemma {:induction false} ValueOfOneMore(ms: seq<Movement>, m: Movement, lots: seq<Lot>)
    ensures ValueOf(Keys(ms + [m]), Net(ms + [m]), lots)
         == ValueOf(Keys(ms), Net(ms), lots) + m.amount.quantity * CostOf(lots, m.Row())
  {
    var k := m.Row();
    var more := ms + [m];
    KeysLast(ms, m);
    NetLast(ms, m);
    var rest := Keys(ms) - {k};
    assert Keys(more) - {k} == rest;
    ValueAgrees(rest, Net(more), Net(ms), lots);
    ValueTakesOut(Keys(more), k, Net(more), lots);
    if k in Keys(ms) {
      ValueTakesOut(Keys(ms), k, Net(ms), lots);
    } else {
      assert Keys(ms) == rest;
    }
    TimesCost(At(Net(ms), k).quantity, m.amount.quantity, CostOf(lots, k));
  }

  lemma {:induction false} ValueOfEntries(es: seq<Entry>, lots: seq<Lot>)
    requires forall i :: 0 <= i < |es| ==> Fits(lots, es[i].move)
    ensures ValueOf(Keys(Moves(es)), Net(Moves(es)), lots) == Sum(es, Value())
  {
    if es == [] {
    } else {
      var e := es[|es| - 1];
      ValueOfEntries(es[..|es| - 1], lots);
      ValueOfOneMore(Moves(es[..|es| - 1]), e.move, lots);
      assert Moves(es) == Moves(es[..|es| - 1]) + [e.move];
      assert Fits(lots, e.move);
    }
  }

  lemma {:induction false} KeysLast(ms: seq<Movement>, m: Movement)
    ensures Keys(ms + [m]) == Keys(ms) + {m.Row()}
  {
    assert m in ms + [m];
    forall x | x in ms ensures x in ms + [m] {}
  }

  lemma {:induction false} SnapshotValue(s: Ledger)
    requires SnapshotOk(s) && EntriesOk(s)
    ensures ValueOf(s.balances.Keys, s.balances, s.lots) == Sum(s.entries, Value())
  {
    forall i | 0 <= i < |s.entries| ensures Fits(s.lots, s.entries[i].move) { assert EntryOk(s, s.entries[i]); }
    ValueOfEntries(s.entries, s.lots);
    assert s.balances.Keys == Keys(Moves(s.entries));
  }

  /**
   * In every reachable state the stock valued at its lots' costs is what the entries moved at the
   * costs they carry; so no value appears or vanishes between the two.
   */
  lemma {:induction false} StockValueIsTheLedger(sites: Sites, steps: seq<Step>)
    requires ProperSteps(steps)
    ensures var s := Run(sites, steps);
            ValueOf(s.balances.Keys, s.balances, s.lots) == Sum(s.entries, Value())
  {
    Reachable(sites, steps);
    SnapshotValue(Run(sites, steps));
  }

  lemma {:induction false} ReversalValue(sites: Sites, s: Ledger, id: DocumentId, day: Option<int>, actor: nat)
    requires Reverse(sites, s, id, day, actor).Success?
    ensures var n := Reverse(sites, s, id, day, actor).value;
            Sum(n.entries, Value()) == Sum(s.entries, Value()) - Sum(EntriesOf(s.entries, id), Value())
  {
    var n := Reverse(sites, s, id, day, actor).value;
    var added := n.entries[|s.entries|..];
    assert n.entries == s.entries + added;
    SumAppend(s.entries, added, Value());
    ReversalCancels(s, id, |s.documents|, Instant(n.documents[|s.documents|].day, 0));
    WeightsAreOdd(Key(0, 0));
    CancelledSum(s.entries, EntriesOf(s.entries, id), added, Value());
  }

  /** A reversal takes back exactly the value its document brought, whatever happened in between. */
  lemma {:induction false} ReversalRestoresValue(
      sites: Sites, steps: seq<Step>, id: DocumentId, day: Option<int>, actor: nat)
    requires ProperSteps(steps)
    requires Reverse(sites, Run(sites, steps), id, day, actor).Success?
    ensures
      var s := Run(sites, steps);
      var n := Reverse(sites, s, id, day, actor).value;
      ValueOf(n.balances.Keys, n.balances, n.lots)
        == ValueOf(s.balances.Keys, s.balances, s.lots) - Sum(EntriesOf(s.entries, id), Value())
  {
    var s := Run(sites, steps);
    Reachable(sites, steps);
    ReverseKeeps(sites, s, id, day, actor);
    SnapshotValue(s);
    SnapshotValue(Reverse(sites, s, id, day, actor).value);
    ReversalValue(sites, s, id, day, actor);
  }

  // --- Placeholder lots ------------------------------------------------------------------------

  /** No `Prepare` succeeds on a plan with a change to a placeholder lot, wherever in the plan it is. */
  lemma {:induction false} PlaceholderCannotBeNamed(
      lots: seq<Lot>, id: DocumentId, plan: Plan, changes: seq<LotChange>, c: LotChange)
    requires c in changes && c.lot < |lots| && lots[c.lot].placeholder.Some?
    requires match plan
             case LotChanges(x) => x == changes
             case Production(x, _, _) => x == changes
             case Consumption(x, _) => x == changes
             case _ => false
    ensures Prepare(lots, id, plan) == Failure(UnknownLot)
  {
    var i :| 0 <= i < |changes| && changes[i] == c;
    assert !Nameable(lots, changes[i]);
  }

  lemma {:induction false} LiveTakesOnly(s: Ledger, k: Key)
    requires EntriesOk(s) && SnapshotOk(s)
    requires k.lot < |s.lots| && s.lots[k.lot].placeholder.Some?
    requires Sum(s.entries, QuantityAt(k)) == Sum(s.entries, OnlyLive(QuantityAt(k), s.documents))
    ensures At(s.balances, k).quantity <= 0
    ensures k in s.balances ==> k.location == s.lots[k.lot].placeholder.value.location
  {
    var live := OnlyLive(QuantityAt(k), s.documents);
    forall i | 0 <= i < |s.entries| ensures live(s.entries[i]) <= 0 { assert EntryOk(s, s.entries[i]); }
    SumNotPositive(s.entries, live);
    TotalIsSum(s.entries, k);
    AtNet(Moves(s.entries), k);
    if k in s.balances {
      var m :| m in Moves(s.entries) && m.Row() == k;
      var i :| 0 <= i < |s.entries| && s.entries[i].move == m;
      assert EntryOk(s, s.entries[i]);
    }
  }

  /**
   * A branch has at most one placeholder lot of an item, which never holds more than nothing
   * there, whatever is reversed, and has no row anywhere else.
   */
  lemma {:induction false} PlaceholdersOnlyOwe(sites: Sites, steps: seq<Step>, lot: LotId, location: LocationId)
    requires ProperSteps(steps)
    requires lot < |Run(sites, steps).lots| && Run(sites, steps).lots[lot].placeholder.Some?
    ensures
      var s := Run(sites, steps);
      var home := s.lots[lot].placeholder.value.location;
      && (location == home ==> At(s.balances, Key(lot, location)).quantity <= 0)
      && (location != home ==> Key(lot, location) !in s.balances)
      && FindPlaceholder(s.lots, home, s.lots[lot].item) == Some(lot)
  {
    Reachable(sites, steps);
    WeightsAreOdd(Key(lot, location));
    OnlyLiveDocumentsCount(sites, steps, QuantityAt(Key(lot, location)));
    LiveTakesOnly(Run(sites, steps), Key(lot, location));
    TheOnlyPlaceholder(Run(sites, steps).lots, lot);
  }

  lemma {:induction false} TheOnlyPlaceholder(lots: seq<Lot>, lot: LotId)
    requires OnePlaceholderEach(lots) && lot < |lots| && lots[lot].placeholder.Some?
    ensures FindPlaceholder(lots, lots[lot].placeholder.value.location, lots[lot].item) == Some(lot)
  {
    assert IsPlaceholder(lots[lot], lots[lot].placeholder.value.location, lots[lot].item);
  }

  // --- Genealogy -------------------------------------------------------------------------------

  predicate MadeFrom(links: seq<Link>, output: LotId, input: LotId) {
    exists l :: l in links && l.output == output && l.input == input
  }

  /** A way back from a lot through the inputs it was made of. */
  predicate Path(links: seq<Link>, lots: seq<LotId>) {
    forall i :: 0 <= i < |lots| - 1 ==> MadeFrom(links, lots[i], lots[i + 1])
  }

  lemma {:induction false} PathGoesBack(s: Ledger, lots: seq<LotId>)
    requires LinksOk(s) && lots != [] && Path(s.links, lots)
    ensures forall i, j :: 0 <= i < j < |lots| ==> lots[j] < lots[i]
    ensures |lots| <= lots[0] + 1
  {
    if |lots| > 1 {
      var rest := lots[1..];
      assert MadeFrom(s.links, lots[0], lots[0 + 1]);
      forall i | 0 <= i < |rest| - 1 ensures MadeFrom(s.links, rest[i], rest[i + 1]) {
        assert MadeFrom(s.links, lots[i + 1], lots[(i + 1) + 1]);
      }
      PathGoesBack(s, rest);
      forall i, j | 0 <= i < j < |lots| ensures lots[j] < lots[i] {
        assert lots[j] == rest[j - 1];
        if i > 0 { assert lots[i] == rest[i - 1]; } else { assert j == 1 || rest[j - 1] < rest[0]; }
      }
    }
  }

  /**
   * Genealogy has no cycles: on any way back through the inputs each lot is older than the one
   * before, so none comes twice, and a trace from a lot ends within as many steps as there are
   * older lots.
   */
  lemma {:induction false} GenealogyIsAcyclic(sites: Sites, steps: seq<Step>, lots: seq<LotId>)
    requires ProperSteps(steps) && lots != [] && Path(Run(sites, steps).links, lots)
    ensures forall i, j :: 0 <= i < j < |lots| ==> lots[j] < lots[i]
    ensures |lots| <= lots[0] + 1
  {
    Reachable(sites, steps);
    PathGoesBack(Run(sites, steps), lots);
  }
}
