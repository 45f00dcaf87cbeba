/** Which stock a sale is taken from and what it is flagged with, said of the ledger's own rows. */
module ConsumptionChoice {
  import opened Options
  import opened PostingRules
  import opened Ledger
  import opened LedgerInvariant
  import opened BranchAllocation
  import opened ConsumptionPlan
  import opened ConsumptionLaws

  // --- What is read -------------------------------------------------------------------------------

  /** An entry that brought an item in at the location: into an ordinary lot, and no reversal. */
  predicate Received(lots: seq<Lot>, e: Entry, location: LocationId, item: ItemId) {
    && e.move.lot < |lots| && lots[e.move.lot].placeholder == None
    && e.move.item == item && e.move.location == location
    && e.move.amount.quantity > 0 && e.move.reverses == None
  }

  predicate NotLater(a: Instant, b: Instant) {
    a.day < b.day || (a.day == b.day && a.offset <= b.offset)
  }

  /** The last received lot is that of an entry none of the others is later than. */
  lemma {:induction false} LastReceivedIs(lots: seq<Lot>, entries: seq<Entry>, location: LocationId, item: ItemId)
    ensures
      match LastReceivedAt(lots, entries, location, item)
      case None => forall e :: e in entries ==> !Received(lots, e, location, item)
      case Some(last) =>
        exists e :: e in entries && Received(lots, e, location, item) && last.lot == e.move.lot
          && (lots[last.lot].expiry.Some? ==> last.expiry == lots[last.lot].expiry.value)
          && forall other :: other in entries && Received(lots, other, location, item) ==>
               NotLater(other.time, e.time)
  {
    var latest := LatestEntry(lots, entries, location, item);
    if latest.Some? {
      assert Received(lots, latest.value, location, item);
      forall other | other in entries && Received(lots, other, location, item)
        ensures NotLater(other.time, latest.value.time)
      {
        assert BroughtIn(lots, other, location, item);
      }
    } else {
      forall e | e in entries ensures !Received(lots, e, location, item) {
        assert !BroughtIn(lots, e, location, item);
      }
    }
  }

  /** A lot is read with its own number and expiry and with what it has at the location. */
  predicate ReadAs(
      lots: seq<Lot>, balances: Balances, location: LocationId, item: ItemId, numbers: Numbers, l: StockedLot) {
    && l.lot < |lots| && lots[l.lot].placeholder == None && lots[l.lot].item == item == l.item
    && l.number == numbers(l.lot)
    && (lots[l.lot].expiry.Some? ==> l.expiry == lots[l.lot].expiry.value)
    && Key(l.lot, location) in balances && balances[Key(l.lot, location)].quantity == l.available > 0
  }

  predicate AllReadAs(
      lots: seq<Lot>, balances: Balances, location: LocationId, item: ItemId, numbers: Numbers, of: seq<StockedLot>) {
    forall i :: 0 <= i < |of| ==> ReadAs(lots, balances, location, item, numbers, of[i])
  }

  lemma {:induction false} LotsReadAs(
      lots: seq<Lot>, balances: Balances, location: LocationId, item: ItemId, numbers: Numbers)
    ensures AllReadAs(lots, balances, location, item, numbers, LotsAt(lots, balances, location, {item}, numbers))
  {
    if lots == [] {
    } else {
      var last := |lots| - 1;
      LotsReadAs(lots[..last], balances, location, item, numbers);
      var before := LotsAt(lots[..last], balances, location, {item}, numbers);
      forall i | 0 <= i < |before| ensures ReadAs(lots, balances, location, item, numbers, before[i]) {
        assert ReadAs(lots[..last], balances, location, item, numbers, before[i]);
      }
    }
  }

  /** A lot an item's plan can draw on: ordinary, of the item, and with something at the location. */
  predicate InStock(lots: seq<Lot>, balances: Balances, location: LocationId, item: ItemId, lot: LotId) {
    && lot < |lots| && lots[lot].placeholder == None && lots[lot].item == item
    && Key(lot, location) in balances && balances[Key(lot, location)].quantity > 0
  }

  /** Each lot in stock is read once. */
  lemma {:induction false} ReadOnce(
      s: Ledger, location: LocationId, lines: seq<Line>, numbers: Numbers, item: ItemId)
    requires item in Items(lines)
    ensures
      var of := OfItem(ReadAt(s.lots, s.balances, s.entries, location, lines, numbers).stocked, item);
      && of == LotsAt(s.lots, s.balances, location, {item}, numbers)
      && AllReadAs(s.lots, s.balances, location, item, numbers, of)
      && (forall i, j :: 0 <= i < j < |of| ==> of[i].lot != of[j].lot)
      && forall lot :: InStock(s.lots, s.balances, location, item, lot) ==>
           exists i :: 0 <= i < |of| && of[i].lot == lot
  {
    LotsOfItem(s.lots, s.balances, location, Items(lines), numbers, item);
    LotsAtRight(s.lots, s.balances, location, item, numbers);
    LotsReadAs(s.lots, s.balances, location, item, numbers);
    forall lot | InStock(s.lots, s.balances, location, item, lot)
      ensures exists i :: 0 <= i < |LotsAt(s.lots, s.balances, location, {item}, numbers)|
                          && LotsAt(s.lots, s.balances, location, {item}, numbers)[i].lot == lot
    {
      assert Stocked(s.lots, s.balances, location, {item}, lot);
    }
  }

  // --- First expired, first out -----------------------------------------------------------------

  /** A lot with something left means FEFO covered the line, and gave nothing from what it did not see. */
  lemma {:induction false} UnseenGivesNothing(
      lots: seq<StockedLot>, quantity: nat, day: int, last: Option<LastReceived>, i: nat, lot: LotId)
    requires DistinctLots(lots) && i < |lots| && day <= lots[i].expiry && lots[i].available > 0
    requires TakenFrom(AllocateAtBranch(lots, quantity, day, last).picks, lots[i].lot) < lots[i].available
    requires forall j :: 0 <= j < |lots| ==> lots[j].lot != lot
    ensures TakenFrom(AllocateAtBranch(lots, quantity, day, last).picks, lot) == 0
  {
    LeftOverMeansCovered(lots, quantity, day, last, i);
    AllocationFrom(lots, quantity, day, last, lot);
    NotStockedGivesNothing(lots, quantity, day, lot);
  }

  /** One lot goes before another: it expires earlier, or on the same day with the lower number. */
  predicate GoesBefore(lots: seq<Lot>, numbers: Numbers, a: LotId, b: LotId)
    requires a < |lots| && b < |lots| && lots[a].expiry.Some? && lots[b].expiry.Some?
  {
    var x, y := lots[a].expiry.value, lots[b].expiry.value;
    || x < y
    || (x == y && numbers(a).document < numbers(b).document)
    || (x == y && numbers(a).document == numbers(b).document && numbers(a).line < numbers(b).line)
  }

  lemma {:induction false} PlanTakesFirst(
      s: Ledger, location: LocationId, lines: seq<Line>, day: int, numbers: Numbers, line: Line, a: LotId, b: LotId)
    requires a < |s.lots| && line in lines && line.item == s.lots[a].item
    requires b < |s.lots| && s.lots[a].expiry.Some? && s.lots[b].expiry.Some?
    requires InStock(s.lots, s.balances, location, line.item, a)
    requires s.lots[a].item == s.lots[b].item && s.lots[b].placeholder == None
    requires GoesBefore(s.lots, numbers, a, b) && day <= s.lots[a].expiry.value
    requires
      var read := ReadAt(s.lots, s.balances, s.entries, location, lines, numbers);
      TakenFrom(AllocationOf(read, line, day).picks, a) < s.balances[Key(a, location)].quantity
    ensures
      var read := ReadAt(s.lots, s.balances, s.entries, location, lines, numbers);
      TakenFrom(AllocationOf(read, line, day).picks, b) == 0
  {
    var read := ReadAt(s.lots, s.balances, s.entries, location, lines, numbers);
    var of := OfItem(read.stocked, line.item);
    var last := if line.item in read.last then Some(read.last[line.item]) else None;
    ReadOnce(s, location, lines, numbers, line.item);
    var i :| 0 <= i < |of| && of[i].lot == a;
    if j :| 0 <= j < |of| && of[j].lot == b {
      FirstExpiredFirstOut(of, line.quantity, day, last, i, j);
    } else {
      UnseenGivesNothing(of, line.quantity, day, last, i, b);
    }
  }

  /** Movements that only take, and take nothing from a row in all, do not touch it. */
  lemma {:induction false} NothingTakenMeansUntouched(ms: seq<Movement>, k: Key)
    requires forall m :: m in ms ==> m.amount.quantity < 0
    requires SumMoves(ms, OnRow(k)) >= 0
    ensures forall m :: m in ms ==> m.Row() != k
  {
    if ms == [] {
    } else {
      var front := ms[..|ms| - 1];
      assert ms == front + [ms[|ms| - 1]];
      SumsFall(front, k);
      NothingTakenMeansUntouched(front, k);
    }
  }

  lemma {:induction false} SumsFall(ms: seq<Movement>, k: Key)
    requires forall m :: m in ms ==> m.amount.quantity < 0
    ensures SumMoves(ms, OnRow(k)) <= 0
  {
    if ms == [] {
    } else {
      assert ms[|ms| - 1] in ms;
      SumsFall(ms[..|ms| - 1], k);
    }
  }

  /** The plan's movements on an ordinary lot's row come to what its item's line is given from it. */
  lemma {:induction false} RowTaken(
      s: Ledger, id: DocumentId, location: LocationId, lines: seq<Line>, day: int, numbers: Numbers, i: nat, lot: LotId)
    requires EntriesOk(s) && LotsOk(s.lots) && LinesOk(lines) && i < |lines|
    requires lot < |s.lots| && s.lots[lot].placeholder.None? && lines[i].item == s.lots[lot].item
    ensures
      var read := ReadAt(s.lots, s.balances, s.entries, location, lines, numbers);
      var prepared := Prepare(s.lots, id, PostingOf(PlanAt(s, location, lines, day, numbers)));
      && prepared.Success?
      && SumMoves(prepared.value.moves, OnRow(Key(lot, location)))
         == -TakenFrom(AllocationOf(read, lines[i], day).picks, lot)
      && Total(prepared.value.moves, Key(lot, location)).quantity
         == SumMoves(prepared.value.moves, OnRow(Key(lot, location)))
  {
    var read := ReadAt(s.lots, s.balances, s.entries, location, lines, numbers);
    var planned := PlanOf(read, lines, location, day);
    PlanPrepares(s, id, location, lines, day, numbers);
    ReadsAreSound(s, location, lines, numbers);
    PlanIsNameable(s.lots, s.balances, location, read, lines, day);
    OrdinaryRow(s, id, planned, Key(lot, location));
    PlanOnRow(s.lots, s.balances, location, read, lines, day, i, lot);
    TotalIsSumMoves(Prepare(s.lots, id, PostingOf(planned)).value.moves, Key(lot, location));
  }

  /** What a planned posting moves, and what that leaves on a row. */
  lemma {:induction false} PlannedPosting(
    sites: Sites, s: Ledger, id: DocumentId, revision: nat, time: Option<Instant>,
    location: LocationId, lines: seq<Line>, numbers: Numbers)
    requires
      id < |s.documents|
      && Post(sites, s, id, revision, Draft, time,
             PostingOf(PlanAt(s, location, lines, s.documents[id].day, numbers))).Success?
    ensures
      var plan := PostingOf(PlanAt(s, location, lines, s.documents[id].day, numbers));
      var n := Post(sites, s, id, revision, Draft, time, plan).value;
      && Prepare(s.lots, id, plan).Success?
      && var moves := Prepare(s.lots, id, plan).value.moves;
         && |n.entries| == |s.entries| + |moves|
         && (forall i :: 0 <= i < |moves| ==> n.entries[|s.entries| + i].move == moves[i])
         && n.balances == Upsert(s.balances, Net(moves))
  {}

  /** The lot's row at the location is above zero. */
  predicate HasLeft(balances: Balances, lot: LotId, location: LocationId) {
    Key(lot, location) in balances && balances[Key(lot, location)].quantity > 0
  }

  /**
   * First expired, first out, in the ledger: once a sale's consumption is posted, no entry of it takes
   * from a lot while one that goes before it, and was good on the day, has anything left.
   */
  lemma {:induction false} SalesTakeFirstExpired(
    sites: Sites, steps: seq<Step>, id: DocumentId, revision: nat, time: Option<Instant>,
    location: LocationId, lines: seq<Line>, numbers: Numbers, a: LotId, b: LotId)
    requires ProperSteps(steps) && LinesOk(lines)
    requires
      var s := Run(sites, steps);
      && id < |s.documents|
      && Post(sites, s, id, revision, Draft, time,
             PostingOf(PlanAt(s, location, lines, s.documents[id].day, numbers))).Success?
      && a < |s.lots| && b < |s.lots| && s.lots[a].expiry.Some? && s.lots[b].expiry.Some?
      && s.lots[a].item == s.lots[b].item
      && GoesBefore(s.lots, numbers, a, b) && s.documents[id].day <= s.lots[a].expiry.value
    ensures
      var s := Run(sites, steps);
      var n := Post(sites, s, id, revision, Draft, time,
                   PostingOf(PlanAt(s, location, lines, s.documents[id].day, numbers))).value;
      HasLeft(n.balances, a, location) ==>
        forall i :: |s.entries| <= i < |n.entries| ==>
          n.entries[i].move.lot != b || n.entries[i].move.location != location
  {
    var s := Run(sites, steps);
    var day := s.documents[id].day;
    Reachable(sites, steps);
    var plan := PostingOf(PlanAt(s, location, lines, day, numbers));
    var n := Post(sites, s, id, revision, Draft, time, plan).value;
    PlannedPosting(sites, s, id, revision, time, location, lines, numbers);
    var moves := Prepare(s.lots, id, plan).value.moves;
    if HasLeft(n.balances, a, location) {
      MovesLeave(s, id, location, lines, day, numbers, a, b);
      forall i | |s.entries| <= i < |n.entries|
        ensures n.entries[i].move.lot != b || n.entries[i].move.location != location
      {
        assert moves[i - |s.entries|] in moves;
      }
    }
  }

  lemma {:induction false} MovesLeave(
      s: Ledger, id: DocumentId, location: LocationId, lines: seq<Line>, day: int, numbers: Numbers, a: LotId, b: LotId)
    requires EntriesOk(s) && LotsOk(s.lots) && LinesOk(lines)
    requires a < |s.lots| && b < |s.lots| && s.lots[a].expiry.Some? && s.lots[b].expiry.Some?
    requires s.lots[a].item == s.lots[b].item
    requires GoesBefore(s.lots, numbers, a, b) && day <= s.lots[a].expiry.value
    requires
      var prepared := Prepare(s.lots, id, PostingOf(PlanAt(s, location, lines, day, numbers)));
      prepared.Success? && HasLeft(Upsert(s.balances, Net(prepared.value.moves)), a, location)
    ensures
      forall m :: m in Prepare(s.lots, id, PostingOf(PlanAt(s, location, lines, day, numbers))).value.moves ==>
        m.Row() != Key(b, location)
  {
    var moves := Prepare(s.lots, id, PostingOf(PlanAt(s, location, lines, day, numbers))).value.moves;
    var k := Key(a, location);
    PlanPrepares(s, id, location, lines, day, numbers);
    if i :| 0 <= i < |lines| && lines[i].item == s.lots[a].item {
      RowTaken(s, id, location, lines, day, numbers, i, a);
      RowTaken(s, id, location, lines, day, numbers, i, b);
      SumsFall(moves, k);
      LeftBefore(s.balances, moves, k);
      PlanTakesFirst(s, location, lines, day, numbers, lines[i], a, b);
      NothingTakenMeansUntouched(moves, Key(b, location));
    } else {
      forall m | m in moves ensures m.Row() != Key(b, location) {
        assert TakesFor(m, location, lines);
        PrepareOk(s.lots, id, PostingOf(PlanAt(s, location, lines, day, numbers)));
      }
    }
  }

  /** A row that only gives and has something left had more before. */
  lemma {:induction false} LeftBefore(balances: Balances, moves: seq<Movement>, k: Key)
    requires Total(moves, k).quantity <= 0
    requires k in Upsert(balances, Net(moves)) && Upsert(balances, Net(moves))[k].quantity > 0
    ensures k in balances && balances[k].quantity + Total(moves, k).quantity > 0
  {
    if k !in Keys(moves) { TotalUntouched(moves, k); }
  }

  // --- Flags --------------------------------------------------------------------------------------

  /** What a location has of an item in ordinary lots that are good on the day. */
  function GoodStock(lots: seq<Lot>, balances: Balances, location: LocationId, item: ItemId, day: int): nat {
    if lots == [] then 0
    else
      var last := |lots| - 1;
      GoodStock(lots[..last], balances, location, item, day)
        + if && lots[last].item == item && lots[last].placeholder == None
             && lots[last].expiry.Some? && day <= lots[last].expiry.value
             && Key(last, location) in balances && balances[Key(last, location)].quantity > 0
          then balances[Key(last, location)].quantity else 0
  }

  lemma {:induction false} UsableIsGoodStock(
      lots: seq<Lot>, balances: Balances, location: LocationId, item: ItemId, numbers: Numbers, day: int)
    requires forall i :: 0 <= i < |lots| && lots[i].placeholder == None ==> lots[i].expiry.Some?
    ensures UsableStock(LotsAt(lots, balances, location, {item}, numbers), day)
         == GoodStock(lots, balances, location, item, day)
  {
    if lots == [] {
    } else {
      var last := |lots| - 1;
      UsableIsGoodStock(lots[..last], balances, location, item, numbers, day);
      var before, of := LotsAt(lots[..last], balances, location, {item}, numbers), LotsAt(lots, balances, location,
          {item}, numbers);
      if Stocked(lots, balances, location, {item}, last) { assert of[..|of| - 1] == before; }
    }
  }

  /** The branch has less of the line's item, in lots good on the day, than the line asks for. */
  predicate NotEnough(s: Ledger, location: LocationId, line: Line, day: int) {
    line.quantity > GoodStock(s.lots, s.balances, location, line.item, day)
  }

  /** `LastReceivedAt` names a lot whose expiry is before the day. */
  predicate LastLotExpired(s: Ledger, location: LocationId, item: ItemId, day: int) {
    && LastReceivedAt(s.lots, s.entries, location, item).Some?
    && var lot := LastReceivedAt(s.lots, s.entries, location, item).value.lot;
       lot < |s.lots| && s.lots[lot].expiry.Some? && s.lots[lot].expiry.value < day
  }

  predicate NeverReceived(s: Ledger, location: LocationId, item: ItemId) {
    forall e :: e in s.entries ==> !Received(s.lots, e, location, item)
  }

  lemma {:induction false} LineFlags(
      s: Ledger, location: LocationId, lines: seq<Line>, day: int, numbers: Numbers, line: Line)
    requires LotsOk(s.lots) && line in lines
    ensures
      var read := ReadAt(s.lots, s.balances, s.entries, location, lines, numbers);
      && (Short(read, line, day) <==> NotEnough(s, location, line, day))
      && (ShortOnExpired(read, line, day) <==>
            NotEnough(s, location, line, day) && LastLotExpired(s, location, line.item, day))
      && (line.item !in read.last <==> NeverReceived(s, location, line.item))
  {
    LotsOfItem(s.lots, s.balances, location, Items(lines), numbers, line.item);
    UsableIsGoodStock(s.lots, s.balances, location, line.item, numbers, day);
    LastReceivedIs(s.lots, s.entries, location, line.item);
  }

  /**
   * What a consumption is flagged with, said of the ledger: short exactly when the branch did not have
   * enough good stock for some line; expired exactly when such a line's item came in last in a lot
   * expired by then; and on a placeholder exactly when it had never come in at all.
   */
  lemma {:induction false} FlagsSayWhatHappened(
      s: Ledger, location: LocationId, lines: seq<Line>, day: int, numbers: Numbers)
    requires LotsOk(s.lots)
    ensures
      var planned := PlanAt(s, location, lines, day, numbers);
      && (planned.shortfall <==> exists i :: 0 <= i < |lines| && NotEnough(s, location, lines[i], day))
      && (planned.consumedExpiredLot <==>
            exists i :: 0 <= i < |lines| && NotEnough(s, location, lines[i], day)
                        && LastLotExpired(s, location, lines[i].item, day))
      && (planned.placeholder <==>
            exists i :: 0 <= i < |lines| && NotEnough(s, location, lines[i], day)
                        && NeverReceived(s, location, lines[i].item))
      && (planned.placeholder <==> planned.placeholders != [])
  {
    FlagsMean(ReadAt(s.lots, s.balances, s.entries, location, lines, numbers), lines, location, day);
    forall i | 0 <= i < |lines|
      ensures
        var read := ReadAt(s.lots, s.balances, s.entries, location, lines, numbers);
        && (Short(read, lines[i], day) <==> NotEnough(s, location, lines[i], day))
        && (ShortOnExpired(read, lines[i], day) <==>
              NotEnough(s, location, lines[i], day) && LastLotExpired(s, location, lines[i].item, day))
        && (lines[i].item !in read.last <==> NeverReceived(s, location, lines[i].item))
    {
      assert lines[i] in lines;
      LineFlags(s, location, lines, day, numbers, lines[i]);
    }
  }
}
