/**
 * What a consumption does to the stock, its plan and its posting taken as one step: it takes each
 * line's quantity exactly, it is never refused for want of stock, and only the lot an item was
 * received in last, or its placeholder, can end below zero.
 */
module ConsumptionLaws {
  import opened Options
  import opened PostingRules
  import opened Ledger
  import opened LedgerInvariant
  import opened BranchAllocation
  import opened ConsumptionPlan

  // --- Sums of movements --------------------------------------------------------------------

  function SumMoves(ms: seq<Movement>, w: Movement -> int): int {
    if ms == [] then 0 else SumMoves(ms[..|ms| - 1], w) + w(ms[|ms| - 1])
  }

  function OnLine(lineNo: nat): Movement -> int {
    (m: Movement) => if m.lineNo == lineNo then m.amount.quantity else 0
  }

  function OnRow(k: Key): Movement -> int {
    (m: Movement) => if m.Row() == k then m.amount.quantity else 0
  }

  lemma {:induction false} SumMovesAppend(a: seq<Movement>, b: seq<Movement>, w: Movement -> int)
    ensures SumMoves(a + b, w) == SumMoves(a, w) + SumMoves(b, w)
  {
    if b == [] {
      assert a + b == a;
    } else {
      assert (a + b)[..|a + b| - 1] == a + b[..|b| - 1];
      SumMovesAppend(a, b[..|b| - 1], w);
    }
  }

  lemma {:induction false} SumMovesInsert(sorted: seq<Movement>, m: Movement, w: Movement -> int)
    ensures SumMoves(InsertByLine(sorted, m), w) == SumMoves(sorted, w) + w(m)
  {
    if sorted == [] || sorted[|sorted| - 1].lineNo <= m.lineNo {
      assert (sorted + [m])[..|sorted|] == sorted;
    } else {
      var rest := InsertByLine(sorted[..|sorted| - 1], m);
      SumMovesInsert(sorted[..|sorted| - 1], m, w);
      assert (rest + [sorted[|sorted| - 1]])[..|rest|] == rest;
    }
  }

  lemma {:induction false} SumMovesSort(ms: seq<Movement>, w: Movement -> int)
    ensures SumMoves(SortByLine(ms), w) == SumMoves(ms, w)
  {
    if ms == [] {
    } else {
      SumMovesSort(ms[..|ms| - 1], w);
      SumMovesInsert(SortByLine(ms[..|ms| - 1]), ms[|ms| - 1], w);
    }
  }

  lemma {:induction false} TotalIsSumMoves(ms: seq<Movement>, k: Key)
    ensures Total(ms, k).quantity == SumMoves(ms, OnRow(k))
  {
    if ms == [] {
    } else {
      TotalIsSumMoves(ms[..|ms| - 1], k);
    }
  }

  // --- What a plan reads ----------------------------------------------------------------------

  /** A lot as the plan read it: an ordinary lot of its item, with this much at the location. */
  predicate ReadRight(lots: seq<Lot>, balances: Balances, location: LocationId, l: StockedLot) {
    && l.lot < |lots| && lots[l.lot].placeholder.None? && lots[l.lot].item == l.item
    && l.available == At(balances, Key(l.lot, location)).quantity > 0
  }

  /** The lots of one item, each once, all of those with stock, and the lot it came in last. */
  ghost predicate SoundFor(lots: seq<Lot>, balances: Balances, location: LocationId, read: Read, item: ItemId) {
    var of := OfItem(read.stocked, item);
    && DistinctLots(of)
    && (forall i :: 0 <= i < |of| ==> ReadRight(lots, balances, location, of[i]) && of[i].item == item)
    && (forall lot :: 0 <= lot < |lots| && Stocked(lots, balances, location, {item}, lot) ==>
          exists i :: 0 <= i < |of| && of[i].lot == lot)
    && (item in read.last ==> read.last[item].lot < |lots| && lots[read.last[item].lot].placeholder.None?
                              && lots[read.last[item].lot].item == item)
  }

  /** The lots of one item among those of several are those read for it alone. */
  lemma {:induction false} LotsOfItem(lots: seq<Lot>, balances: Balances, location: LocationId, items: set<ItemId>,
                                      numbers: Numbers, item: ItemId)
    requires item in items
    ensures OfItem(LotsAt(lots, balances, location, items, numbers), item)
        == LotsAt(lots, balances, location, {item}, numbers)
  {
    if lots == [] {
    } else {
      var lot := |lots| - 1;
      LotsOfItem(lots[..lot], balances, location, items, numbers, item);
      if Stocked(lots, balances, location, items, lot) {
        var read := LotsAt(lots, balances, location, items, numbers);
        assert read[..|read| - 1] == LotsAt(lots[..lot], balances, location, items, numbers);
      }
    }
  }

  lemma {:induction false} LotsAtRight(
      lots: seq<Lot>, balances: Balances, location: LocationId, item: ItemId, numbers: Numbers)
    ensures
      var of := LotsAt(lots, balances, location, {item}, numbers);
      && DistinctLots(of)
      && (forall i :: 0 <= i < |of| ==> ReadRight(lots, balances, location, of[i]) && of[i].item == item)
      && forall lot :: 0 <= lot < |lots| && Stocked(lots, balances, location, {item}, lot) ==>
           exists i :: 0 <= i < |of| && of[i].lot == lot
  {
    if lots == [] {
    } else {
      var last := |lots| - 1;
      LotsAtRight(lots[..last], balances, location, item, numbers);
      var before := LotsAt(lots[..last], balances, location, {item}, numbers);
      var of := LotsAt(lots, balances, location, {item}, numbers);
      forall lot | 0 <= lot < |lots| && Stocked(lots, balances, location, {item}, lot)
        ensures exists i :: 0 <= i < |of| && of[i].lot == lot
      {
        if lot == last {
          assert of[|of| - 1].lot == lot;
        } else {
          assert Stocked(lots[..last], balances, location, {item}, lot);
          var i :| 0 <= i < |before| && before[i].lot == lot;
          assert of[i].lot == lot;
        }
      }
    }
  }

  lemma {:induction false} ReadIsSound(
      s: Ledger, location: LocationId, lines: seq<Line>, numbers: Numbers, item: ItemId)
    requires EntriesOk(s) && item in Items(lines)
    ensures SoundFor(s.lots, s.balances, location, ReadAt(s.lots, s.balances, s.entries, location, lines, numbers),
        item)
  {
    LotsOfItem(s.lots, s.balances, location, Items(lines), numbers, item);
    LotsAtRight(s.lots, s.balances, location, item, numbers);
    var latest := LatestEntry(s.lots, s.entries, location, item);
    if latest.Some? {
      var i :| 0 <= i < |s.entries| && s.entries[i] == latest.value;
      assert EntryOk(s, s.entries[i]);
    }
  }

  // --- What one line's allocation takes -------------------------------------------------------

  lemma {:induction false} TakenIsPositive(picks: seq<BranchPick>, i: nat)
    requires i < |picks| && forall j :: 0 <= j < |picks| ==> picks[j].quantity > 0
    ensures TakenFrom(picks, picks[i].lot) > 0
  {
    TakenNotNegative(picks[1..], picks[i].lot);
    if i == 0 {
    } else {
      TakenIsPositive(picks[1..], i - 1);
    }
  }

  lemma {:induction false} TakenNotNegative(picks: seq<BranchPick>, lot: LotId)
    requires forall j :: 0 <= j < |picks| ==> picks[j].quantity > 0
    ensures TakenFrom(picks, lot) >= 0
  {
    if picks == [] {
    } else {
      TakenNotNegative(picks[1..], lot);
    }
  }

  /** Nothing is taken from a lot that is neither stocked nor the one received last. */
  lemma {:induction false} TakenOnlyFromRead(
      lots: seq<StockedLot>, quantity: nat, day: int, last: Option<LastReceived>, lot: LotId)
    requires forall i :: 0 <= i < |lots| ==> lots[i].lot != lot
    requires last.None? || last.value.lot != lot
    ensures TakenFrom(AllocateAtBranch(lots, quantity, day, last).picks, lot) == 0
  {
    AllocationFrom(lots, quantity, day, last, lot);
    NotStockedGivesNothing(lots, quantity, day, lot);
  }

  /** Every pick names an ordinary lot of the line's item. */
  lemma {:induction false} PicksAreNameable(
      lots: seq<Lot>, balances: Balances, location: LocationId, read: Read, line: Line, day: int)
    requires SoundFor(lots, balances, location, read, line.item)
    ensures AllNameable(lots, ChangesOfPicks(line, location, AllocationOf(read, line, day).picks))
  {
    var of := OfItem(read.stocked, line.item);
    var last := if line.item in read.last then Some(read.last[line.item]) else None;
    var picks := AllocationOf(read, line, day).picks;
    AllocationExact(of, line.quantity, day, last);
    forall i | 0 <= i < |picks| ensures Nameable(lots, Taking(line, location, picks[i])) {
      TakenIsPositive(picks, i);
      if forall j :: 0 <= j < |of| ==> of[j].lot != picks[i].lot {
        if last.None? || last.value.lot != picks[i].lot {
          TakenOnlyFromRead(of, line.quantity, day, last, picks[i].lot);
        }
      } else {
        var j :| 0 <= j < |of| && of[j].lot == picks[i].lot;
        assert ReadRight(lots, balances, location, of[j]);
      }
    }
  }

  lemma {:induction false} PicksSums(
      lots: seq<Lot>, line: Line, location: LocationId, picks: seq<BranchPick>, lineNo: nat, k: Key)
    requires AllNameable(lots, ChangesOfPicks(line, location, picks))
    ensures
      var ms := ChangeMoves(lots, ChangesOfPicks(line, location, picks));
      && SumMoves(ms, OnLine(lineNo)) == (if lineNo == line.lineNo then -TakenInAll(picks) else 0)
      && SumMoves(ms, OnRow(k)) == if k.location == location then -TakenFrom(picks, k.lot) else 0
  {
    if picks == [] {
    } else {
      var front, last := picks[..|picks| - 1], picks[|picks| - 1];
      assert picks == front + [last];
      var all := ChangesOfPicks(line, location, picks);
      assert ChangesOfPicks(line, location, front) == all[..|front|];
      assert forall i :: 0 <= i < |front| ==> Nameable(lots, all[i]);
      PicksSums(lots, line, location, front, lineNo, k);
      TakenLast(front, last, k.lot);
      assert ChangeMoves(lots, all)[..|front|] == ChangeMoves(lots, all[..|front|]);
    }
  }

  // --- What a whole plan takes ----------------------------------------------------------------

  ghost predicate Sound(lots: seq<Lot>, balances: Balances, location: LocationId, read: Read, lines: seq<Line>) {
    forall i :: 0 <= i < |lines| ==> SoundFor(lots, balances, location, read, lines[i].item)
  }

  /** The quantity asked for on one line. */
  function QuantityOn(lines: seq<Line>, lineNo: nat): nat {
    if lines == [] then 0
    else
      var last := lines[|lines| - 1];
      QuantityOn(lines[..|lines| - 1], lineNo) + if last.lineNo == lineNo then last.quantity else 0
  }

  function SentOn(uses: seq<PlaceholderUse>, lineNo: nat): int {
    if uses == [] then 0
    else SentOn(uses[..|uses| - 1], lineNo) + if uses[|uses| - 1].lineNo == lineNo then uses[|uses| - 1].quantity else 0
  }

  lemma {:induction false} ChangeMovesAppend(lots: seq<Lot>, a: seq<LotChange>, b: seq<LotChange>)
    requires AllNameable(lots, a) && AllNameable(lots, b)
    ensures AllNameable(lots, a + b)
    ensures ChangeMoves(lots, a + b) == ChangeMoves(lots, a) + ChangeMoves(lots, b)
  {}

  lemma {:induction false} PlanIsNameable(
    lots: seq<Lot>, balances: Balances, location: LocationId, read: Read, lines: seq<Line>, day: int)
    requires Sound(lots, balances, location, read, lines)
    ensures AllNameable(lots, PlanOf(read, lines, location, day).lotChanges)
  {
    if lines == [] {
    } else {
      PlanIsNameable(lots, balances, location, read, lines[..|lines| - 1], day);
      assert SoundFor(lots, balances, location, read, lines[|lines| - 1].item);
      PicksAreNameable(lots, balances, location, read, lines[|lines| - 1], day);
    }
  }

  predicate HasItem(lines: seq<Line>, item: ItemId) {
    exists i :: 0 <= i < |lines| && lines[i].item == item
  }

  /** Something of a line's item is sent to a placeholder. */
  predicate SendsFor(u: PlaceholderUse, lines: seq<Line>) {
    u.quantity > 0 && HasItem(lines, u.item)
  }

  /** Some of a line's item is taken from a lot at the location. */
  predicate ChangesFor(c: LotChange, location: LocationId, lines: seq<Line>) {
    c.amount.quantity < 0 && c.amount.pieces.None? && c.location == location && HasItem(lines, c.item)
  }

  lemma {:induction false} LineSendsSomething(read: Read, line: Line, location: LocationId, lines: seq<Line>, day: int)
    requires HasItem(lines, line.item)
    ensures var a := AllocationOf(read, line, day);
            && (forall u :: u in ToPlaceholder(line, location, a) ==> SendsFor(u, lines))
            && forall c :: c in ChangesOfPicks(line, location, a.picks) ==> ChangesFor(c, location, lines)
  {
    AllocationExact(OfItem(read.stocked, line.item), line.quantity, day,
                    if line.item in read.last then Some(read.last[line.item]) else None);
  }

  lemma {:induction false} PlanSendsSomething(read: Read, lines: seq<Line>, location: LocationId, day: int)
    ensures forall u :: u in PlanOf(read, lines, location, day).placeholders ==> SendsFor(u, lines)
    ensures forall c :: c in PlanOf(read, lines, location, day).lotChanges ==> ChangesFor(c, location, lines)
  {
    if lines == [] {
    } else {
      var front, line := lines[..|lines| - 1], lines[|lines| - 1];
      PlanSendsSomething(read, front, location, day);
      forall item | HasItem(front, item) ensures HasItem(lines, item) {
        var i :| 0 <= i < |front| && front[i].item == item;
        assert lines[i].item == item;
      }
      LineSendsSomething(read, line, location, lines, day);
    }
  }

  /** One more line adds its picks and, after them, what it sends to the placeholder. */
  lemma {:induction false} PlanSplits(
      lots: seq<Lot>, balances: Balances, location: LocationId, read: Read, lines: seq<Line>, day: int,
      w: Movement -> int)
    requires lines != [] && Sound(lots, balances, location, read, lines)
    ensures
      var line := lines[|lines| - 1];
      var before := PlanOf(read, lines[..|lines| - 1], location, day);
      var picked := ChangesOfPicks(line, location, AllocationOf(read, line, day).picks);
      var plan := PlanOf(read, lines, location, day);
      && AllNameable(lots, plan.lotChanges) && AllNameable(lots, before.lotChanges) && AllNameable(lots, picked)
      && SumMoves(ChangeMoves(lots, plan.lotChanges), w)
         == SumMoves(ChangeMoves(lots, before.lotChanges), w) + SumMoves(ChangeMoves(lots, picked), w)
      && plan.placeholders == before.placeholders + ToPlaceholder(line, location, AllocationOf(read, line, day))
  {
    var line := lines[|lines| - 1];
    var before := PlanOf(read, lines[..|lines| - 1], location, day);
    var picked := ChangesOfPicks(line, location, AllocationOf(read, line, day).picks);
    PlanIsNameable(lots, balances, location, read, lines[..|lines| - 1], day);
    assert SoundFor(lots, balances, location, read, line.item);
    PicksAreNameable(lots, balances, location, read, line, day);
    ChangeMovesAppend(lots, before.lotChanges, picked);
    SumMovesAppend(ChangeMoves(lots, before.lotChanges), ChangeMoves(lots, picked), w);
  }

  /** Lots and placeholder together give up what each line asks for. */
  lemma {:induction false} PlanOnLine(
    lots: seq<Lot>, balances: Balances, location: LocationId, read: Read, lines: seq<Line>, day: int, lineNo: nat)
    requires Sound(lots, balances, location, read, lines)
    ensures
      var plan := PlanOf(read, lines, location, day);
      && AllNameable(lots, plan.lotChanges)
      && SumMoves(ChangeMoves(lots, plan.lotChanges), OnLine(lineNo)) + QuantityOn(lines, lineNo)
         == SentOn(plan.placeholders, lineNo)
  {
    if lines == [] {
    } else {
      var line := lines[|lines| - 1];
      var a := AllocationOf(read, line, day);
      PlanOnLine(lots, balances, location, read, lines[..|lines| - 1], day, lineNo);
      PlanSplits(lots, balances, location, read, lines, day, OnLine(lineNo));
      PicksSums(lots, line, location, a.picks, lineNo, Key(0, location));
      AllocationExact(OfItem(read.stocked, line.item), line.quantity, day,
                      if line.item in read.last then Some(read.last[line.item]) else None);
      var uses := PlanOf(read, lines, location, day).placeholders;
      if a.toPlaceholder != 0 {
        assert uses[..|uses| - 1] == PlanOf(read, lines[..|lines| - 1], location, day).placeholders;
      }
    }
  }

  /** `TakenFrom` is 0 at every lot whose item is not the line's. */
  lemma {:induction false} PicksOfOtherItems(
    lots: seq<Lot>, balances: Balances, location: LocationId, read: Read, line: Line, day: int, lot: LotId)
    requires SoundFor(lots, balances, location, read, line.item)
    requires lot < |lots| && lots[lot].item != line.item
    ensures TakenFrom(AllocationOf(read, line, day).picks, lot) == 0
  {
    var of := OfItem(read.stocked, line.item);
    forall i | 0 <= i < |of| ensures of[i].lot != lot {
      assert ReadRight(lots, balances, location, of[i]);
    }
    TakenOnlyFromRead(of, line.quantity, day, if line.item in read.last then Some(read.last[line.item]) else None, lot);
  }

  /** One more line takes from a row what its picks do. */
  lemma {:induction false} PlanRowStep(
    lots: seq<Lot>, balances: Balances, location: LocationId, read: Read, lines: seq<Line>, day: int, lot: LotId)
    requires lines != [] && Sound(lots, balances, location, read, lines)
    ensures
      var front, line := lines[..|lines| - 1], lines[|lines| - 1];
      && AllNameable(lots, PlanOf(read, lines, location, day).lotChanges)
      && AllNameable(lots, PlanOf(read, front, location, day).lotChanges)
      && SumMoves(ChangeMoves(lots, PlanOf(read, lines, location, day).lotChanges), OnRow(Key(lot, location)))
         == SumMoves(ChangeMoves(lots, PlanOf(read, front, location, day).lotChanges), OnRow(Key(lot, location)))
            - TakenFrom(AllocationOf(read, line, day).picks, lot)
  {
    PlanSplits(lots, balances, location, read, lines, day, OnRow(Key(lot, location)));
    PicksSums(lots, lines[|lines| - 1], location, AllocationOf(read, lines[|lines| - 1], day).picks, 0,
        Key(lot, location));
  }

  /** A lot whose item is on no line is not touched. */
  lemma {:induction false} PlanOffRow(
    lots: seq<Lot>, balances: Balances, location: LocationId, read: Read, lines: seq<Line>, day: int, lot: LotId)
    requires Sound(lots, balances, location, read, lines) && lot < |lots|
    requires forall i :: 0 <= i < |lines| ==> lines[i].item != lots[lot].item
    ensures
      var plan := PlanOf(read, lines, location, day);
      AllNameable(lots, plan.lotChanges) && SumMoves(ChangeMoves(lots, plan.lotChanges), OnRow(Key(lot, location))) == 0
  {
    if lines == [] {
    } else {
      PlanOffRow(lots, balances, location, read, lines[..|lines| - 1], day, lot);
      PlanRowStep(lots, balances, location, read, lines, day, lot);
      PicksOfOtherItems(lots, balances, location, read, lines[|lines| - 1], day, lot);
    }
  }

  lemma {:induction false} FrontOk(
    lots: seq<Lot>, balances: Balances, location: LocationId, read: Read, lines: seq<Line>)
    requires lines != [] && Sound(lots, balances, location, read, lines) && LinesOk(lines)
    ensures Sound(lots, balances, location, read, lines[..|lines| - 1]) && LinesOk(lines[..|lines| - 1])
  {}

  /** A document's lines have distinct items, so one line alone takes from a lot. */
  lemma {:induction false} PlanOnRow(
    lots: seq<Lot>, balances: Balances, location: LocationId, read: Read, lines: seq<Line>, day: int, i: nat,
        lot: LotId)
    requires Sound(lots, balances, location, read, lines) && LinesOk(lines)
    requires i < |lines| && lot < |lots| && lines[i].item == lots[lot].item
    ensures
      var plan := PlanOf(read, lines, location, day);
      && AllNameable(lots, plan.lotChanges)
      && SumMoves(ChangeMoves(lots, plan.lotChanges), OnRow(Key(lot, location)))
         == -TakenFrom(AllocationOf(read, lines[i], day).picks, lot)
  {
    var front, line := lines[..|lines| - 1], lines[|lines| - 1];
    PlanRowStep(lots, balances, location, read, lines, day, lot);
    if i == |lines| - 1 {
      PlanOffRow(lots, balances, location, read, front, day, lot);
    } else {
      FrontOk(lots, balances, location, read, lines);
      PlanOnRow(lots, balances, location, read, front, day, i, lot);
      assert lines[i].item != line.item;
      PicksOfOtherItems(lots, balances, location, read, line, day, lot);
    }
  }

  lemma {:induction false} QuantityOnOnce(lines: seq<Line>, i: nat)
    requires LinesOk(lines) && i < |lines|
    ensures QuantityOn(lines, lines[i].lineNo) == lines[i].quantity
  {
    var front := lines[..|lines| - 1];
    if i < |front| {
      QuantityOnOnce(front, i);
    } else {
      QuantityOnNone(front, lines[i].lineNo);
    }
  }

  lemma {:induction false} QuantityOnNone(lines: seq<Line>, lineNo: nat)
    requires forall i :: 0 <= i < |lines| ==> lines[i].lineNo != lineNo
    ensures QuantityOn(lines, lineNo) == 0
  {
    if lines == [] {
    } else {
      QuantityOnNone(lines[..|lines| - 1], lineNo);
    }
  }

  // --- Placeholders ---------------------------------------------------------------------------

  lemma {:induction false} PlaceholderSums(lots: seq<Lot>, id: DocumentId, uses: seq<PlaceholderUse>, lineNo: nat)
    ensures SumMoves(PlaceholderMoves(lots, id, uses), OnLine(lineNo)) == -SentOn(uses, lineNo)
  {
    if uses == [] {
    } else {
      PlaceholderSums(lots, id, uses[..|uses| - 1], lineNo);
      var ms := PlaceholderMoves(lots, id, uses);
      assert ms[..|ms| - 1] == PlaceholderMoves(lots, id, uses[..|uses| - 1]);
    }
  }

  /** Lots are only added, all of them placeholders, and placeholders are all that these movements touch. */
  lemma {:induction false} OnlyPlaceholders(lots: seq<Lot>, id: DocumentId, uses: seq<PlaceholderUse>)
    ensures lots <= PlaceholderLots(lots, id, uses)
    ensures forall i :: |lots| <= i < |PlaceholderLots(lots, id, uses)| ==>
        PlaceholderLots(lots, id, uses)[i].placeholder.Some?
    ensures forall m :: m in PlaceholderMoves(lots, id, uses) ==>
              m.lot < |PlaceholderLots(lots, id, uses)| && PlaceholderLots(lots, id, uses)[m.lot].placeholder.Some?
    ensures forall m :: m in PlaceholderMoves(lots, id, uses) ==>
              && m.amount.pieces.None?
              && exists u :: u in uses && m.location == u.location && m.item == u.item
                                    && m.amount.quantity == -u.quantity
  {
    if uses == [] {
    } else {
      var front, last := uses[..|uses| - 1], uses[|uses| - 1];
      OnlyPlaceholders(lots, id, front);
      var before := PlaceholderLots(lots, id, front);
      assert before <= WithPlaceholder(before, id, last);
      assert last in uses && forall u :: u in front ==> u in uses;
    }
  }

  lemma {:induction false} SumMovesOff(ms: seq<Movement>, k: Key)
    requires forall m :: m in ms ==> m.Row() != k
    ensures SumMoves(ms, OnRow(k)) == 0
  {
    if ms == [] {
    } else {
      assert ms[|ms| - 1] in ms;
      SumMovesOff(ms[..|ms| - 1], k);
    }
  }

  // --- The plan and its posting as one step ---------------------------------------------------

  function PlanAt(s: Ledger, location: LocationId, lines: seq<Line>, day: int, numbers: Numbers): Planned {
    PlanOf(ReadAt(s.lots, s.balances, s.entries, location, lines, numbers), lines, location, day)
  }

  function PostingOf(planned: Planned): Plan {
    Consumption(planned.lotChanges, planned.placeholders)
  }

  lemma {:induction false} ReadsAreSound(s: Ledger, location: LocationId, lines: seq<Line>, numbers: Numbers)
    requires EntriesOk(s)
    ensures Sound(s.lots, s.balances, location, ReadAt(s.lots, s.balances, s.entries, location, lines, numbers), lines)
  {
    forall i | 0 <= i < |lines|
      ensures SoundFor(s.lots, s.balances, location, ReadAt(s.lots, s.balances, s.entries, location, lines, numbers),
          lines[i].item)
    {
      assert lines[i] in lines;
      ReadIsSound(s, location, lines, numbers, lines[i].item);
    }
  }

  /** A movement of a consumption: it takes some of a line's item at the location. */
  ghost predicate TakesFor(m: Movement, location: LocationId, lines: seq<Line>) {
    && m.location == location && m.amount.quantity < 0 && StorableMove(m)
    && HasItem(lines, m.item)
  }

  lemma {:induction false} ChangesTake(lots: seq<Lot>, read: Read, location: LocationId, lines: seq<Line>, day: int)
    requires LotsOk(lots) && AllNameable(lots, PlanOf(read, lines, location, day).lotChanges)
    ensures forall m :: m in ChangeMoves(lots, PlanOf(read, lines, location, day).lotChanges) ==>
        TakesFor(m, location, lines)
  {
    var changes := PlanOf(read, lines, location, day).lotChanges;
    PlanSendsSomething(read, lines, location, day);
    forall i | 0 <= i < |changes| ensures TakesFor(ChangeMoves(lots, changes)[i], location, lines) {
      assert changes[i] in changes && Nameable(lots, changes[i]) && ChangesFor(changes[i], location, lines);
    }
  }

  lemma {:induction false} UsesTake(
      lots: seq<Lot>, id: DocumentId, read: Read, location: LocationId, lines: seq<Line>, day: int)
    requires LotsOk(lots)
    ensures forall m :: m in PlaceholderMoves(lots, id, PlanOf(read, lines, location, day).placeholders) ==>
              TakesFor(m, location, lines)
  {
    var uses := PlanOf(read, lines, location, day).placeholders;
    PlanSendsSomething(read, lines, location, day);
    UsesAt(read, lines, location, day);
    OnlyPlaceholders(lots, id, uses);
    forall u | u in uses ensures u.quantity > 0 {
      assert SendsFor(u, lines);
    }
    PlaceholdersOk(lots, id, uses);
    forall m | m in PlaceholderMoves(lots, id, uses) ensures TakesFor(m, location, lines) {
      assert Fits(PlaceholderLots(lots, id, uses), m);
      var u :| u in uses && m.location == u.location && m.item == u.item && m.amount.quantity == -u.quantity;
      assert SendsFor(u, lines);
    }
  }

  lemma {:induction false} SortedAmong(a: seq<Movement>, b: seq<Movement>, m: Movement)
    requires m in SortByLine(a + b)
    ensures m in a || m in b
  {
    SortKeeps(a + b);
    assert m in multiset(SortByLine(a + b));
  }

  /** The movements of a consumption's posting, at the location it was made for. */
  lemma {:induction false} PlanPrepares(
      s: Ledger, id: DocumentId, location: LocationId, lines: seq<Line>, day: int, numbers: Numbers)
    requires EntriesOk(s) && LotsOk(s.lots)
    ensures
      var plan := PostingOf(PlanAt(s, location, lines, day, numbers));
      && Proper(plan) && Prepare(s.lots, id, plan).Success?
      && forall m :: m in Prepare(s.lots, id, plan).value.moves ==> TakesFor(m, location, lines)
  {
    var read := ReadAt(s.lots, s.balances, s.entries, location, lines, numbers);
    var planned := PlanOf(read, lines, location, day);
    ReadsAreSound(s, location, lines, numbers);
    PlanIsNameable(s.lots, s.balances, location, read, lines, day);
    PlanSendsSomething(read, lines, location, day);
    PreparedMoves(s.lots, id, planned.lotChanges, planned.placeholders);
    ChangesTake(s.lots, read, location, lines, day);
    UsesTake(s.lots, id, read, location, lines, day);
    var changed, sent := ChangeMoves(s.lots, planned.lotChanges), PlaceholderMoves(s.lots, id, planned.placeholders);
    forall m | m in SortByLine(changed + sent) ensures TakesFor(m, location, lines) {
      SortedAmong(changed, sent, m);
    }
  }

  lemma {:induction false} UsesAt(read: Read, lines: seq<Line>, location: LocationId, day: int)
    ensures forall u :: u in PlanOf(read, lines, location, day).placeholders ==> u.location == location
  {
    if lines == [] {
    } else {
      UsesAt(read, lines[..|lines| - 1], location, day);
    }
  }

  /**
   * A sale is never refused for want of stock: whatever the branch holds, the plan made from it
   * can be posted.
   */
  lemma {:induction false} ConsumptionPosts(
    sites: Sites, steps: seq<Step>, id: DocumentId, revision: nat, time: Option<Instant>,
    location: LocationId, lines: seq<Line>, numbers: Numbers)
    requires ProperSteps(steps) && sites(location) == Branch
    requires
      var s := Run(sites, steps);
      && id < |s.documents| && s.documents[id].status == Draft && s.documents[id].revision == revision
      && s.documents[id].day <= s.today && (time.Some? ==> time.value.day == s.documents[id].day)
    ensures
      var s := Run(sites, steps);
      Post(sites, s, id, revision, Draft, time,
          PostingOf(PlanAt(s, location, lines, s.documents[id].day, numbers))).Success?
  {
    Reachable(sites, steps);
    var s := Run(sites, steps);
    var plan := PostingOf(PlanAt(s, location, lines, s.documents[id].day, numbers));
    PlanPrepares(s, id, location, lines, s.documents[id].day, numbers);
    assert Offending(sites, s.balances, Prepare(s.lots, id, plan).value.moves) == {};
    assert LinksOf(id, Prepare(s.lots, id, plan).value.created, GenealogyOf(plan)).Success?;
  }

  lemma {:induction false} PreparedMoves(
      lots: seq<Lot>, id: DocumentId, changes: seq<LotChange>, uses: seq<PlaceholderUse>)
    requires AllNameable(lots, changes)
    ensures Prepare(lots, id, Consumption(changes, uses))
         == Success(Prepared(PlaceholderLots(lots, id, uses),
                             SortByLine(ChangeMoves(lots, changes) + PlaceholderMoves(lots, id, uses)), []))
  {}

  lemma {:induction false} SumMovesMerged(a: seq<Movement>, b: seq<Movement>, w: Movement -> int)
    ensures SumMoves(SortByLine(a + b), w) == SumMoves(a, w) + SumMoves(b, w)
  {
    SumMovesAppend(a, b, w);
    SumMovesSort(a + b, w);
  }

  lemma {:induction false} PreparedOnLine(s: Ledger, id: DocumentId, planned: Planned, lineNo: nat)
    requires AllNameable(s.lots, planned.lotChanges)
    ensures SumMoves(Prepare(s.lots, id, PostingOf(planned)).value.moves, OnLine(lineNo))
         == SumMoves(ChangeMoves(s.lots, planned.lotChanges), OnLine(lineNo)) - SentOn(planned.placeholders, lineNo)
  {
    var changed := ChangeMoves(s.lots, planned.lotChanges);
    var sent := PlaceholderMoves(s.lots, id, planned.placeholders);
    PlaceholderSums(s.lots, id, planned.placeholders, lineNo);
    PreparedMoves(s.lots, id, planned.lotChanges, planned.placeholders);
    SumMovesMerged(changed, sent, OnLine(lineNo));
  }

  /** The entries of each line take its quantity from the stock, no more and no less. */
  lemma {:induction false} ConsumptionIsExact(
    s: Ledger, id: DocumentId, location: LocationId, lines: seq<Line>, day: int, numbers: Numbers, i: nat)
    requires EntriesOk(s) && LotsOk(s.lots) && LinesOk(lines) && i < |lines|
    ensures
      var prepared := Prepare(s.lots, id, PostingOf(PlanAt(s, location, lines, day, numbers)));
      prepared.Success? && SumMoves(prepared.value.moves, OnLine(lines[i].lineNo)) + lines[i].quantity == 0
  {
    var read := ReadAt(s.lots, s.balances, s.entries, location, lines, numbers);
    PlanPrepares(s, id, location, lines, day, numbers);
    ReadsAreSound(s, location, lines, numbers);
    PlanOnLine(s.lots, s.balances, location, read, lines, day, lines[i].lineNo);
    PreparedOnLine(s, id, PlanOf(read, lines, location, day), lines[i].lineNo);
    QuantityOnOnce(lines, i);
  }

  /** What a posting takes from an ordinary lot comes out of it through the plan's lot changes alone. */
  lemma {:induction false} OrdinaryRow(s: Ledger, id: DocumentId, planned: Planned, k: Key)
    requires k.lot < |s.lots| && s.lots[k.lot].placeholder.None?
    requires AllNameable(s.lots, planned.lotChanges)
    ensures Total(Prepare(s.lots, id, PostingOf(planned)).value.moves, k).quantity
         == SumMoves(ChangeMoves(s.lots, planned.lotChanges), OnRow(k))
  {
    var changed := ChangeMoves(s.lots, planned.lotChanges);
    var sent := PlaceholderMoves(s.lots, id, planned.placeholders);
    OnlyPlaceholders(s.lots, id, planned.placeholders);
    SumMovesOff(sent, k);
    PreparedMoves(s.lots, id, planned.lotChanges, planned.placeholders);
    SumMovesMerged(changed, sent, OnRow(k));
    TotalIsSumMoves(SortByLine(changed + sent), k);
  }

  /**
   * Of the lots at the branch only the one an item was received in last, or its placeholder, can
   * be taken below zero: any other gives up nothing it does not have.
   */
  lemma {:induction false} OnlyLastReceivedGoesBelowZero(
    s: Ledger, id: DocumentId, location: LocationId, lines: seq<Line>, day: int, numbers: Numbers, lot: LotId)
    requires EntriesOk(s) && LotsOk(s.lots) && LinesOk(lines)
    requires
      && lot < |s.lots| && s.lots[lot].placeholder.None?
      && var last := LastReceivedAt(s.lots, s.entries, location, s.lots[lot].item);
         last.None? || last.value.lot != lot
    ensures
      var prepared := Prepare(s.lots, id, PostingOf(PlanAt(s, location, lines, day, numbers)));
      var had := At(s.balances, Key(lot, location)).quantity;
      prepared.Success? && 0 <= -Total(prepared.value.moves, Key(lot, location)).quantity <= if had > 0 then had else 0
  {
    var read := ReadAt(s.lots, s.balances, s.entries, location, lines, numbers);
    PlanPrepares(s, id, location, lines, day, numbers);
    ReadsAreSound(s, location, lines, numbers);
    PlanIsNameable(s.lots, s.balances, location, read, lines, day);
    OrdinaryRow(s, id, PlanOf(read, lines, location, day), Key(lot, location));
    if i :| 0 <= i < |lines| && lines[i].item == s.lots[lot].item {
      PlanOnRow(s.lots, s.balances, location, read, lines, day, i, lot);
      var of := OfItem(read.stocked, lines[i].item);
      var last := if lines[i].item in read.last then Some(read.last[lines[i].item]) else None;
      assert SoundFor(s.lots, s.balances, location, read, lines[i].item);
      if j :| 0 <= j < |of| && of[j].lot == lot {
        OthersKeepTheirStock(of, lines[i].quantity, day, last, j);
        assert ReadRight(s.lots, s.balances, location, of[j]);
      } else {
        TakenOnlyFromRead(of, lines[i].quantity, day, last, lot);
      }
    } else {
      PlanOffRow(s.lots, s.balances, location, read, lines, day, lot);
    }
  }

  // --- What a consumption is flagged with -----------------------------------------------------

  lemma {:induction false} PlainHasNoFlags(picks: seq<Pick>)
    ensures !AnyShortfall(Plain(picks)) && !AnyExpired(Plain(picks))
  {
    if picks == [] {
    } else {
      assert Plain(picks)[..|picks| - 1] == Plain(picks[..|picks| - 1]);
      PlainHasNoFlags(picks[..|picks| - 1]);
    }
  }

  lemma {:induction false} FlagChanged(picks: seq<BranchPick>, at: nat, p: BranchPick)
    requires at < |picks| && !AnyShortfall(picks) && !AnyExpired(picks)
    ensures AnyShortfall(picks[at := p]) == p.shortfall && AnyExpired(picks[at := p]) == p.expired
  {
    var front := picks[..|picks| - 1];
    if at < |front| {
      FlagChanged(front, at, p);
      assert picks[at := p][..|picks| - 1] == front[at := p];
    } else {
      assert picks[at := p][..|picks| - 1] == front;
    }
  }

  /** What usable stock cannot cover of a line. */
  predicate Short(read: Read, line: Line, day: int) {
    line.quantity > UsableStock(OfItem(read.stocked, line.item), day)
  }

  predicate ShortOnExpired(read: Read, line: Line, day: int) {
    Short(read, line, day) && line.item in read.last && IsExpired(read.last[line.item].expiry, day)
  }

  lemma {:induction false} AllocationFlags(read: Read, line: Line, day: int)
    ensures
      var a := AllocationOf(read, line, day);
      && (a.toPlaceholder != 0 <==> Short(read, line, day) && line.item !in read.last)
      && (AnyShortfall(a.picks) <==> Short(read, line, day) && line.item in read.last)
      && (AnyExpired(a.picks) <==> ShortOnExpired(read, line, day))
  {
    var lots := OfItem(read.stocked, line.item);
    var fefo := TakeInOrder(FefoOrder(lots), line.quantity, day);
    TakeInOrderExact(FefoOrder(lots), line.quantity, day);
    UsableOrdered(lots, day);
    PlainHasNoFlags(fefo.picks);
    if fefo.shortBy > 0 && line.item in read.last {
      var picks, last := Plain(fefo.picks), read.last[line.item];
      var already := Find(picks, last.lot);
      var pick := BranchPick(last.lot, fefo.shortBy, true, IsExpired(last.expiry, day));
      if already.Some? {
        FlagChanged(picks, already.value, pick.(quantity := picks[already.value].quantity + fefo.shortBy));
      } else {
        assert (picks + [pick])[..|picks|] == picks;
      }
    }
  }

  /** A consumption is flagged short exactly when usable stock could not cover a line of it, and so on. */
  lemma {:induction false} FlagsMean(read: Read, lines: seq<Line>, location: LocationId, day: int)
    ensures
      var planned := PlanOf(read, lines, location, day);
      && (planned.shortfall <==> exists i :: 0 <= i < |lines| && Short(read, lines[i], day))
      && (planned.consumedExpiredLot <==> exists i :: 0 <= i < |lines| && ShortOnExpired(read, lines[i], day))
      && (planned.placeholder <==> planned.placeholders != [])
      && (planned.placeholder <==>
            exists i :: 0 <= i < |lines| && Short(read, lines[i], day) && lines[i].item !in read.last)
  {
    if lines == [] {
    } else {
      var front, last := lines[..|lines| - 1], lines[|lines| - 1];
      FlagsMean(read, front, location, day);
      AllocationFlags(read, last, day);
      assert lines == front + [last];
    }
  }

  // --- Balances read once ---------------------------------------------------------------------

  /** An item's lots read the same when none of its rows moved and only placeholders were added. */
  lemma {:induction false} LotsAtStay(
    lots: seq<Lot>, more: seq<Lot>, balances: Balances, after: Balances, location: LocationId, item: ItemId,
        numbers: Numbers)
    requires lots <= more && forall i :: |lots| <= i < |more| ==> more[i].placeholder.Some?
    requires forall lot :: 0 <= lot < |lots| && lots[lot].item == item && lots[lot].placeholder.None? ==>
               At(after, Key(lot, location)).quantity == At(balances, Key(lot, location)).quantity
    ensures LotsAt(more, after, location, {item}, numbers) == LotsAt(lots, balances, location, {item}, numbers)
  {
    if |more| > |lots| {
      assert more[..|more| - 1][|lots|..] == more[|lots|..|more| - 1];
      LotsAtStay(lots, more[..|more| - 1], balances, after, location, item, numbers);
    } else if lots != [] {
      assert more == lots;
      var last := |lots| - 1;
      LotsAtStay(lots[..last], lots[..last], balances, after, location, item, numbers);
      assert Stocked(lots, balances, location, {item}, last) <==> Stocked(lots, after, location, {item}, last);
    }
  }

  /** Taking stock does not change which lot came in last. */
  lemma {:induction false} LatestStays(
      lots: seq<Lot>, more: seq<Lot>, entries: seq<Entry>, location: LocationId, item: ItemId)
    requires lots <= more && forall i :: 0 <= i < |entries| ==> entries[i].move.lot < |lots|
    ensures LatestEntry(more, entries, location, item) == LatestEntry(lots, entries, location, item)
  {
    if entries == [] {
    } else {
      LatestStays(lots, more, entries[..|entries| - 1], location, item);
    }
  }

  lemma {:induction false} LatestIgnoresTaking(
    lots: seq<Lot>, entries: seq<Entry>, taking: seq<Entry>, location: LocationId, item: ItemId)
    requires forall i :: 0 <= i < |taking| ==> taking[i].move.amount.quantity < 0
    ensures LatestEntry(lots, entries + taking, location, item) == LatestEntry(lots, entries, location, item)
  {
    if taking == [] {
      assert entries + taking == entries;
    } else {
      assert (entries + taking)[..|entries + taking| - 1] == entries + taking[..|taking| - 1];
      LatestIgnoresTaking(lots, entries, taking[..|taking| - 1], location, item);
    }
  }

  /** The ledger with part of a plan already taken out of the stock. */
  function Taken(s: Ledger, id: DocumentId, at: Instant, planned: Planned): Ledger {
    var p := Prepare(s.lots, id, PostingOf(planned));
    if p.Failure? then s
    else s.(lots := p.value.lots, entries := s.entries + Stamp(id, at, p.value.moves),
            balances := Upsert(s.balances, Net(p.value.moves)))
  }

  /** A plan that reads the balances again before every line, with the lines before it taken. */
  function PlanReread(
      s: Ledger, id: DocumentId, at: Instant, location: LocationId, lines: seq<Line>, numbers: Numbers): Planned {
    if lines == [] then NOTHING_PLANNED
    else
      var line := lines[|lines| - 1];
      var before := PlanReread(s, id, at, location, lines[..|lines| - 1], numbers);
      var t := Taken(s, id, at, before);
      WithLine(before, line, location,
          AllocationOf(ReadAt(t.lots, t.balances, t.entries, location, [line], numbers), line, at.day))
  }

  /** Rows of items no movement was about read as before. */
  lemma {:induction false} RowsStay(lots: seq<Lot>, balances: Balances, moves: seq<Movement>, k: Key)
    requires forall m :: m in moves ==> m.lot < |lots| && lots[m.lot].item == m.item
    requires k.lot < |lots| && forall m :: m in moves ==> m.item != lots[k.lot].item
    ensures At(Upsert(balances, Net(moves)), k) == At(balances, k)
  {
    TotalUntouched(moves, k);
  }

  lemma {:induction false} LastReceivedStays(
      s: Ledger, t: Ledger, taking: seq<Entry>, location: LocationId, item: ItemId)
    requires s.lots <= t.lots && t.entries == s.entries + taking
    requires forall i :: 0 <= i < |s.entries| ==> s.entries[i].move.lot < |s.lots|
    requires forall i :: 0 <= i < |taking| ==> taking[i].move.amount.quantity < 0
    ensures LastReceivedAt(t.lots, t.entries, location, item) == LastReceivedAt(s.lots, s.entries, location, item)
  {
    LatestIgnoresTaking(t.lots, s.entries, taking, location, item);
    LatestStays(s.lots, t.lots, s.entries, location, item);
  }

  /** What a line is given depends only on its item's lots with stock and the one received last. */
  lemma {:induction false} AllocationDependsOn(
    s: Ledger, t: Ledger, location: LocationId, lines: seq<Line>, more: seq<Line>, numbers: Numbers, line: Line,
        day: int)
    requires line in lines && line in more
    requires LotsAt(t.lots, t.balances, location, {line.item}, numbers)
        == LotsAt(s.lots, s.balances, location, {line.item}, numbers)
    requires LastReceivedAt(t.lots, t.entries, location, line.item)
        == LastReceivedAt(s.lots, s.entries, location, line.item)
    ensures AllocationOf(ReadAt(t.lots, t.balances, t.entries, location, lines, numbers), line, day)
         == AllocationOf(ReadAt(s.lots, s.balances, s.entries, location, more, numbers), line, day)
  {
    LotsOfItem(t.lots, t.balances, location, Items(lines), numbers, line.item);
    LotsOfItem(s.lots, s.balances, location, Items(more), numbers, line.item);
  }

  /** Taking some items' stock leaves what a plan reads of another item as it was. */
  lemma {:induction false} OtherItemsRead(
    s: Ledger, id: DocumentId, at: Instant, location: LocationId, lines: seq<Line>, numbers: Numbers, item: ItemId)
    requires EntriesOk(s) && LotsOk(s.lots)
    requires forall l :: l in lines ==> l.item != item
    ensures
      var t := Taken(s, id, at, PlanAt(s, location, lines, at.day, numbers));
      && LotsAt(t.lots, t.balances, location, {item}, numbers) == LotsAt(s.lots, s.balances, location, {item}, numbers)
      && LastReceivedAt(t.lots, t.entries, location, item) == LastReceivedAt(s.lots, s.entries, location, item)
  {
    var planned := PlanAt(s, location, lines, at.day, numbers);
    PlanPrepares(s, id, location, lines, at.day, numbers);
    var p := Prepare(s.lots, id, PostingOf(planned)).value;
    var t := Taken(s, id, at, planned);
    PrepareOk(s.lots, id, PostingOf(planned));
    OnlyPlaceholders(s.lots, id, planned.placeholders);
    forall m | m in p.moves ensures m.lot < |p.lots| && p.lots[m.lot].item == m.item && m.item != item {
      assert Fits(p.lots, m);
    }
    forall lot | 0 <= lot < |s.lots| && s.lots[lot].item == item
      ensures At(t.balances, Key(lot, location)) == At(s.balances, Key(lot, location))
    {
      assert p.lots[lot] == s.lots[lot];
      RowsStay(p.lots, s.balances, p.moves, Key(lot, location));
    }
    forall j | 0 <= j < |s.entries| ensures s.entries[j].move.lot < |s.lots| {
      assert EntryOk(s, s.entries[j]);
    }
    forall j | 0 <= j < |p.moves| ensures p.moves[j].amount.quantity < 0 {
      assert p.moves[j] in p.moves;
    }
    LotsAtStay(s.lots, t.lots, s.balances, t.balances, location, item, numbers);
    LastReceivedStays(s, t, Stamp(id, at, p.moves), location, item);
  }

  /** What is read for the items of more lines than these plans these the same. */
  lemma {:induction false} ReadForMore(
      s: Ledger, location: LocationId, lines: seq<Line>, more: seq<Line>, day: int, numbers: Numbers)
    requires forall l :: l in lines ==> l in more
    ensures PlanOf(ReadAt(s.lots, s.balances, s.entries, location, more, numbers), lines, location, day)
         == PlanAt(s, location, lines, day, numbers)
  {
    if lines == [] {
    } else {
      var front, line := lines[..|lines| - 1], lines[|lines| - 1];
      assert line in lines && forall l :: l in front ==> l in lines;
      ReadForMore(s, location, front, more, day, numbers);
      ReadForMore(s, location, front, lines, day, numbers);
      AllocationDependsOn(s, s, location, lines, more, numbers, line, day);
    }
  }

  /** Balances read once stay right for every line, because a document's lines have distinct items. */
  lemma {:induction false} BalancesReadOnce(
    s: Ledger, id: DocumentId, at: Instant, location: LocationId, lines: seq<Line>, numbers: Numbers)
    requires EntriesOk(s) && LotsOk(s.lots) && LinesOk(lines)
    ensures PlanReread(s, id, at, location, lines, numbers) == PlanAt(s, location, lines, at.day, numbers)
  {
    if lines == [] {
    } else {
      var front, line := lines[..|lines| - 1], lines[|lines| - 1];
      BalancesReadOnce(s, id, at, location, front, numbers);
      ReadForMore(s, location, front, lines, at.day, numbers);
      OtherItemsRead(s, id, at, location, front, numbers, line.item);
      var t := Taken(s, id, at, PlanAt(s, location, front, at.day, numbers));
      AllocationDependsOn(s, t, location, [line], lines, numbers, line, at.day);
    }
  }
}
