/**
 * The plan of a branch consumption (branch-consumption.service.ts `plan`), made from what one reading
 * of the ledger's tables returns. Plan and posting are taken as one step on those tables: that
 * nothing changes them in between is an assumption here.
 */
module ConsumptionPlan {
  import opened Options
  import opened PostingRules
  import opened Ledger
  import opened LedgerInvariant
  import opened BranchAllocation

  /** One ingredient of a sale. */
  datatype Line = Line(lineNo: nat, item: ItemId, quantity: nat)

  /** Lines of a consumption as the database keeps them: one per number, one per item, above zero. */
  predicate LinesOk(lines: seq<Line>) {
    && (forall i :: 0 <= i < |lines| ==> lines[i].quantity > 0)
    && forall i, j :: 0 <= i < j < |lines| ==> lines[i].lineNo != lines[j].lineNo && lines[i].item != lines[j].item
  }

  /** The printed number of each lot. */
  type Numbers = LotId -> LotNumber

  predicate Stocked(lots: seq<Lot>, balances: Balances, location: LocationId, items: set<ItemId>, lot: LotId)
    requires lot < |lots|
  {
    && lots[lot].item in items && lots[lot].placeholder.None?
    && Key(lot, location) in balances && balances[Key(lot, location)].quantity > 0
  }

  /** Every lot that is `Stocked`, in the order the lots were created. */
  function LotsAt(
      lots: seq<Lot>, balances: Balances, location: LocationId, items: set<ItemId>, numbers: Numbers): seq<StockedLot> {
    if lots == [] then []
    else
      var lot := |lots| - 1;
      var before := LotsAt(lots[..lot], balances, location, items, numbers);
      if Stocked(lots, balances, location, items, lot)
      then before + [StockedLot(lot, numbers(lot), lots[lot].item,
                                if lots[lot].expiry.Some? then lots[lot].expiry.value else 0,
                                balances[Key(lot, location)].quantity)]
      else before
  }

  /** An entry that brought the item in: not a reversal's, and not a placeholder's. */
  predicate BroughtIn(lots: seq<Lot>, e: Entry, location: LocationId, item: ItemId) {
    && e.move.location == location && e.move.item == item
    && e.move.amount.quantity > 0 && e.move.reverses.None?
    && e.move.lot < |lots| && lots[e.move.lot].placeholder.None?
  }

  /** The latest entry bringing the item in, by business time and then by posting order. */
  function LatestEntry(lots: seq<Lot>, entries: seq<Entry>, location: LocationId, item: ItemId): (r: Option<Entry>)
    ensures r.Some? ==> r.value in entries && BroughtIn(lots, r.value, location, item)
    ensures r.Some? ==> forall e :: e in entries && BroughtIn(lots, e, location, item) ==>
        !Earlier(r.value.time, e.time)
    ensures r.None? ==> forall e :: e in entries ==> !BroughtIn(lots, e, location, item)
  {
    if entries == [] then None
    else
      var last := entries[|entries| - 1];
      assert entries == entries[..|entries| - 1] + [last];
      var before := LatestEntry(lots, entries[..|entries| - 1], location, item);
      if BroughtIn(lots, last, location, item) && (before.None? || !Earlier(last.time, before.value.time))
      then Some(last)
      else before
  }

  function LastReceivedAt(
      lots: seq<Lot>, entries: seq<Entry>, location: LocationId, item: ItemId): Option<LastReceived> {
    var latest := LatestEntry(lots, entries, location, item);
    if latest.None? then None
    else
      var lot := latest.value.move.lot;
      Some(LastReceived(lot, if lots[lot].expiry.Some? then lots[lot].expiry.value else 0))
  }

  function OfItem(stocked: seq<StockedLot>, item: ItemId): seq<StockedLot> {
    if stocked == [] then []
    else
      var before := OfItem(stocked[..|stocked| - 1], item);
      if stocked[|stocked| - 1].item == item then before + [stocked[|stocked| - 1]] else before
  }

  /** What a plan reads once, before its first line. */
  datatype Read = Read(stocked: seq<StockedLot>, last: map<ItemId, LastReceived>)

  function Items(lines: seq<Line>): set<ItemId> {
    set line | line in lines :: line.item
  }

  function ReadAt(
      lots: seq<Lot>, balances: Balances, entries: seq<Entry>, location: LocationId, lines: seq<Line>, numbers: Numbers)
      : Read {
    Read(LotsAt(lots, balances, location, Items(lines), numbers),
         map item | item in Items(lines) && LastReceivedAt(lots, entries, location, item).Some?
           :: LastReceivedAt(lots, entries, location, item).value)
  }

  function AllocationOf(read: Read, line: Line, day: int): Allocation {
    AllocateAtBranch(OfItem(read.stocked, line.item), line.quantity, day,
                     if line.item in read.last then Some(read.last[line.item]) else None)
  }

  function Taking(line: Line, location: LocationId, pick: BranchPick): LotChange {
    LotChange(line.lineNo, pick.lot, line.item, location, Amount(-pick.quantity, None))
  }

  function ChangesOfPicks(line: Line, location: LocationId, picks: seq<BranchPick>): seq<LotChange> {
    seq(|picks|, i requires 0 <= i < |picks| => Taking(line, location, picks[i]))
  }

  function ToPlaceholder(line: Line, location: LocationId, a: Allocation): seq<PlaceholderUse> {
    if a.toPlaceholder == 0 then [] else [PlaceholderUse(line.lineNo, line.item, location, a.toPlaceholder)]
  }

  /** A plan, with what the document is flagged with. */
  datatype Planned = Planned(
    lotChanges: seq<LotChange>, placeholders: seq<PlaceholderUse>,
    shortfall: bool, consumedExpiredLot: bool, placeholder: bool)

  predicate AnyShortfall(picks: seq<BranchPick>) {
    picks != [] && (AnyShortfall(picks[..|picks| - 1]) || picks[|picks| - 1].shortfall)
  }

  predicate AnyExpired(picks: seq<BranchPick>) {
    picks != [] && (AnyExpired(picks[..|picks| - 1]) || picks[|picks| - 1].expired)
  }

  function WithPicks(before: Planned, line: Line, location: LocationId, picks: seq<BranchPick>): Planned {
    before.(lotChanges := before.lotChanges + ChangesOfPicks(line, location, picks),
            shortfall := before.shortfall || AnyShortfall(picks),
            consumedExpiredLot := before.consumedExpiredLot || AnyExpired(picks))
  }

  function WithLine(before: Planned, line: Line, location: LocationId, a: Allocation): Planned {
    var picked := WithPicks(before, line, location, a.picks);
    if a.toPlaceholder == 0 then picked
    else
      picked.(placeholders := picked.placeholders + ToPlaceholder(line, location, a),
              shortfall := true, placeholder := true)
  }

  const NOTHING_PLANNED := Planned([], [], false, false, false)

  function PlanOf(read: Read, lines: seq<Line>, location: LocationId, day: int): Planned {
    if lines == [] then NOTHING_PLANNED
    else
      var line := lines[|lines| - 1];
      WithLine(PlanOf(read, lines[..|lines| - 1], location, day), line, location, AllocationOf(read, line, day))
  }

  method AddPicks(before: Planned, line: Line, location: LocationId, picks: seq<BranchPick>) returns (r: Planned)
    ensures r == WithPicks(before, line, location, picks)
  {
    r := before;
    for j := 0 to |picks|
      invariant r == WithPicks(before, line, location, picks[..j])
    {
      assert picks[..j + 1][..j] == picks[..j];
      assert ChangesOfPicks(line, location, picks[..j + 1])
          == ChangesOfPicks(line, location, picks[..j]) + [Taking(line, location, picks[j])];
      r := r.(lotChanges := r.lotChanges + [Taking(line, location, picks[j])],
              shortfall := r.shortfall || picks[j].shortfall,
              consumedExpiredLot := r.consumedExpiredLot || picks[j].expired);
    }
    assert picks[..|picks|] == picks;
  }

  method Plan(read: Read, lines: seq<Line>, location: LocationId, day: int) returns (r: Planned)
    ensures r == PlanOf(read, lines, location, day)
  {
    r := NOTHING_PLANNED;
    for i := 0 to |lines|
      invariant r == PlanOf(read, lines[..i], location, day)
    {
      assert lines[..i + 1][..i] == lines[..i];
      var a := AllocationOf(read, lines[i], day);
      r := AddPicks(r, lines[i], location, a.picks);
      if a.toPlaceholder != 0 {
        r := r.(placeholders := r.placeholders + ToPlaceholder(lines[i], location, a),
                shortfall := true, placeholder := true);
      }
    }
    assert lines[..|lines|] == lines;
  }
}
