/**
 * `AllocateAtBranch` and the FEFO pick under it (consumption-rules.ts, fefo.ts): how much of a
 * quantity comes out of each lot, and how much is left for a placeholder.
 */
module BranchAllocation {
  import opened Options
  import opened Arithmetic
  import opened PostingRules

  /** A lot's printed number, taken apart so that `NumberBefore` can compare it. */
  datatype LotNumber = LotNumber(document: nat, line: nat)

  datatype StockedLot = StockedLot(lot: LotId, number: LotNumber, item: ItemId, expiry: int, available: int)

  datatype Pick = Pick(lot: LotId, quantity: int)

  /** The picks of `TakeInOrder`, and the rest of the quantity it could not place. */
  datatype FefoResult = FefoResult(picks: seq<Pick>, shortBy: nat)

  predicate IsExpired(expiry: int, day: int) {
    expiry < day
  }

  /** A lot FEFO may take from on that day. */
  predicate Usable(lot: StockedLot, day: int) {
    !IsExpired(lot.expiry, day) && lot.available > 0
  }

  predicate NumberBefore(a: LotNumber, b: LotNumber) {
    a.document < b.document || (a.document == b.document && a.line < b.line)
  }

  /** The order `FefoOrder` sorts by: `expiry`, with ties broken by `NumberBefore`. */
  predicate FefoBefore(a: StockedLot, b: StockedLot) {
    a.expiry < b.expiry || (a.expiry == b.expiry && NumberBefore(a.number, b.number))
  }

  /** A stable sort: a lot goes after those it does not come before. */
  function InsertLot(sorted: seq<StockedLot>, lot: StockedLot): seq<StockedLot> {
    if sorted == [] || !FefoBefore(lot, sorted[|sorted| - 1]) then sorted + [lot]
    else InsertLot(sorted[..|sorted| - 1], lot) + [sorted[|sorted| - 1]]
  }

  function FefoOrder(lots: seq<StockedLot>): seq<StockedLot> {
    if lots == [] then [] else InsertLot(FefoOrder(lots[..|lots| - 1]), lots[|lots| - 1])
  }

  /** Taking a quantity from lots already in order. */
  function TakeInOrder(ordered: seq<StockedLot>, remaining: nat, day: int): FefoResult {
    if ordered == [] || remaining == 0 then FefoResult([], remaining)
    else if !Usable(ordered[0], day) then TakeInOrder(ordered[1..], remaining, day)
    else
      var take := Least(ordered[0].available, remaining);
      var rest := TakeInOrder(ordered[1..], remaining - take, day);
      FefoResult([Pick(ordered[0].lot, take)] + rest.picks, rest.shortBy)
  }

  method FefoPick(lots: seq<StockedLot>, quantity: nat, day: int) returns (r: FefoResult)
    ensures r == TakeInOrder(FefoOrder(lots), quantity, day)
  {
    var ordered := FefoOrder(lots);
    var remaining := quantity;
    var picks: seq<Pick> := [];
    var i := 0;
    while i < |ordered| && remaining != 0
      invariant 0 <= i <= |ordered| && 0 <= remaining
      invariant
        var rest := TakeInOrder(ordered[i..], remaining, day);
        TakeInOrder(ordered, quantity, day) == FefoResult(picks + rest.picks, rest.shortBy)
    {
      var lot := ordered[i];
      assert ordered[i..][1..] == ordered[i + 1..];
      if Usable(lot, day) {
        var take := Least(lot.available, remaining);
        assert picks + ([Pick(lot.lot, take)] + TakeInOrder(ordered[i + 1..], remaining - take, day).picks)
            == picks + [Pick(lot.lot, take)] + TakeInOrder(ordered[i + 1..], remaining - take, day).picks;
        picks := picks + [Pick(lot.lot, take)];
        remaining := remaining - take;
      }
      i := i + 1;
    }
    r := FefoResult(picks, remaining);
  }

  // --- At a branch ----------------------------------------------------------------------------

  /** A lot and its expiry, all that `Overdraw` needs of the lot received last; it may be empty. */
  datatype LastReceived = LastReceived(lot: LotId, expiry: int)

  datatype BranchPick = BranchPick(lot: LotId, quantity: int, shortfall: bool, expired: bool)

  datatype Allocation = Allocation(picks: seq<BranchPick>, toPlaceholder: nat)

  function Plain(picks: seq<Pick>): seq<BranchPick> {
    seq(|picks|, i requires 0 <= i < |picks| => BranchPick(picks[i].lot, picks[i].quantity, false, false))
  }

  function Find(picks: seq<BranchPick>, lot: LotId): (at: Option<nat>)
    ensures at.Some? ==> at.value < |picks| && picks[at.value].lot == lot
    ensures at.None? ==> forall i :: 0 <= i < |picks| ==> picks[i].lot != lot
  {
    if picks == [] then None
    else if picks[0].lot == lot then Some(0)
    else
      var rest := Find(picks[1..], lot);
      if rest.None? then None else Some(rest.value + 1)
  }

  /** What FEFO cannot cover goes to the lot received last: on its pick, or on one of its own. */
  function Overdraw(picks: seq<BranchPick>, last: LastReceived, short: nat, day: int): seq<BranchPick> {
    var expired := IsExpired(last.expiry, day);
    var already := Find(picks, last.lot);
    if already.Some?
    then picks[already.value := BranchPick(last.lot, picks[already.value].quantity + short, true, expired)]
    else picks + [BranchPick(last.lot, short, true, expired)]
  }

  function AllocateAtBranch(lots: seq<StockedLot>, quantity: nat, day: int, last: Option<LastReceived>): Allocation {
    var fefo := TakeInOrder(FefoOrder(lots), quantity, day);
    if fefo.shortBy == 0 then Allocation(Plain(fefo.picks), 0)
    else if last.None? then Allocation(Plain(fefo.picks), fefo.shortBy)
    else Allocation(Overdraw(Plain(fefo.picks), last.value, fefo.shortBy, day), 0)
  }

  // --- What it promises -------------------------------------------------------------------------

  /** The quantity taken from one lot. */
  function TakenFrom(picks: seq<BranchPick>, lot: LotId): int {
    if picks == [] then 0 else (if picks[0].lot == lot then picks[0].quantity else 0) + TakenFrom(picks[1..], lot)
  }

  function TakenInAll(picks: seq<BranchPick>): int {
    if picks == [] then 0 else picks[0].quantity + TakenInAll(picks[1..])
  }

  /** What a lot has, if it is good on the day. */
  function GoodIn(lot: StockedLot, day: int): nat {
    if day <= lot.expiry && lot.available > 0 then lot.available else 0
  }

  /** What the lots that are good on the day have between them. */
  function UsableStock(lots: seq<StockedLot>, day: int): nat {
    if lots == [] then 0 else UsableStock(lots[..|lots| - 1], day) + GoodIn(lots[|lots| - 1], day)
  }

  predicate DistinctLots(lots: seq<StockedLot>) {
    forall i, j :: 0 <= i < j < |lots| ==> lots[i].lot != lots[j].lot
  }

  lemma {:induction false} TakenLast(a: seq<BranchPick>, p: BranchPick, lot: LotId)
    ensures TakenFrom(a + [p], lot) == TakenFrom(a, lot) + if p.lot == lot then p.quantity else 0
    ensures TakenInAll(a + [p]) == TakenInAll(a) + p.quantity
  {
    if a == [] {
    } else {
      assert (a + [p])[1..] == a[1..] + [p];
      TakenLast(a[1..], p, lot);
    }
  }

  lemma {:induction false} TakenChanged(picks: seq<BranchPick>, at: nat, p: BranchPick, lot: LotId)
    requires at < |picks| && p.lot == picks[at].lot
    ensures TakenFrom(picks[at := p], lot)
         == TakenFrom(picks, lot) + if p.lot == lot then p.quantity - picks[at].quantity else 0
    ensures TakenInAll(picks[at := p]) == TakenInAll(picks) + p.quantity - picks[at].quantity
  {
    if at > 0 {
      assert picks[at := p][1..] == picks[1..][at - 1 := p];
      TakenChanged(picks[1..], at - 1, p, lot);
    } else {
      assert picks[at := p][1..] == picks[1..];
    }
  }

  lemma {:induction false} OrderKeeps(lots: seq<StockedLot>)
    ensures multiset(FefoOrder(lots)) == multiset(lots)
  {
    if lots == [] {
    } else {
      assert lots == lots[..|lots| - 1] + [lots[|lots| - 1]];
      OrderKeeps(lots[..|lots| - 1]);
      InsertLotKeeps(FefoOrder(lots[..|lots| - 1]), lots[|lots| - 1]);
    }
  }

  lemma {:induction false} InsertLotKeeps(sorted: seq<StockedLot>, lot: StockedLot)
    ensures multiset(InsertLot(sorted, lot)) == multiset(sorted) + multiset{lot}
  {
    if sorted == [] {
    } else {
      assert sorted == sorted[..|sorted| - 1] + [sorted[|sorted| - 1]];
      InsertLotKeeps(sorted[..|sorted| - 1], lot);
    }
  }

  predicate InFefoOrder(lots: seq<StockedLot>) {
    forall i, j :: 0 <= i < j < |lots| ==> !FefoBefore(lots[j], lots[i])
  }

  lemma {:induction false} OrderOrders(lots: seq<StockedLot>)
    ensures InFefoOrder(FefoOrder(lots))
  {
    if lots == [] {
    } else {
      OrderOrders(lots[..|lots| - 1]);
      InsertLotOrders(FefoOrder(lots[..|lots| - 1]), lots[|lots| - 1]);
    }
  }

  lemma {:induction false} InsertLotOrders(sorted: seq<StockedLot>, lot: StockedLot)
    requires InFefoOrder(sorted)
    ensures InFefoOrder(InsertLot(sorted, lot))
  {
    if sorted != [] && FefoBefore(lot, sorted[|sorted| - 1]) {
      var front, last := sorted[..|sorted| - 1], sorted[|sorted| - 1];
      InsertLotOrders(front, lot);
      InsertLotKeeps(front, lot);
      forall l | l in InsertLot(front, lot) ensures !FefoBefore(last, l) {
        assert l in multiset(InsertLot(front, lot));
        if l in front {
          var i :| 0 <= i < |front| && front[i] == l;
          assert sorted[i] == l;
        }
      }
    }
  }

  lemma {:induction false} UsableSplit(a: seq<StockedLot>, lot: StockedLot, day: int)
    ensures UsableStock(a + [lot], day) == UsableStock(a, day) + GoodIn(lot, day)
  {
    assert (a + [lot])[..|a|] == a;
  }

  lemma {:induction false} UsableFirst(lots: seq<StockedLot>, day: int)
    requires lots != []
    ensures UsableStock(lots, day) == GoodIn(lots[0], day) + UsableStock(lots[1..], day)
  {
    if |lots| > 1 {
      UsableFirst(lots[..|lots| - 1], day);
      assert lots[..|lots| - 1][1..] == lots[1..][..|lots| - 2];
    }
  }

  lemma {:induction false} UsableInsert(sorted: seq<StockedLot>, lot: StockedLot, day: int)
    ensures UsableStock(InsertLot(sorted, lot), day) == UsableStock(sorted + [lot], day)
  {
    UsableSplit(sorted, lot, day);
    if sorted != [] && FefoBefore(lot, sorted[|sorted| - 1]) {
      var front, last := sorted[..|sorted| - 1], sorted[|sorted| - 1];
      assert sorted == front + [last];
      UsableInsert(front, lot, day);
      UsableSplit(front, last, day);
      UsableSplit(front, lot, day);
      UsableSplit(InsertLot(front, lot), last, day);
    }
  }

  lemma {:induction false} UsableOrdered(lots: seq<StockedLot>, day: int)
    ensures UsableStock(FefoOrder(lots), day) == UsableStock(lots, day)
  {
    if lots == [] {
    } else {
      UsableOrdered(lots[..|lots| - 1], day);
      UsableInsert(FefoOrder(lots[..|lots| - 1]), lots[|lots| - 1], day);
      UsableSplit(FefoOrder(lots[..|lots| - 1]), lots[|lots| - 1], day);
    }
  }

  /** In order: everything asked for is taken or reported short, and short only when all is taken. */
  lemma {:induction false} TakeInOrderExact(ordered: seq<StockedLot>, remaining: nat, day: int)
    ensures
      var r := TakeInOrder(ordered, remaining, day);
      && TakenInAll(Plain(r.picks)) + r.shortBy == remaining
      && r.shortBy == (if remaining > UsableStock(ordered, day) then remaining - UsableStock(ordered, day) else 0)
      && forall i :: 0 <= i < |r.picks| ==> r.picks[i].quantity > 0
  {
    if ordered == [] {
    } else {
      UsableFirst(ordered, day);
      if remaining > 0 {
        var take := Least(ordered[0].available, remaining);
        if Usable(ordered[0], day) {
          TakeInOrderExact(ordered[1..], remaining - take, day);
          var rest := TakeInOrder(ordered[1..], remaining - take, day).picks;
          assert Plain([Pick(ordered[0].lot, take)] + rest)[1..] == Plain(rest);
        } else {
          TakeInOrderExact(ordered[1..], remaining, day);
        }
      }
    }
  }

  /** A lot FEFO never met is not taken from. */
  lemma {:induction false} TakenOnlyFromOrdered(ordered: seq<StockedLot>, remaining: nat, day: int, lot: LotId)
    requires forall i :: 0 <= i < |ordered| ==> ordered[i].lot != lot
    ensures TakenFrom(Plain(TakeInOrder(ordered, remaining, day).picks), lot) == 0
  {
    if ordered != [] && remaining > 0 {
      if Usable(ordered[0], day) {
        var take := Least(ordered[0].available, remaining);
        var rest := TakeInOrder(ordered[1..], remaining - take, day).picks;
        TakenOnlyFromOrdered(ordered[1..], remaining - take, day, lot);
        assert Plain([Pick(ordered[0].lot, take)] + rest)[1..] == Plain(rest);
      } else {
        TakenOnlyFromOrdered(ordered[1..], remaining, day, lot);
      }
    }
  }

  /**
   * Position by position: a usable lot gives all it has before any later one gives anything, and
   * never more; an expired or empty one gives nothing.
   */
  lemma {:induction false} TakeInOrderAt(ordered: seq<StockedLot>, remaining: nat, day: int, i: nat)
    requires DistinctLots(ordered) && i < |ordered|
    ensures
      TakenFrom(Plain(TakeInOrder(ordered, remaining, day).picks), ordered[i].lot)
        == if ordered[i].expiry < day || ordered[i].available <= 0 || remaining <= UsableStock(ordered[..i], day)
           then 0
           else Least(ordered[i].available, remaining - UsableStock(ordered[..i], day))
  {
    var lot := ordered[i].lot;
    if remaining == 0 {
    } else {
      if i > 0 {
        UsableFirst(ordered[..i], day);
        assert ordered[..i][1..] == ordered[1..][..i - 1];
      }
      if Usable(ordered[0], day) {
        var take := Least(ordered[0].available, remaining);
        var rest := TakeInOrder(ordered[1..], remaining - take, day).picks;
        assert Plain([Pick(ordered[0].lot, take)] + rest)[1..] == Plain(rest);
        if i > 0 {
          TakeInOrderAt(ordered[1..], remaining - take, day, i - 1);
        } else {
          TakenOnlyFromOrdered(ordered[1..], remaining - take, day, lot);
        }
      } else if i > 0 {
        TakeInOrderAt(ordered[1..], remaining, day, i - 1);
      } else {
        TakenOnlyFromOrdered(ordered[1..], remaining, day, lot);
      }
    }
  }

  lemma {:induction false} OrderDistinct(lots: seq<StockedLot>)
    requires DistinctLots(lots)
    ensures DistinctLots(FefoOrder(lots))
  {
    if lots == [] {
    } else {
      var front, last := lots[..|lots| - 1], lots[|lots| - 1];
      OrderDistinct(front);
      OrderKeeps(front);
      forall l | l in FefoOrder(front) ensures l.lot != last.lot {
        assert l in multiset(FefoOrder(front));
      }
      InsertDistinct(FefoOrder(front), last);
    }
  }

  lemma {:induction false} InsertDistinct(sorted: seq<StockedLot>, lot: StockedLot)
    requires DistinctLots(sorted) && forall l :: l in sorted ==> l.lot != lot.lot
    ensures DistinctLots(InsertLot(sorted, lot))
  {
    if sorted != [] && FefoBefore(lot, sorted[|sorted| - 1]) {
      var front, last := sorted[..|sorted| - 1], sorted[|sorted| - 1];
      InsertDistinct(front, lot);
      InsertLotKeeps(front, lot);
      forall l | l in InsertLot(front, lot) ensures l.lot != last.lot {
        assert l in multiset(InsertLot(front, lot));
        assert last in sorted;
        if l in front {
          var i :| 0 <= i < |front| && front[i] == l;
        }
      }
    }
  }

  /** Where a lot stands in FEFO order. */
  lemma {:induction false} PlaceInOrder(lots: seq<StockedLot>, i: nat) returns (at: nat)
    requires i < |lots|
    ensures at < |FefoOrder(lots)| && FefoOrder(lots)[at] == lots[i]
  {
    OrderKeeps(lots);
    assert lots[i] in multiset(FefoOrder(lots));
    at :| 0 <= at < |FefoOrder(lots)| && FefoOrder(lots)[at] == lots[i];
  }

  /** Overdrawing takes the shortfall on top, from the lot received last. */
  lemma {:induction false} Overdrawn(picks: seq<BranchPick>, last: LastReceived, short: nat, day: int, lot: LotId)
    requires short > 0 && forall i :: 0 <= i < |picks| ==> picks[i].quantity > 0
    ensures
      var more := Overdraw(picks, last, short, day);
      && TakenInAll(more) == TakenInAll(picks) + short
      && TakenFrom(more, lot) == TakenFrom(picks, lot) + (if last.lot == lot then short else 0)
      && forall i :: 0 <= i < |more| ==> more[i].quantity > 0
  {
    var already := Find(picks, last.lot);
    var pick := BranchPick(last.lot, short, true, IsExpired(last.expiry, day));
    if already.Some? {
      TakenChanged(picks, already.value, pick.(quantity := picks[already.value].quantity + short), lot);
    } else {
      TakenLast(picks, pick, lot);
    }
  }

  /** A sale's quantity is accounted for to the last unit: picked, or sent to the placeholder. */
  lemma {:induction false} AllocationExact(lots: seq<StockedLot>, quantity: nat, day: int, last: Option<LastReceived>)
    ensures
      var a := AllocateAtBranch(lots, quantity, day, last);
      && TakenInAll(a.picks) + a.toPlaceholder == quantity
      && (forall i :: 0 <= i < |a.picks| ==> a.picks[i].quantity > 0)
      && a.toPlaceholder
         == (if last.None? && quantity > UsableStock(lots, day) then quantity - UsableStock(lots, day) else 0)
  {
    var fefo := TakeInOrder(FefoOrder(lots), quantity, day);
    TakeInOrderExact(FefoOrder(lots), quantity, day);
    UsableOrdered(lots, day);
    if fefo.shortBy > 0 && last.Some? { Overdrawn(Plain(fefo.picks), last.value, fefo.shortBy, day, 0); }
  }

  /** What is taken from each lot: FEFO's share, and the whole shortfall from the one received last. */
  lemma {:induction false} AllocationFrom(
      lots: seq<StockedLot>, quantity: nat, day: int, last: Option<LastReceived>, lot: LotId)
    ensures
      var fefo := TakeInOrder(FefoOrder(lots), quantity, day);
      TakenFrom(AllocateAtBranch(lots, quantity, day, last).picks, lot)
        == TakenFrom(Plain(fefo.picks), lot) + if last.Some? && last.value.lot == lot then fefo.shortBy else 0
  {
    var fefo := TakeInOrder(FefoOrder(lots), quantity, day);
    TakeInOrderExact(FefoOrder(lots), quantity, day);
    if fefo.shortBy > 0 && last.Some? { Overdrawn(Plain(fefo.picks), last.value, fefo.shortBy, day, lot); }
  }

  /** Only the lot received last gives more than it has; and nothing expired is taken from another. */
  lemma {:induction false} OthersKeepTheirStock(
      lots: seq<StockedLot>, quantity: nat, day: int, last: Option<LastReceived>, i: nat)
    requires DistinctLots(lots) && i < |lots|
    requires last.None? || last.value.lot != lots[i].lot
    ensures
      var taken := TakenFrom(AllocateAtBranch(lots, quantity, day, last).picks, lots[i].lot);
      0 <= taken <= if day <= lots[i].expiry && lots[i].available > 0 then lots[i].available else 0
  {
    AllocationFrom(lots, quantity, day, last, lots[i].lot);
    OrderDistinct(lots);
    var at := PlaceInOrder(lots, i);
    TakeInOrderAt(FefoOrder(lots), quantity, day, at);
  }

  /** A lot that still has something after its allocation gave FEFO's share alone, and FEFO covered all. */
  lemma {:induction false} LeftOverMeansCovered(
      lots: seq<StockedLot>, quantity: nat, day: int, last: Option<LastReceived>, i: nat)
    requires DistinctLots(lots) && i < |lots| && Usable(lots[i], day)
    requires TakenFrom(AllocateAtBranch(lots, quantity, day, last).picks, lots[i].lot) < lots[i].available
    ensures TakeInOrder(FefoOrder(lots), quantity, day).shortBy == 0
  {
    TakeInOrderExact(FefoOrder(lots), quantity, day);
    UsableOrdered(lots, day);
    if quantity > UsableStock(lots, day) {
      AllocationFrom(lots, quantity, day, last, lots[i].lot);
      FefoEmpties(lots, quantity, day, i);
    }
  }

  /**
   * First expired, first out, whichever lot came in last: while a lot that is good on the day has
   * anything left, one that expires later, or on the same day with a higher number, gives nothing.
   */
  lemma {:induction false} FirstExpiredFirstOut(
      lots: seq<StockedLot>, quantity: nat, day: int, last: Option<LastReceived>, i: nat, j: nat)
    requires DistinctLots(lots) && i < |lots| && j < |lots|
    requires day <= lots[i].expiry && lots[i].available > 0
    requires
      var a, b := lots[i], lots[j];
      || a.expiry < b.expiry
      || (a.expiry == b.expiry && a.number.document < b.number.document)
      || (a.expiry == b.expiry && a.number.document == b.number.document && a.number.line < b.number.line)
    requires TakenFrom(AllocateAtBranch(lots, quantity, day, last).picks, lots[i].lot) < lots[i].available
    ensures TakenFrom(AllocateAtBranch(lots, quantity, day, last).picks, lots[j].lot) == 0
  {
    var ordered := FefoOrder(lots);
    LeftOverMeansCovered(lots, quantity, day, last, i);
    AllocationFrom(lots, quantity, day, last, lots[i].lot);
    AllocationFrom(lots, quantity, day, last, lots[j].lot);
    OrderDistinct(lots);
    OrderOrders(lots);
    var a := PlaceInOrder(lots, i);
    var b := PlaceInOrder(lots, j);
    assert a < b;
    TakeInOrderAt(ordered, quantity, day, a);
    TakeInOrderAt(ordered, quantity, day, b);
    UsableSplit(ordered[..a], ordered[a], day);
    assert ordered[..a + 1] == ordered[..a] + [ordered[a]];
    UsableGrows(ordered, a + 1, b, day);
  }

  lemma {:induction false} UsableGrows(ordered: seq<StockedLot>, a: nat, b: nat, day: int)
    requires a <= b <= |ordered|
    ensures UsableStock(ordered[..a], day) <= UsableStock(ordered[..b], day)
  {
    if a < b {
      UsableGrows(ordered, a, b - 1, day);
      UsableSplit(ordered[..b - 1], ordered[b - 1], day);
      assert ordered[..b] == ordered[..b - 1] + [ordered[b - 1]];
    }
  }

  /** When the usable lots are not enough, FEFO empties every one of them. */
  lemma {:induction false} FefoEmpties(lots: seq<StockedLot>, quantity: nat, day: int, i: nat)
    requires DistinctLots(lots) && i < |lots|
    requires quantity > UsableStock(lots, day)
    ensures
      var fefo := TakeInOrder(FefoOrder(lots), quantity, day);
      && fefo.shortBy == quantity - UsableStock(lots, day)
      && TakenFrom(Plain(fefo.picks), lots[i].lot) == if Usable(lots[i], day) then lots[i].available else 0
  {
    var ordered := FefoOrder(lots);
    TakeInOrderExact(ordered, quantity, day);
    UsableOrdered(lots, day);
    OrderDistinct(lots);
    var at := PlaceInOrder(lots, i);
    TakeInOrderAt(ordered, quantity, day, at);
    UsableHere(ordered, at, day);
  }

  lemma {:induction false} UsableHere(ordered: seq<StockedLot>, at: nat, day: int)
    requires at < |ordered|
    ensures UsableStock(ordered[..at], day) + (if Usable(ordered[at], day) then ordered[at].available else 0)
         <= UsableStock(ordered, day)
  {
    UsableSplit(ordered[..at], ordered[at], day);
    assert ordered[..at + 1] == ordered[..at] + [ordered[at]];
    UsableGrows(ordered, at + 1, |ordered|, day);
    assert ordered[..|ordered|] == ordered;
  }

  /** What the lot received last holds at the branch: what FEFO saw of it, or nothing it could take. */
  predicate Holds(lots: seq<StockedLot>, last: LastReceived, held: int) {
    if exists i :: 0 <= i < |lots| && lots[i].lot == last.lot
    then forall i :: 0 <= i < |lots| && lots[i].lot == last.lot ==>
        lots[i].available == held && lots[i].expiry == last.expiry
    else held <= 0
  }

  /**
   * A shortfall pick ought to take its lot below zero. It does exactly when the lot is unexpired, so
   * that FEFO has emptied it, or the shortfall is more than it holds: an expired lot that still holds
   * enough is flagged and stays above zero.
   */
  lemma {:induction false} ShortfallBelowZero(
      lots: seq<StockedLot>, quantity: nat, day: int, last: LastReceived, held: int)
    requires DistinctLots(lots) && Holds(lots, last, held)
    requires quantity > UsableStock(lots, day)
    ensures
      var taken := TakenFrom(AllocateAtBranch(lots, quantity, day, Some(last)).picks, last.lot);
      held - taken < 0 <==> day <= last.expiry || quantity - UsableStock(lots, day) > held
  {
    AllocationFrom(lots, quantity, day, Some(last), last.lot);
    if i :| 0 <= i < |lots| && lots[i].lot == last.lot {
      FefoEmpties(lots, quantity, day, i);
    } else {
      TakeInOrderExact(FefoOrder(lots), quantity, day);
      UsableOrdered(lots, day);
      NotStockedGivesNothing(lots, quantity, day, last.lot);
    }
  }

  lemma {:induction false} NotStockedGivesNothing(lots: seq<StockedLot>, quantity: nat, day: int, lot: LotId)
    requires forall i :: 0 <= i < |lots| ==> lots[i].lot != lot
    ensures TakenFrom(Plain(TakeInOrder(FefoOrder(lots), quantity, day).picks), lot) == 0
  {
    var ordered := FefoOrder(lots);
    OrderKeeps(lots);
    forall i | 0 <= i < |ordered| ensures ordered[i].lot != lot {
      assert ordered[i] in multiset(ordered);
      assert ordered[i] in lots;
    }
    TakenOnlyFromOrdered(ordered, quantity, day, lot);
  }

  /** Such a lot: expired, 10 on hand, 3 of it taken and flagged as a shortfall. */
  lemma {:induction false} FlaggedAboveZero()
    ensures
      var lots := [StockedLot(0, LotNumber(0, 1), 0, 1, 10)];
      AllocateAtBranch(lots, 3, 2, Some(LastReceived(0, 1))) == Allocation([BranchPick(0, 3, true, true)], 0)
  {
    var lots := [StockedLot(0, LotNumber(0, 1), 0, 1, 10)];
    assert FefoOrder(lots) == lots;
    assert TakeInOrder(lots, 3, 2) == FefoResult([], 3);
  }
}
