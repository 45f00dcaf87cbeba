/**
 * The window query of ledger.service.ts `negativeEpisodes` as functions: group an item's entries at
 * a branch into moves, sort them by business time, and count where the running sum falls below zero.
 */
module NegativeEpisodes {
  import opened Options
  import opened PostingRules
  import opened Ledger
  import opened LedgerSums
  import opened LedgerReadings

  /** All a document moved of the item at the branch, at one business time. */
  datatype Move = Move(document: DocumentId, time: Instant, quantity: int)

  predicate HasMove(moves: seq<Move>, document: DocumentId, time: Instant) {
    exists i :: 0 <= i < |moves| && moves[i].document == document && moves[i].time == time
  }

  /** What `MovesOf` is about. */
  predicate Concerns(e: Entry, location: LocationId, item: ItemId) {
    e.move.location == location && e.move.item == item
  }

  /** GROUP BY business time and document, in the order documents were posted. */
  function Gather(moves: seq<Move>, e: Entry): seq<Move> {
    if !HasMove(moves, e.document, e.time) then moves + [Move(e.document, e.time, e.move.amount.quantity)]
    else
      var last := moves[|moves| - 1];
      if last.document == e.document && last.time == e.time
      then moves[..|moves| - 1] + [last.(quantity := last.quantity + e.move.amount.quantity)]
      else Gather(moves[..|moves| - 1], e) + [last]
  }

  function MovesOf(entries: seq<Entry>, location: LocationId, item: ItemId): seq<Move> {
    if entries == [] then []
    else
      var before := MovesOf(entries[..|entries| - 1], location, item);
      if Concerns(entries[|entries| - 1], location, item) then Gather(before, entries[|entries| - 1]) else before
  }

  /** A stable sort by business time. */
  function InOrder(moves: seq<Move>): seq<Move> {
    if moves == [] then [] else Place(InOrder(moves[..|moves| - 1]), moves[|moves| - 1])
  }

  function Place(sorted: seq<Move>, m: Move): seq<Move> {
    if sorted == [] || !Earlier(m.time, sorted[|sorted| - 1].time) then sorted + [m]
    else Place(sorted[..|sorted| - 1], m) + [sorted[|sorted| - 1]]
  }

  /** The balance once these moves are made. */
  function Running(moves: seq<Move>): int {
    if moves == [] then 0 else Running(moves[..|moves| - 1]) + moves[|moves| - 1].quantity
  }

  /** How many moves dated from `from` on end a prefix below zero that began at or above it. */
  function Falls(moves: seq<Move>, from: int): nat {
    if moves == [] then 0
    else
      var before := moves[..|moves| - 1];
      Falls(before, from)
        + if Running(moves) < 0 && Running(before) >= 0 && moves[|moves| - 1].time.day >= from then 1 else 0
  }

  function Rises(moves: seq<Move>): nat {
    if moves == [] then 0
    else
      var before := moves[..|moves| - 1];
      Rises(before) + if Running(moves) >= 0 && Running(before) < 0 then 1 else 0
  }

  function Episodes(entries: seq<Entry>, location: LocationId, item: ItemId, from: int, to: int): nat {
    Falls(InOrder(MovesOf(UpTo(entries, to), location, item)), from)
  }

  // --- Periods --------------------------------------------------------------------------------

  function Until(moves: seq<Move>, day: int): seq<Move> {
    if moves == [] then []
    else
      var before := Until(moves[..|moves| - 1], day);
      if moves[|moves| - 1].time.day <= day then before + [moves[|moves| - 1]] else before
  }

  lemma {:induction false} UntilLast(moves: seq<Move>, m: Move, day: int)
    ensures Until(moves + [m], day) == Until(moves, day) + if m.time.day <= day then [m] else []
  {
    assert (moves + [m])[..|moves|] == moves;
  }

  lemma {:induction false} UntilHasMove(moves: seq<Move>, e: Entry, day: int)
    ensures HasMove(Until(moves, day), e.document, e.time)
       <==> e.time.day <= day && HasMove(moves, e.document, e.time)
  {
    if moves == [] {
    } else {
      var front, last := moves[..|moves| - 1], moves[|moves| - 1];
      assert moves == front + [last];
      UntilHasMove(front, e, day);
      UntilLast(front, last, day);
      HasMoveLast(front, last, e);
      HasMoveLast(Until(front, day), last, e);
    }
  }

  lemma {:induction false} HasMoveLast(moves: seq<Move>, m: Move, e: Entry)
    ensures HasMove(moves + [m], e.document, e.time)
       <==> HasMove(moves, e.document, e.time) || (m.document == e.document && m.time == e.time)
  {
    if HasMove(moves, e.document, e.time) {
      var i :| 0 <= i < |moves| && moves[i].document == e.document && moves[i].time == e.time;
      assert (moves + [m])[i] == moves[i];
    }
    if m.document == e.document && m.time == e.time { assert (moves + [m])[|moves|] == m; }
  }

  lemma {:induction false} UntilGather(moves: seq<Move>, e: Entry, day: int)
    ensures Until(Gather(moves, e), day)
        == if e.time.day <= day then Gather(Until(moves, day), e) else Until(moves, day)
  {
    UntilHasMove(moves, e, day);
    if !HasMove(moves, e.document, e.time) {
      UntilLast(moves, Move(e.document, e.time, e.move.amount.quantity), day);
    } else {
      var front, last := moves[..|moves| - 1], moves[|moves| - 1];
      assert moves == front + [last];
      UntilLast(front, last, day);
      if last.document == e.document && last.time == e.time {
        UntilLast(front, last.(quantity := last.quantity + e.move.amount.quantity), day);
      } else {
        UntilGather(front, e, day);
        UntilLast(Gather(front, e), last, day);
      }
    }
  }

  lemma {:induction false} MovesOfLast(entries: seq<Entry>, e: Entry, location: LocationId, item: ItemId)
    ensures MovesOf(entries + [e], location, item)
         == if Concerns(e, location, item) then Gather(MovesOf(entries, location, item), e)
             else MovesOf(entries, location, item)
  {
    assert (entries + [e])[..|entries|] == entries;
  }

  /** Grouping what a shorter period shows is a part of grouping what a longer one does. */
  lemma {:induction false} MovesUntil(entries: seq<Entry>, location: LocationId, item: ItemId, mid: int, to: int)
    requires mid <= to
    ensures Until(MovesOf(UpTo(entries, to), location, item), mid) == MovesOf(UpTo(entries, mid), location, item)
  {
    if entries == [] {
    } else {
      var front, last := entries[..|entries| - 1], entries[|entries| - 1];
      MovesUntil(front, location, item, mid, to);
      MovesOfLast(UpTo(front, to), last, location, item);
      MovesOfLast(UpTo(front, mid), last, location, item);
      UntilGather(MovesOf(UpTo(front, to), location, item), last, mid);
    }
  }

  lemma {:induction false} UntilPlace(sorted: seq<Move>, m: Move, day: int)
    ensures Until(Place(sorted, m), day)
        == if m.time.day <= day then Place(Until(sorted, day), m) else Until(sorted, day)
  {
    if sorted == [] || !Earlier(m.time, sorted[|sorted| - 1].time) {
      UntilLast(sorted, m, day);
      if sorted != [] {
        var front, last := sorted[..|sorted| - 1], sorted[|sorted| - 1];
        assert sorted == front + [last];
        UntilLast(front, last, day);
      }
    } else {
      var front, last := sorted[..|sorted| - 1], sorted[|sorted| - 1];
      assert sorted == front + [last];
      UntilPlace(front, m, day);
      UntilLast(front, last, day);
      UntilLast(Place(front, m), last, day);
    }
  }

  lemma {:induction false} UntilInOrder(moves: seq<Move>, day: int)
    ensures Until(InOrder(moves), day) == InOrder(Until(moves, day))
  {
    if moves == [] {
    } else {
      var front, last := moves[..|moves| - 1], moves[|moves| - 1];
      UntilInOrder(front, day);
      UntilPlace(InOrder(front), last, day);
      if last.time.day <= day {
        assert (Until(front, day) + [last])[..|Until(front, day)|] == Until(front, day);
      }
    }
  }

  predicate InTime(moves: seq<Move>) {
    forall i, j :: 0 <= i < j < |moves| ==> !Earlier(moves[j].time, moves[i].time)
  }

  lemma {:induction false} PlaceKeeps(sorted: seq<Move>, m: Move)
    ensures multiset(Place(sorted, m)) == multiset(sorted) + multiset{m}
  {
    if sorted == [] {
    } else {
      assert sorted == sorted[..|sorted| - 1] + [sorted[|sorted| - 1]];
      PlaceKeeps(sorted[..|sorted| - 1], m);
    }
  }

  lemma {:induction false} PlaceOrders(sorted: seq<Move>, m: Move)
    requires InTime(sorted)
    ensures InTime(Place(sorted, m))
  {
    if sorted != [] && Earlier(m.time, sorted[|sorted| - 1].time) {
      var front, last := sorted[..|sorted| - 1], sorted[|sorted| - 1];
      PlaceOrders(front, m);
      PlaceKeeps(front, m);
      forall x | x in Place(front, m) ensures !Earlier(last.time, x.time) {
        assert x in multiset(Place(front, m));
        if x in front {
          var i :| 0 <= i < |front| && front[i] == x;
          assert sorted[i] == x;
        }
      }
    }
  }

  lemma {:induction false} InOrderOrders(moves: seq<Move>)
    ensures InTime(InOrder(moves))
  {
    if moves == [] {
    } else {
      InOrderOrders(moves[..|moves| - 1]);
      PlaceOrders(InOrder(moves[..|moves| - 1]), moves[|moves| - 1]);
    }
  }

  lemma {:induction false} UntilAll(moves: seq<Move>, day: int)
    requires forall i :: 0 <= i < |moves| ==> moves[i].time.day <= day
    ensures Until(moves, day) == moves
    ensures Falls(moves, day + 1) == 0
  {
    if moves == [] {
    } else {
      UntilAll(moves[..|moves| - 1], day);
    }
  }

  /** In business order, what fell up to a day and what fell after it are all that fell. */
  lemma {:induction false} FallsSplit(moves: seq<Move>, from: int, mid: int)
    requires InTime(moves) && from <= mid + 1
    ensures Falls(moves, from) == Falls(Until(moves, mid), from) + Falls(moves, mid + 1)
  {
    if moves == [] {
    } else {
      if moves[|moves| - 1].time.day <= mid {
        forall i | 0 <= i < |moves| ensures moves[i].time.day <= mid {
          assert i < |moves| - 1 ==> !Earlier(moves[|moves| - 1].time, moves[i].time);
        }
        UntilAll(moves, mid);
      } else {
        FallsSplit(moves[..|moves| - 1], from, mid);
      }
    }
  }

  /** Episodes add up over adjacent periods: a period counts the times it saw, whatever came before. */
  lemma {:induction false} EpisodesAddUp(
      entries: seq<Entry>, location: LocationId, item: ItemId, from: int, mid: int, to: int)
    requires from <= mid + 1 && mid <= to
    ensures Episodes(entries, location, item, from, to)
         == Episodes(entries, location, item, from, mid) + Episodes(entries, location, item, mid + 1, to)
  {
    var moves := MovesOf(UpTo(entries, to), location, item);
    InOrderOrders(moves);
    FallsSplit(InOrder(moves), from, mid);
    UntilInOrder(moves, mid);
    MovesUntil(entries, location, item, mid, to);
  }

  // --- The whole history ----------------------------------------------------------------------

  function QuantityOfItem(location: LocationId, item: ItemId): Entry -> int {
    (e: Entry) => if e.move.location == location && e.move.item == item then e.move.amount.quantity else 0
  }

  lemma {:induction false} RunningLast(moves: seq<Move>, m: Move)
    ensures Running(moves + [m]) == Running(moves) + m.quantity
  {
    assert (moves + [m])[..|moves|] == moves;
  }

  lemma {:induction false} RunningGather(moves: seq<Move>, e: Entry)
    ensures Running(Gather(moves, e)) == Running(moves) + e.move.amount.quantity
  {
    if !HasMove(moves, e.document, e.time) {
      RunningLast(moves, Move(e.document, e.time, e.move.amount.quantity));
    } else {
      var front, last := moves[..|moves| - 1], moves[|moves| - 1];
      if last.document == e.document && last.time == e.time {
        RunningLast(front, last.(quantity := last.quantity + e.move.amount.quantity));
      } else {
        RunningGather(front, e);
        RunningLast(Gather(front, e), last);
      }
    }
  }

  lemma {:induction false} RunningMoves(entries: seq<Entry>, location: LocationId, item: ItemId)
    ensures Running(MovesOf(entries, location, item)) == Sum(entries, QuantityOfItem(location, item))
  {
    if entries == [] {
    } else {
      RunningMoves(entries[..|entries| - 1], location, item);
      RunningGather(MovesOf(entries[..|entries| - 1], location, item), entries[|entries| - 1]);
    }
  }

  lemma {:induction false} RunningPlace(sorted: seq<Move>, m: Move)
    ensures Running(Place(sorted, m)) == Running(sorted) + m.quantity
  {
    if sorted == [] || !Earlier(m.time, sorted[|sorted| - 1].time) {
      RunningLast(sorted, m);
    } else {
      RunningPlace(sorted[..|sorted| - 1], m);
      RunningLast(Place(sorted[..|sorted| - 1], m), sorted[|sorted| - 1]);
    }
  }

  lemma {:induction false} RunningInOrder(moves: seq<Move>)
    ensures Running(InOrder(moves)) == Running(moves)
  {
    if moves == [] {
    } else {
      RunningInOrder(moves[..|moves| - 1]);
      RunningPlace(InOrder(moves[..|moves| - 1]), moves[|moves| - 1]);
    }
  }

  lemma {:induction false} FallsLessRises(moves: seq<Move>, from: int)
    requires forall i :: 0 <= i < |moves| ==> moves[i].time.day >= from
    ensures Falls(moves, from) == Rises(moves) + if Running(moves) < 0 then 1 else 0
  {
    if moves == [] {
    } else {
      FallsLessRises(moves[..|moves| - 1], from);
    }
  }

  lemma {:induction false} GatherDays(moves: seq<Move>, e: Entry, from: int)
    requires e.time.day >= from && forall i :: 0 <= i < |moves| ==> moves[i].time.day >= from
    ensures forall i :: 0 <= i < |Gather(moves, e)| ==> Gather(moves, e)[i].time.day >= from
  {
    if !HasMove(moves, e.document, e.time) {
    } else {
      GatherDays(moves[..|moves| - 1], e, from);
    }
  }

  lemma {:induction false} MovesDays(entries: seq<Entry>, location: LocationId, item: ItemId, from: int)
    requires forall i :: 0 <= i < |entries| ==> entries[i].time.day >= from
    ensures forall i :: 0 <= i < |MovesOf(entries, location, item)| ==>
        MovesOf(entries, location, item)[i].time.day >= from
  {
    if entries == [] {
    } else {
      MovesDays(entries[..|entries| - 1], location, item, from);
      GatherDays(MovesOf(entries[..|entries| - 1], location, item), entries[|entries| - 1], from);
    }
  }

  lemma {:induction false} InOrderKeeps(moves: seq<Move>)
    ensures multiset(InOrder(moves)) == multiset(moves)
  {
    if moves == [] {
    } else {
      assert moves == moves[..|moves| - 1] + [moves[|moves| - 1]];
      InOrderKeeps(moves[..|moves| - 1]);
      PlaceKeeps(InOrder(moves[..|moves| - 1]), moves[|moves| - 1]);
    }
  }

  /**
   * Over a period that takes in the whole history, every episode but a last unfinished one ended:
   * one more fall than rises exactly when what is left of the item at the branch is below zero.
   */
  lemma {:induction false} EpisodesEnd(entries: seq<Entry>, location: LocationId, item: ItemId, from: int, to: int)
    requires forall i :: 0 <= i < |entries| ==> from <= entries[i].time.day <= to
    ensures Episodes(entries, location, item, from, to)
         == Rises(InOrder(MovesOf(entries, location, item)))
            + if Sum(entries, QuantityOfItem(location, item)) < 0 then 1 else 0
  {
    UpToAll(entries, to);
    var moves := MovesOf(entries, location, item);
    MovesDays(entries, location, item, from);
    InOrderKeeps(moves);
    forall i | 0 <= i < |InOrder(moves)| ensures InOrder(moves)[i].time.day >= from {
      assert InOrder(moves)[i] in multiset(InOrder(moves));
    }
    FallsLessRises(InOrder(moves), from);
    RunningInOrder(moves);
    RunningMoves(entries, location, item);
  }

  // --- What is counted ----------------------------------------------------------------------------

  /** An entry of the document at that time, about the item at the location. */
  predicate IsOf(e: Entry, document: DocumentId, time: Instant, location: LocationId, item: ItemId) {
    && e.document == document && e.time == time
    && e.move.location == location && e.move.item == item
  }

  /** What a document moved of the item there and then. */
  function MovedBy(entries: seq<Entry>, document: DocumentId, time: Instant, location: LocationId, item: ItemId): int {
    if entries == [] then 0
    else
      var last := entries[|entries| - 1];
      MovedBy(entries[..|entries| - 1], document, time, location, item)
        + if IsOf(last, document, time, location, item) then last.move.amount.quantity else 0
  }

  /** Where the first such entry is, or the end of the ledger. */
  function FirstOf(
      entries: seq<Entry>, document: DocumentId, time: Instant, location: LocationId, item: ItemId): (at: nat)
    ensures at <= |entries|
    ensures at < |entries| ==> IsOf(entries[at], document, time, location, item)
    ensures forall i :: 0 <= i < at ==> !IsOf(entries[i], document, time, location, item)
  {
    if entries == [] then 0
    else
      var before := FirstOf(entries[..|entries| - 1], document, time, location, item);
      if before < |entries| - 1 then before
      else if IsOf(entries[|entries| - 1], document, time, location, item) then |entries| - 1 else |entries|
  }

  /** One move for each document and time there is an entry of, with all the document moved, as first posted. */
  ghost predicate MovesAre(moves: seq<Move>, entries: seq<Entry>, location: LocationId, item: ItemId) {
    && (forall i :: 0 <= i < |moves| ==> MoveIs(moves[i], entries, location, item))
    && (forall i, j :: 0 <= i < j < |moves| ==>
          PostedBefore(moves[i], moves[j], entries, location, item))
    && forall e :: 0 <= e < |entries| && entries[e].move.location == location && entries[e].move.item == item ==>
         HasMove(moves, entries[e].document, entries[e].time)
  }

  predicate MoveIs(m: Move, entries: seq<Entry>, location: LocationId, item: ItemId) {
    && FirstOf(entries, m.document, m.time, location, item) < |entries|
    && m.quantity == MovedBy(entries, m.document, m.time, location, item)
  }

  predicate PostedBefore(a: Move, b: Move, entries: seq<Entry>, location: LocationId, item: ItemId) {
    FirstOf(entries, a.document, a.time, location, item) < FirstOf(entries, b.document, b.time, location, item)
  }

  /** Adding an entry's quantity to the move of its document and time, or as a move of its own. */
  lemma {:induction false} Gathered(moves: seq<Move>, e: Entry) returns (at: nat)
    requires forall i, j :: 0 <= i < j < |moves| ==>
               moves[i].document != moves[j].document || moves[i].time != moves[j].time
    ensures at <= |moves|
    ensures at < |moves| ==>
              && moves[at].document == e.document && moves[at].time == e.time
              && Gather(moves, e) == moves[at := Move(e.document, e.time, moves[at].quantity + e.move.amount.quantity)]
    ensures at == |moves| ==>
              && !HasMove(moves, e.document, e.time)
              && Gather(moves, e) == moves + [Move(e.document, e.time, e.move.amount.quantity)]
  {
    if !HasMove(moves, e.document, e.time) {
      at := |moves|;
    } else {
      var front, last := moves[..|moves| - 1], moves[|moves| - 1];
      if last.document == e.document && last.time == e.time {
        at := |moves| - 1;
      } else {
        assert moves == front + [last];
        HasMoveLast(front, last, e);
        at := Gathered(front, e);
      }
    }
  }

  lemma {:induction false} FirstStays(
      entries: seq<Entry>, e: Entry, document: DocumentId, time: Instant, location: LocationId, item: ItemId)
    ensures
      var before, after := FirstOf(entries, document, time, location, item),
                           FirstOf(entries + [e], document, time, location, item);
      && (before < |entries| ==> after == before)
      && (before == |entries| ==> after == if IsOf(e, document, time, location, item) then |entries| else |entries| + 1)
    ensures MovedBy(entries + [e], document, time, location, item)
         == MovedBy(entries, document, time, location, item)
            + if IsOf(e, document, time, location, item) then e.move.amount.quantity else 0
    ensures FirstOf(entries, document, time, location, item) == |entries| ==>
              MovedBy(entries, document, time, location, item) == 0
  {
    assert (entries + [e])[..|entries|] == entries;
    if FirstOf(entries, document, time, location, item) == |entries| {
      NothingMoved(entries, document, time, location, item);
    }
  }

  lemma {:induction false} NothingMoved(
      entries: seq<Entry>, document: DocumentId, time: Instant, location: LocationId, item: ItemId)
    requires forall i :: 0 <= i < |entries| ==> !IsOf(entries[i], document, time, location, item)
    ensures MovedBy(entries, document, time, location, item) == 0
  {
    if entries == [] {
    } else {
      NothingMoved(entries[..|entries| - 1], document, time, location, item);
    }
  }

  lemma {:induction false} MovesAreDistinct(moves: seq<Move>, entries: seq<Entry>, location: LocationId, item: ItemId)
    requires MovesAre(moves, entries, location, item)
    ensures forall i, j :: 0 <= i < j < |moves| ==>
              moves[i].document != moves[j].document || moves[i].time != moves[j].time
  {
    forall i, j | 0 <= i < j < |moves|
      ensures moves[i].document != moves[j].document || moves[i].time != moves[j].time
    {
      assert PostedBefore(moves[i], moves[j], entries, location, item);
    }
  }

  /** An entry about something else changes no move. */
  lemma {:induction false} MovesStay(
      moves: seq<Move>, entries: seq<Entry>, e: Entry, location: LocationId, item: ItemId)
    requires MovesAre(moves, entries, location, item)
    requires e.move.location != location || e.move.item != item
    ensures MovesAre(moves, entries + [e], location, item)
  {
    forall i | 0 <= i < |moves| ensures MoveIs(moves[i], entries + [e], location, item) {
      assert MoveIs(moves[i], entries, location, item);
      FirstStays(entries, e, moves[i].document, moves[i].time, location, item);
    }
    forall i, j | 0 <= i < j < |moves| ensures PostedBefore(moves[i], moves[j], entries + [e], location, item) {
      assert PostedBefore(moves[i], moves[j], entries, location, item);
      assert MoveIs(moves[j], entries, location, item) && MoveIs(moves[i], entries, location, item);
      FirstStays(entries, e, moves[i].document, moves[i].time, location, item);
      FirstStays(entries, e, moves[j].document, moves[j].time, location, item);
    }
  }

  /** A move of its own, for a document and time there was no entry of. */
  lemma {:induction false} MovesGrow(
      moves: seq<Move>, entries: seq<Entry>, e: Entry, location: LocationId, item: ItemId)
    requires MovesAre(moves, entries, location, item)
    requires e.move.location == location && e.move.item == item && !HasMove(moves, e.document, e.time)
    ensures MovesAre(moves + [Move(e.document, e.time, e.move.amount.quantity)], entries + [e], location, item)
  {
    var m, all := Move(e.document, e.time, e.move.amount.quantity), entries + [e];
    FirstStays(entries, e, e.document, e.time, location, item);
    assert FirstOf(entries, e.document, e.time, location, item) == |entries|;
    forall i | 0 <= i < |moves|
      ensures MoveIs(moves[i], all, location, item) && PostedBefore(moves[i], m, all, location, item)
    {
      assert MoveIs(moves[i], entries, location, item);
      FirstStays(entries, e, moves[i].document, moves[i].time, location, item);
    }
    forall i, j | 0 <= i < j < |moves| ensures PostedBefore(moves[i], moves[j], all, location, item) {
      assert PostedBefore(moves[i], moves[j], entries, location, item);
      FirstStays(entries, e, moves[i].document, moves[i].time, location, item);
      FirstStays(entries, e, moves[j].document, moves[j].time, location, item);
      assert MoveIs(moves[i], entries, location, item) && MoveIs(moves[j], entries, location, item);
    }
    forall k | 0 <= k < |all| && all[k].move.location == location && all[k].move.item == item
      ensures HasMove(moves + [m], all[k].document, all[k].time)
    {
      HasMoveLast(moves, m, all[k]);
      if k < |entries| { assert entries[k] == all[k]; }
    }
  }

  /** More of a document already there, at the same time. */
  lemma {:induction false} MovesMerge(
      moves: seq<Move>, entries: seq<Entry>, e: Entry, location: LocationId, item: ItemId, at: nat)
    requires MovesAre(moves, entries, location, item)
    requires e.move.location == location && e.move.item == item
    requires at < |moves| && moves[at].document == e.document && moves[at].time == e.time
    ensures MovesAre(moves[at := Move(e.document, e.time, moves[at].quantity + e.move.amount.quantity)], entries + [e],
                     location, item)
  {
    var after, all := moves[at := Move(e.document, e.time, moves[at].quantity + e.move.amount.quantity)], entries + [e];
    MovesAreDistinct(moves, entries, location, item);
    forall i | 0 <= i < |moves|
      ensures MoveIs(after[i], all, location, item)
      ensures FirstOf(all, after[i].document, after[i].time, location, item)
           == FirstOf(entries, moves[i].document, moves[i].time, location, item)
    {
      assert MoveIs(moves[i], entries, location, item);
      FirstStays(entries, e, moves[i].document, moves[i].time, location, item);
    }
    forall i, j | 0 <= i < j < |after| ensures PostedBefore(after[i], after[j], all, location, item) {
      assert PostedBefore(moves[i], moves[j], entries, location, item);
    }
    forall k | 0 <= k < |all| && all[k].move.location == location && all[k].move.item == item
      ensures HasMove(after, all[k].document, all[k].time)
    {
      assert HasMove(moves, all[k].document, all[k].time) by {
        if k < |entries| { assert entries[k] == all[k]; } else { assert moves[at].document == all[k].document; }
      }
      var i :| 0 <= i < |moves| && moves[i].document == all[k].document && moves[i].time == all[k].time;
      assert after[i].document == moves[i].document && after[i].time == moves[i].time;
    }
  }

  lemma {:induction false} MovesOfAre(entries: seq<Entry>, location: LocationId, item: ItemId)
    ensures MovesAre(MovesOf(entries, location, item), entries, location, item)
  {
    if entries == [] {
    } else {
      var front, e := entries[..|entries| - 1], entries[|entries| - 1];
      assert entries == front + [e];
      MovesOfAre(front, location, item);
      var before := MovesOf(front, location, item);
      if !Concerns(e, location, item) {
        MovesStay(before, front, e, location, item);
      } else {
        MovesAreDistinct(before, front, location, item);
        var at := Gathered(before, e);
        if at < |before| {
          MovesMerge(before, front, e, location, item, at);
        } else {
          MovesGrow(before, front, e, location, item);
        }
      }
    }
  }

  /** By business time, and within one time by what `place` gives each. */
  ghost predicate InBusinessOrder(moves: seq<Move>, place: Move -> int) {
    forall i, j :: 0 <= i < j < |moves| ==> ComesFirst(moves[i], moves[j], place)
  }

  predicate ComesFirst(a: Move, b: Move, place: Move -> int) {
    || a.time.day < b.time.day
    || (a.time.day == b.time.day && a.time.offset < b.time.offset)
    || (a.time == b.time && place(a) < place(b))
  }

  lemma {:induction false} LastComesLast(sorted: seq<Move>, m: Move, place: Move -> int)
    requires sorted != [] && InBusinessOrder(sorted, place) && ComesFirst(sorted[|sorted| - 1], m, place)
    ensures InBusinessOrder(sorted + [m], place)
  {
    var all, last := sorted + [m], |sorted| - 1;
    forall i, j | 0 <= i < j < |all| ensures ComesFirst(all[i], all[j], place) {
      if j < |sorted| {
        assert ComesFirst(sorted[i], sorted[j], place);
      } else if i < last {
        assert ComesFirst(sorted[i], sorted[last], place);
      }
    }
  }

  lemma {:induction false} PlacedInOrder(sorted: seq<Move>, m: Move, place: Move -> int)
    requires InBusinessOrder(sorted, place) && forall x :: x in sorted ==> place(x) < place(m)
    ensures InBusinessOrder(Place(sorted, m), place)
  {
    if sorted == [] {
    } else if !Earlier(m.time, sorted[|sorted| - 1].time) {
      assert sorted[|sorted| - 1] in sorted;
      LastComesLast(sorted, m, place);
    } else {
      var front, last := sorted[..|sorted| - 1], sorted[|sorted| - 1];
      PlacedInOrder(front, m, place);
      PlaceKeeps(front, m);
      var placed := Place(front, m);
      assert placed[|placed| - 1] in multiset(placed);
      if placed[|placed| - 1] in front {
        var i :| 0 <= i < |front| && front[i] == placed[|placed| - 1];
        assert ComesFirst(sorted[i], last, place);
      }
      LastComesLast(placed, last, place);
    }
  }

  lemma {:induction false} OrderedByPlace(moves: seq<Move>, place: Move -> int)
    requires forall i, j :: 0 <= i < j < |moves| ==> place(moves[i]) < place(moves[j])
    ensures InBusinessOrder(InOrder(moves), place)
  {
    if moves == [] {
    } else {
      var front, last := moves[..|moves| - 1], moves[|moves| - 1];
      OrderedByPlace(front, place);
      InOrderKeeps(front);
      forall x | x in InOrder(front) ensures place(x) < place(last) {
        assert x in multiset(InOrder(front));
        assert x in front;
      }
      PlacedInOrder(InOrder(front), last, place);
    }
  }

  /** What the first `n` moves come to. */
  function BalanceAfter(moves: seq<Move>, n: nat): int
    requires n <= |moves|
  {
    if n == 0 then 0 else BalanceAfter(moves, n - 1) + moves[n - 1].quantity
  }

  /** Move `i` is dated `from` or later, and the running sum turns negative with it. */
  predicate FallsBelow(moves: seq<Move>, from: int, i: nat)
    requires i < |moves|
  {
    moves[i].time.day >= from && BalanceAfter(moves, i) >= 0 && BalanceAfter(moves, i + 1) < 0
  }

  function FallsAt(moves: seq<Move>, from: int): set<nat> {
    set i: nat | i < |moves| && FallsBelow(moves, from, i)
  }

  lemma {:induction false} BalanceOfFront(moves: seq<Move>, n: nat)
    requires moves != [] && n < |moves|
    ensures BalanceAfter(moves[..|moves| - 1], n) == BalanceAfter(moves, n)
  {
    if n == 0 {
    } else {
      BalanceOfFront(moves, n - 1);
    }
  }

  lemma {:induction false} RunningIsBalance(moves: seq<Move>)
    ensures Running(moves) == BalanceAfter(moves, |moves|)
  {
    if moves == [] {
    } else {
      RunningIsBalance(moves[..|moves| - 1]);
      BalanceOfFront(moves, |moves| - 1);
    }
  }

  lemma {:induction false} FallsAreCounted(moves: seq<Move>, from: int)
    ensures Falls(moves, from) == |FallsAt(moves, from)|
  {
    if moves == [] {
      assert FallsAt(moves, from) == {};
    } else {
      var front, last: nat := moves[..|moves| - 1], |moves| - 1;
      FallsAreCounted(front, from);
      RunningIsBalance(moves);
      RunningIsBalance(front);
      BalanceOfFront(moves, last);
      forall i: nat | i < last ensures FallsBelow(moves, from, i) <==> FallsBelow(front, from, i) {
        BalanceOfFront(moves, i);
        BalanceOfFront(moves, i + 1);
      }
      assert FallsAt(moves, from)
          == FallsAt(front, from) + if FallsBelow(moves, from, last) then {last} else {};
    }
  }

  /**
   * What an episode is: gather an item's entries at the branch, up to the last day, into one move for
   * each document and time; put them in order of business time, and of posting within one time; and
   * count the moves from the first day on that take the running balance below zero.
   */
  lemma {:induction false} EpisodesAre(
      entries: seq<Entry>, location: LocationId, item: ItemId, from: int, to: int)
      returns (gathered: seq<Move>, moves: seq<Move>)
    ensures MovesAre(gathered, UpTo(entries, to), location, item) && multiset(moves) == multiset(gathered)
    ensures InBusinessOrder(moves, (m: Move) => FirstOf(UpTo(entries, to), m.document, m.time, location, item))
    ensures Episodes(entries, location, item, from, to) == |FallsAt(moves, from)|
  {
    var past := UpTo(entries, to);
    gathered := MovesOf(past, location, item);
    moves := InOrder(gathered);
    MovesOfAre(past, location, item);
    InOrderKeeps(gathered);
    FallsAreCounted(moves, from);
    forall i, j | 0 <= i < j < |gathered|
      ensures FirstOf(past, gathered[i].document, gathered[i].time, location, item)
            < FirstOf(past, gathered[j].document, gathered[j].time, location, item)
    {
      assert PostedBefore(gathered[i], gathered[j], past, location, item);
    }
    OrderedByPlace(gathered, (m: Move) => FirstOf(past, m.document, m.time, location, item));
  }
}
