/** Sums over the entries of any weight: a quantity at one place, pieces, value. */
module LedgerSums {
  import opened Options
  import opened PostingRules
  import opened Ledger
  import opened LedgerInvariant

  function Sum(es: seq<Entry>, w: Entry -> int): int {
    if es == [] then 0 else Sum(es[..|es| - 1], w) + w(es[|es| - 1])
  }

  lemma {:induction false} SumAppend(a: seq<Entry>, b: seq<Entry>, w: Entry -> int)
    ensures Sum(a + b, w) == Sum(a, w) + Sum(b, w)
  {
    if b == [] {
      assert a + b == a;
    } else {
      assert (a + b)[..|a + b| - 1] == a + b[..|b| - 1];
      SumAppend(a, b[..|b| - 1], w);
    }
  }

  /** Weights that add up entry by entry add up over the ledger. */
  lemma {:induction false} SumSplit(es: seq<Entry>, u: Entry -> int, v: Entry -> int, w: Entry -> int)
    requires forall i :: 0 <= i < |es| ==> w(es[i]) == u(es[i]) + v(es[i])
    ensures Sum(es, w) == Sum(es, u) + Sum(es, v)
  {
    if es == [] {
    } else {
      SumSplit(es[..|es| - 1], u, v, w);
    }
  }

  lemma {:induction false} SumAgree(es: seq<Entry>, u: Entry -> int, w: Entry -> int)
    requires forall i :: 0 <= i < |es| ==> w(es[i]) == u(es[i])
    ensures Sum(es, w) == Sum(es, u)
  {
    if es == [] {
    } else {
      SumAgree(es[..|es| - 1], u, w);
    }
  }

  lemma {:induction false} SumNotPositive(es: seq<Entry>, w: Entry -> int)
    requires forall i :: 0 <= i < |es| ==> w(es[i]) <= 0
    ensures Sum(es, w) <= 0
  {
    if es == [] {
    } else {
      SumNotPositive(es[..|es| - 1], w);
    }
  }

  // --- Weights --------------------------------------------------------------------------------

  function QuantityAt(k: Key): Entry -> int {
    (e: Entry) => if e.move.Row() == k then e.move.amount.quantity else 0
  }

  /** Pieces at one place, where no count weighs nothing. */
  function PiecesAt(k: Key): Entry -> int {
    (e: Entry) => if e.move.Row() == k && e.move.amount.pieces.Some? then e.move.amount.pieces.value else 0
  }

  function Value(): Entry -> int {
    (e: Entry) => e.move.amount.quantity * e.move.unitCost
  }

  /** A weight that a reversal turns around. */
  ghost predicate Odd(w: Entry -> int) {
    forall e: Entry, d: DocumentId, at: Instant, place: nat :: w(Entry(d, at, Negated(e.move, place))) == -w(e)
  }

  lemma {:induction false} WeightsAreOdd(k: Key)
    ensures Odd(QuantityAt(k)) && Odd(PiecesAt(k)) && Odd(Value())
  {
    forall e: Entry, d: DocumentId, at: Instant, place: nat
      ensures Value()(Entry(d, at, Negated(e.move, place))) == -Value()(e)
    {
      var q, c := e.move.amount.quantity, e.move.unitCost;
      assert (-q) * c == -(q * c);
    }
  }

  lemma {:induction false} TotalIsSum(es: seq<Entry>, k: Key)
    ensures Total(Moves(es), k).quantity == Sum(es, QuantityAt(k))
    ensures (if Total(Moves(es), k).pieces.Some? then Total(Moves(es), k).pieces.value else 0) == Sum(es, PiecesAt(k))
  {
    if es == [] {
    } else {
      assert Moves(es)[..|es| - 1] == Moves(es[..|es| - 1]);
      TotalIsSum(es[..|es| - 1], k);
    }
  }

  // --- One document's entries ------------------------------------------------------------------

  function Only(w: Entry -> int, id: DocumentId): Entry -> int {
    (e: Entry) => if e.document == id then w(e) else 0
  }

  /** Only what a document brought by the end of a day. */
  function OnlyBy(w: Entry -> int, id: DocumentId, day: int): Entry -> int {
    (e: Entry) => if e.document == id && e.time.day <= day then w(e) else 0
  }

  lemma {:induction false} SumOnly(es: seq<Entry>, w: Entry -> int, id: DocumentId)
    ensures Sum(es, Only(w, id)) == Sum(EntriesOf(es, id), w)
  {
    if es == [] {
    } else {
      SumOnly(es[..|es| - 1], w, id);
    }
  }

  lemma {:induction false} SumOnlyBy(es: seq<Entry>, w: Entry -> int, id: DocumentId, dated: int, day: int)
    requires forall i :: 0 <= i < |es| && es[i].document == id ==> es[i].time.day == dated
    ensures Sum(es, OnlyBy(w, id, day)) == if dated <= day then Sum(EntriesOf(es, id), w) else 0
  {
    if es == [] {
    } else {
      SumOnlyBy(es[..|es| - 1], w, id, dated, day);
    }
  }

  lemma {:induction false} CancelledSum(all: seq<Entry>, original: seq<Entry>, reversed: seq<Entry>, w: Entry -> int)
    requires Cancels(all, original, reversed) && Odd(w)
    ensures Sum(reversed, w) == -Sum(original, w)
  {
    if original == [] {
    } else {
      var e, f := original[|original| - 1], reversed[|reversed| - 1];
      assert f == Entry(f.document, f.time, Negated(e.move, f.move.reverses.value));
      CancelledSum(all, original[..|original| - 1], reversed[..|reversed| - 1], w);
    }
  }
}
