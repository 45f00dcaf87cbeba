/**
 * Postings that run at the same time. Each transaction locks and reads the balance rows it touches
 * that exist by then, checks its document against what it read, and later upserts and commits; any
 * number of others may take any of these steps in between. A row that did not exist when a
 * transaction looked is not locked by it, and another may insert it before it commits.
 */
module ConcurrentPosting {
  import opened Options
  import opened PostingRules
  import opened Ledger
  import opened LedgerInvariant
  import opened LedgerEffects
  import opened DemoStock

  type TxId = nat

  datatype Phase = Started | Locked(rows: Balances)

  datatype Transaction = Transaction(document: DocumentId, at: Instant, moves: seq<Movement>, phase: Phase)

  /** The committed tables, and the transactions that have not ended. */
  datatype Database = Database(entries: seq<Entry>, balances: Balances, open: map<TxId, Transaction>)

  datatype TxStep =
    | Begin(tx: TxId, document: DocumentId, at: Instant, moves: seq<Movement>)
    | LockAndRead(tx: TxId, seen: set<Key>)
    | Commit(tx: TxId)
    | Abort(tx: TxId)
    | RebuildAll

  /** What `tx` holds FOR UPDATE. */
  function Held(d: Database, tx: TxId): set<Key> {
    if tx in d.open && d.open[tx].phase.Locked? then d.open[tx].phase.rows.Keys else {}
  }

  /** Nobody else holds one of these rows. */
  ghost predicate FreeFor(d: Database, tx: TxId, keys: set<Key>) {
    forall other :: other in d.open && other != tx ==> Held(d, other) !! keys
  }

  /**
   * The rows `moves` touches, of those a transaction sees. A statement sees the rows there were when
   * it began, and then waits for its locks: a row inserted while it waits is neither read nor held.
   */
  function ExistingRows(d: Database, moves: seq<Movement>, seen: set<Key>): Balances {
    map k | k in d.balances && k in Keys(moves) && k in seen :: d.balances[k]
  }

  /** A lock waits for its rows, and so does an upsert; a commit passed its check on what it read. */
  ghost predicate Enabled(sites: Sites, d: Database, step: TxStep) {
    match step
    case Begin(tx, _, _, _) => tx !in d.open
    case LockAndRead(tx, seen) =>
      && tx in d.open && d.open[tx].phase.Started?
      && FreeFor(d, tx, ExistingRows(d, d.open[tx].moves, seen).Keys)
    case Commit(tx) =>
      && tx in d.open && d.open[tx].phase.Locked?
      && Offending(sites, d.open[tx].phase.rows, d.open[tx].moves) == {}
      && FreeFor(d, tx, Keys(d.open[tx].moves))
    case Abort(tx) => tx in d.open
    // LOCK TABLE .. IN EXCLUSIVE MODE waits for every transaction that has touched the table.
    case RebuildAll => forall tx :: tx in d.open ==> d.open[tx].phase.Started?
  }

  function Close(d: Database, tx: TxId): map<TxId, Transaction> {
    d.open - {tx}
  }

  ghost function Take(sites: Sites, d: Database, step: TxStep): Database {
    if !Enabled(sites, d, step) then d
    else
      match step
      case Begin(tx, document, at, moves) =>
        d.(open := d.open[tx := Transaction(document, at, moves, Started)])
      case LockAndRead(tx, seen) =>
        d.(open := d.open[tx := d.open[tx].(phase := Locked(ExistingRows(d, d.open[tx].moves, seen)))])
      case Commit(tx) =>
        var t := d.open[tx];
        Database(d.entries + Stamp(t.document, t.at, t.moves), Upsert(d.balances, Net(t.moves)), Close(d, tx))
      case Abort(tx) => d.(open := Close(d, tx))
      case RebuildAll => d.(balances := Net(Moves(d.entries)))
  }

  const NOTHING := Database([], map[], map[])

  /** Any steps in any order; one that has to wait, or was refused, changes nothing. */
  ghost function Schedule(sites: Sites, steps: seq<TxStep>): Database {
    if steps == [] then NOTHING else Take(sites, Schedule(sites, steps[..|steps| - 1]), steps[|steps| - 1])
  }

  /** A held row still reads as its holder read it, and no row is held twice. */
  ghost predicate LocksOk(d: Database) {
    && (forall tx :: tx in d.open && d.open[tx].phase.Locked? ==> LockOk(d, d.open[tx]))
    && forall tx, other :: tx in d.open && other in d.open && tx != other ==> Held(d, tx) !! Held(d, other)
  }

  ghost predicate LockOk(d: Database, t: Transaction)
    requires t.phase.Locked?
  {
    forall k :: k in t.phase.rows ==> k in Keys(t.moves) && k in d.balances && d.balances[k] == t.phase.rows[k]
  }

  ghost predicate Consistent(sites: Sites, d: Database) {
    && d.balances == Net(Moves(d.entries))
    && NonNegative(sites, d.balances)
    && LocksOk(d)
  }

  /**
   * The heart of it: a check made on the rows that existed at lock time still holds at commit. A
   * row that was there is held and unchanged; one that was not can only be added to, because taking
   * from it would have been refused.
   */
  lemma {:induction false} CheckStillHolds(sites: Sites, d: Database, tx: TxId)
    requires Consistent(sites, d) && Enabled(sites, d, Commit(tx))
    ensures Offending(sites, d.balances, d.open[tx].moves) == {}
  {
    var t := d.open[tx];
    forall k | k in Keys(t.moves) && sites(k.location) != Branch
      ensures After(d.balances, t.moves, k).quantity >= 0
    {
      assert k !in Offending(sites, t.phase.rows, t.moves);
      assert LockOk(d, t);
    }
  }

  lemma {:induction false} CommitKeeps(sites: Sites, d: Database, tx: TxId)
    requires Consistent(sites, d) && Enabled(sites, d, Commit(tx))
    ensures Consistent(sites, Take(sites, d, Commit(tx)))
  {
    var t, n := d.open[tx], Take(sites, d, Commit(tx));
    CheckStillHolds(sites, d, tx);
    MovesAppend(d.entries, Stamp(t.document, t.at, t.moves));
    MovesStamp(t.document, t.at, t.moves);
    UpsertIsNet(Moves(d.entries), t.moves);
    forall k | k in n.balances && sites(k.location) != Branch ensures n.balances[k].quantity >= 0 {
      if k in Keys(t.moves) { assert k !in Offending(sites, d.balances, t.moves); }
    }
    forall other | other in n.open && n.open[other].phase.Locked? ensures LockOk(n, n.open[other]) {
      assert LockOk(d, d.open[other]);
      assert Held(d, other) !! Keys(t.moves);
      forall k | k in n.open[other].phase.rows ensures k !in Keys(t.moves) { assert k in Held(d, other); }
    }
    forall a, b | a in n.open && b in n.open && a != b ensures Held(n, a) !! Held(n, b) {
      assert Held(n, a) == Held(d, a) && Held(n, b) == Held(d, b);
    }
  }

  lemma {:induction false} LockKeeps(sites: Sites, d: Database, tx: TxId, seen: set<Key>)
    requires Consistent(sites, d) && Enabled(sites, d, LockAndRead(tx, seen))
    ensures Consistent(sites, Take(sites, d, LockAndRead(tx, seen)))
  {
    var n := Take(sites, d, LockAndRead(tx, seen));
    forall other | other in n.open && n.open[other].phase.Locked? ensures LockOk(n, n.open[other]) {
      if other != tx { assert LockOk(d, d.open[other]); }
    }
    forall a, b | a in n.open && b in n.open && a != b ensures Held(n, a) !! Held(n, b) {
      assert a != tx ==> Held(n, a) == Held(d, a);
      assert b != tx ==> Held(n, b) == Held(d, b);
      assert Held(n, tx) == ExistingRows(d, d.open[tx].moves, seen).Keys;
    }
  }

  lemma {:induction false} OtherStepsKeep(sites: Sites, d: Database, step: TxStep)
    requires Consistent(sites, d) && (step.Begin? || step.Abort? || step.RebuildAll?)
    ensures Consistent(sites, Take(sites, d, step))
  {
    var n := Take(sites, d, step);
    forall other | other in n.open && n.open[other].phase.Locked? ensures LockOk(n, n.open[other]) {
      assert LockOk(d, d.open[other]);
    }
    forall a, b | a in n.open && b in n.open && a != b ensures Held(n, a) !! Held(n, b) {
      assert a in d.open ==> Held(n, a) == Held(d, a);
      assert b in d.open ==> Held(n, b) == Held(d, b);
    }
  }

  /** Whatever transactions run at once, nothing is committed below zero where it may not be. */
  lemma {:induction false} NeverOversold(sites: Sites, steps: seq<TxStep>)
    ensures Consistent(sites, Schedule(sites, steps))
  {
    if steps == [] {
    } else {
      var d, step := Schedule(sites, steps[..|steps| - 1]), steps[|steps| - 1];
      NeverOversold(sites, steps[..|steps| - 1]);
      if Enabled(sites, d, step) {
        match step
        case Commit(tx) => CommitKeeps(sites, d, tx);
        case LockAndRead(tx, seen) => LockKeeps(sites, d, tx, seen);
        case _ => OtherStepsKeep(sites, d, step);
      }
    }
  }

  // --- One after another ------------------------------------------------------------------------

  datatype Written = Written(document: DocumentId, at: Instant, moves: seq<Movement>)

  /** What was committed, in the order of the commits. */
  ghost function Commits(sites: Sites, steps: seq<TxStep>): seq<Written> {
    if steps == [] then []
    else
      var before, step := Commits(sites, steps[..|steps| - 1]), steps[|steps| - 1];
      var d := Schedule(sites, steps[..|steps| - 1]);
      if step.Commit? && Enabled(sites, d, step)
      then before + [Written(d.open[step.tx].document, d.open[step.tx].at, d.open[step.tx].moves)]
      else before
  }

  /** The same postings written one after another by the ledger that recomputes every balance. */
  function OneByOne(sites: Sites, postings: seq<Written>): Result<Demo, Rule> {
    if postings == [] then Success(Demo([], [], [], map[], 0))
    else
      var d :- OneByOne(sites, postings[..|postings| - 1]);
      var last := postings[|postings| - 1];
      WriteDemo(sites, d, last.document, last.at, last.moves)
  }

  lemma {:induction false} OneMore(sites: Sites, postings: seq<Written>, last: Written)
    requires OneByOne(sites, postings).Success?
    ensures OneByOne(sites, postings + [last])
         == WriteDemo(sites, OneByOne(sites, postings).value, last.document, last.at, last.moves)
  {
    assert (postings + [last])[..|postings|] == postings;
  }

  /**
   * Concurrent postings are serialisable: taken in commit order, the simple ledger accepts every
   * one of them and ends with the same entries.
   */
  lemma {:induction false} Serialisable(sites: Sites, steps: seq<TxStep>)
    ensures
      var alone := OneByOne(sites, Commits(sites, steps));
      alone.Success? && alone.value.entries == Schedule(sites, steps).entries
  {
    if steps == [] {
    } else {
      var before, step := steps[..|steps| - 1], steps[|steps| - 1];
      var d := Schedule(sites, before);
      Serialisable(sites, before);
      NeverOversold(sites, before);
      if step.Commit? && Enabled(sites, d, step) {
        var t := d.open[step.tx];
        CheckStillHolds(sites, d, step.tx);
        OneMore(sites, Commits(sites, before), Written(t.document, t.at, t.moves));
      }
    }
  }

  // --- Alone --------------------------------------------------------------------------------------

  /** The three steps of one transaction that nothing else comes between, seeing every row there is. */
  ghost function PostsAlone(
      sites: Sites, d: Database, tx: TxId, document: DocumentId, at: Instant, moves: seq<Movement>): Database {
    var begun := Take(sites, d, Begin(tx, document, at, moves));
    Take(sites, Take(sites, begun, LockAndRead(tx, d.balances.Keys)), Commit(tx))
  }

  /**
   * Alone, a posting commits exactly when it leaves every row off a branch at zero or more; otherwise
   * nothing is written and its locks wait to be given up.
   */
  lemma {:induction false} AloneItIsPosted(
      sites: Sites, d: Database, tx: TxId, document: DocumentId, at: Instant, moves: seq<Movement>)
    requires Consistent(sites, d) && d.open == map[]
    ensures
      var n := PostsAlone(sites, d, tx, document, at, moves);
      if StaysInStock(sites, d.balances, moves) then
        && n.open == map[] && |n.entries| == |d.entries| + |moves| && n.entries[..|d.entries|] == d.entries
        && forall i :: 0 <= i < |moves| ==> n.entries[|d.entries| + i] == Entry(document, at, moves[i])
      else n.entries == d.entries && n.balances == d.balances
  {
    var begun := Take(sites, d, Begin(tx, document, at, moves));
    assert begun.open == map[tx := Transaction(document, at, moves, Started)];
    var locked := Take(sites, begun, LockAndRead(tx, d.balances.Keys));
    var rows := ExistingRows(d, moves, d.balances.Keys);
    assert locked.open == map[tx := Transaction(document, at, moves, Locked(rows))];
    assert locked.open - {tx} == map[];
    forall k | k in Keys(moves) ensures At(rows, k) == At(d.balances, k) {}
    assert Offending(sites, rows, moves) == Offending(sites, d.balances, moves);
    InStockWhen(sites, d.balances, moves);
  }
}
