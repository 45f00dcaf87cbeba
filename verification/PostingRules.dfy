/**
 * Movements, the balance rows they make, and `ApplyMovements`, which judges them (posting-rules.ts).
 * Quantities and costs are integers, each at one scale throughout.
 */
module PostingRules {
  import opened Options

  type LotId = nat
  type ItemId = nat
  type LocationId = nat

  datatype LocationType = Plant | Warehouse | Branch | InTransit | Subcontractor

  /** The type of every location, as the locations table keeps it. */
  type Sites = LocationId -> LocationType

  /** A signed quantity and, for variable-weight items, a signed piece count. */
  datatype Amount = Amount(quantity: int, pieces: Option<int>)

  /** One balance row: a lot at a location. */
  datatype Key = Key(lot: LotId, location: LocationId)

  /** A signed amount on the row `Row()`; `reverses` is the place of a negated entry in the ledger. */
  datatype Movement = Movement(
    lineNo: nat, lot: LotId, item: ItemId, location: LocationId,
    amount: Amount, unitCost: int, reverses: Option<nat>)
  {
    function Row(): Key { Key(lot, location) }
  }

  type Balances = map<Key, Amount>

  const ZERO := Amount(0, None)

  /** Addition with `None` as its neutral element. */
  function SumSecondary(a: Option<int>, b: Option<int>): Option<int> {
    match (a, b)
    case (None, _) => b
    case (_, None) => a
    case (Some(x), Some(y)) => Some(x + y)
  }

  function Add(a: Amount, b: Amount): Amount {
    Amount(a.quantity + b.quantity, SumSecondary(a.pieces, b.pieces))
  }

  function Negate(a: Amount): Amount {
    Amount(-a.quantity, if a.pieces.None? then None else Some(-a.pieces.value))
  }

  /** An absent row reads as nothing. */
  function At(balances: Balances, k: Key): Amount {
    if k in balances then balances[k] else ZERO
  }

  function Keys(ms: seq<Movement>): set<Key> {
    set m | m in ms :: m.Row()
  }

  /** All amounts of the movements on row `k`, added up from `ZERO`. */
  function Total(ms: seq<Movement>, k: Key): Amount {
    if ms == [] then ZERO
    else
      var last := ms[|ms| - 1];
      var before := Total(ms[..|ms| - 1], k);
      if last.Row() == k then Add(before, last.amount) else before
  }

  /** The balances the movements alone make: one row per touched lot and location. */
  function Net(ms: seq<Movement>): Balances {
    map k | k in Keys(ms) :: Total(ms, k)
  }

  /** Rows of `net` are inserted where `balances` has none, and added where it has one. */
  function Upsert(balances: Balances, net: Balances): Balances {
    map k | k in balances.Keys + net.Keys ::
      if k !in net then balances[k] else if k !in balances then net[k] else Add(balances[k], net[k])
  }

  lemma {:induction false} TotalAppend(a: seq<Movement>, b: seq<Movement>, k: Key)
    ensures Total(a + b, k) == Add(Total(a, k), Total(b, k))
  {
    if b == [] {
      assert a + b == a;
    } else {
      assert (a + b)[..|a + b| - 1] == a + b[..|b| - 1];
      TotalAppend(a, b[..|b| - 1], k);
    }
  }

  lemma {:induction false} TotalUntouched(ms: seq<Movement>, k: Key)
    requires k !in Keys(ms)
    ensures Total(ms, k) == ZERO
  {
    if ms == [] {
    } else {
      assert ms[|ms| - 1] in ms;
      assert Keys(ms[..|ms| - 1]) <= Keys(ms);
      TotalUntouched(ms[..|ms| - 1], k);
    }
  }

  /**
   * The snapshot kept by upserts is the sum of the entries: adding one posting's net changes to
   * the balances of the entries so far gives the balances of all the entries, null piece counts
   * included.
   */
  lemma {:induction false} UpsertIsNet(a: seq<Movement>, b: seq<Movement>)
    ensures Upsert(Net(a), Net(b)) == Net(a + b)
  {
    assert Keys(a + b) == Keys(a) + Keys(b) by {
      forall m | m in a + b ensures m in a || m in b {}
      forall k | k in Keys(a) + Keys(b) ensures k in Keys(a + b) {
        var m :| (m in a || m in b) && m.Row() == k;
        assert m in a + b;
      }
    }
    forall k | k in Keys(a + b) ensures Upsert(Net(a), Net(b))[k] == Total(a + b, k) {
      TotalAppend(a, b, k);
      if k !in Keys(a) { TotalUntouched(a, k); }
      if k !in Keys(b) { TotalUntouched(b, k); }
    }
  }

  /** A balance recomputed from movements reads, row or no row, as their sum. */
  lemma {:induction false} AtNet(ms: seq<Movement>, k: Key)
    ensures At(Net(ms), k) == Total(ms, k)
  {
    if k !in Keys(ms) { TotalUntouched(ms, k); }
  }

  // --- Judging a posting ------------------------------------------------------------------

  function After(current: Balances, ms: seq<Movement>, k: Key): Amount {
    Add(At(current, k), Total(ms, k))
  }

  /** The touched rows that would go below zero somewhere other than a branch. */
  function Offending(sites: Sites, current: Balances, ms: seq<Movement>): set<Key> {
    set k | k in Keys(ms) && sites(k.location) != Branch && After(current, ms, k).quantity < 0
  }

  /** Locks are taken, and postings judged, by lot and then by location. */
  predicate Before(a: Key, b: Key) {
    a.lot < b.lot || (a.lot == b.lot && a.location < b.location)
  }

  datatype Outcome =
    | Applied(balances: Balances, negativeAtBranch: set<Key>)
    | NegativeStock(kind: LocationType, key: Key, quantity: int)

  /** What `ApplyMovements` answers: the rows after the document, or the first row that refuses it. */
  ghost predicate Judged(sites: Sites, current: Balances, ms: seq<Movement>, r: Outcome) {
    match r
    case Applied(balances, negative) =>
      && Offending(sites, current, ms) == {}
      && balances == (map k | k in Keys(ms) :: After(current, ms, k))
      && negative == (set k | k in Keys(ms) && After(current, ms, k).quantity < 0)
    case NegativeStock(kind, key, quantity) =>
      && key in Offending(sites, current, ms)
      && (forall k :: k in Offending(sites, current, ms) && k != key ==>
            key.lot < k.lot || (key.lot == k.lot && key.location < k.location))
      && kind == sites(key.location)
      && quantity == After(current, ms, key).quantity
  }

  /** There is one answer, and it depends on the stored rows only through what the touched keys read. */
  lemma {:induction false} JudgedOnce(
      sites: Sites, current: Balances, other: Balances, ms: seq<Movement>, r: Outcome, q: Outcome)
    requires forall k :: k in Keys(ms) ==> At(current, k) == At(other, k)
    requires Judged(sites, current, ms, r) && Judged(sites, other, ms, q)
    ensures r == q
  {
    assert Offending(sites, current, ms) == Offending(sites, other, ms);
    match (r, q)
    case (Applied(b, n), Applied(c, o)) =>
      assert b == c;
      assert n == o;
    case (NegativeStock(_, j, _), NegativeStock(_, k, _)) =>
      assert !Before(j, k) && !Before(k, j);
      assert j == k;
    case (_, _) =>
  }

  /** The keys in lock order: an insertion of each into the sorted ones before it. */
  function LockOrder(keys: seq<Key>): (sorted: seq<Key>)
    ensures |sorted| == |keys|
    ensures forall k :: k in sorted <==> k in keys
    ensures Distinct(keys) ==> Ordered(sorted)
  {
    if keys == [] then []
    else
      var last := keys[|keys| - 1];
      assert keys == keys[..|keys| - 1] + [last];
      Insert(LockOrder(keys[..|keys| - 1]), last)
  }

  function Insert(sorted: seq<Key>, k: Key): (r: seq<Key>)
    ensures |r| == |sorted| + 1
    ensures forall j :: j in r <==> j == k || j in sorted
    ensures Ordered(sorted) && k !in sorted ==> Ordered(r)
  {
    if sorted == [] then [k]
    else if Before(k, sorted[0]) then [k] + sorted
    else
      var rest := Insert(sorted[1..], k);
      assert sorted == [sorted[0]] + sorted[1..];
      assert forall j :: j in rest <==> j == k || j in sorted[1..];
      assert sorted[0] in sorted;
      assert Ordered(sorted) && k !in sorted ==> forall j :: j in rest ==> Before(sorted[0], j);
      [sorted[0]] + rest
  }

  predicate Ordered(keys: seq<Key>) {
    forall i, j :: 0 <= i < j < |keys| ==> Before(keys[i], keys[j])
  }

  /** In lock order keys go by lot and then by location, and none comes twice. */
  lemma {:induction false} OrderedMeans(keys: seq<Key>)
    requires Distinct(keys)
    ensures
      var sorted := LockOrder(keys);
      forall i, j :: 0 <= i < j < |sorted| ==>
        sorted[i].lot < sorted[j].lot || (sorted[i].lot == sorted[j].lot && sorted[i].location < sorted[j].location)
  {
    var sorted := LockOrder(keys);
    forall i, j | 0 <= i < j < |sorted|
      ensures
        sorted[i].lot < sorted[j].lot || (sorted[i].lot == sorted[j].lot && sorted[i].location < sorted[j].location)
    {
      assert Before(sorted[i], sorted[j]);
    }
  }

  predicate Distinct<T(==)>(xs: seq<T>) {
    forall i, j :: 0 <= i < j < |xs| ==> xs[i] != xs[j]
  }

  /** The net change of a document to each row it touches, and those rows in lock order. */
  method NetChanges(ms: seq<Movement>) returns (keys: seq<Key>, net: Balances)
    ensures net == Net(ms)
    ensures Ordered(keys) && (forall k :: k in keys <==> k in net)
  {
    net := map[];
    var found: seq<Key> := [];
    for i := 0 to |ms|
      invariant net == Net(ms[..i])
      invariant Distinct(found) && forall k :: k in found <==> k in net
    {
      var m := ms[i];
      assert ms[..i + 1] == ms[..i] + [m];
      assert ms[..i + 1][..i] == ms[..i];
      AtNet(ms[..i], m.Row());
      if m.Row() !in net { found := found + [m.Row()]; }
      net := net[m.Row() := Add(At(net, m.Row()), m.amount)];
    }
    assert ms[..|ms|] == ms;
    keys := LockOrder(found);
  }

  /** Of the rows judged in lock order, the first that refuses is the least of all that would. */
  lemma {:induction false} FirstOffending(sites: Sites, current: Balances, ms: seq<Movement>, keys: seq<Key>, i: nat)
    requires Ordered(keys) && forall k :: k in keys <==> k in Keys(ms)
    requires i < |keys|
    requires forall j :: 0 <= j < i ==> keys[j] !in Offending(sites, current, ms)
    ensures forall k :: k in Offending(sites, current, ms) ==> !Before(k, keys[i])
  {
    forall k | k in Offending(sites, current, ms) ensures !Before(k, keys[i]) {
      assert k in keys;
      var at :| 0 <= at < |keys| && keys[at] == k;
    }
  }

  /** A walk past the last key has every row after the document. */
  lemma {:induction false} NoneRefused(
      sites: Sites, current: Balances, ms: seq<Movement>, keys: seq<Key>, balances: Balances)
    requires forall k :: k in Keys(ms) ==> k in keys
    requires forall j :: 0 <= j < |keys| ==> keys[j] in balances && keys[j] !in Offending(sites, current, ms)
    requires forall k :: k in balances ==> k in Keys(ms) && balances[k] == After(current, ms, k)
    ensures Offending(sites, current, ms) == {}
    ensures balances == map k | k in Keys(ms) :: After(current, ms, k)
  {
    forall k | k in Keys(ms) ensures k in balances && k !in Offending(sites, current, ms) {
      assert k in keys;
    }
    assert balances.Keys == Keys(ms);
  }

  /** Walks the net changes in lock order and stops at the first row of `Offending`. */
  method ApplyMovements(sites: Sites, current: Balances, ms: seq<Movement>) returns (r: Outcome)
    ensures Judged(sites, current, ms, r)
  {
    var keys, net := NetChanges(ms);
    var balances: Balances := map[];
    var negative: set<Key> := {};
    for i := 0 to |keys|
      invariant forall j :: 0 <= j < i ==> keys[j] in balances && keys[j] !in Offending(sites, current, ms)
      invariant forall k :: k in balances ==> k in net && balances[k] == After(current, ms, k)
      invariant forall k :: k in negative <==> k in balances && balances[k].quantity < 0
    {
      var k := keys[i];
      assert k in keys;
      var after := Add(At(current, k), net[k]);
      if after.quantity < 0 {
        if sites(k.location) == Branch {
          negative := negative + {k};
        } else {
          FirstOffending(sites, current, ms, keys, i);
          return NegativeStock(sites(k.location), k, after.quantity);
        }
      }
      balances := balances[k := after];
    }
    NoneRefused(sites, current, ms, keys, balances);
    r := Applied(balances, negative);
  }
}
