/**
 * The items service on its tables (items.service.ts): each operation does what the transactions of
 * `ChangeLog` say, and so keeps the log and the item table telling the same.
 */
module ItemsService {
  import opened Options
  import opened ChangeLog

  datatype UnitProblem = UnitUnknown | SameAsBaseUnit | Duplicate | FactorNotPositive

  datatype UnitIssue = UnitIssue(index: nat, unit: UnitId, problem: UnitProblem)

  /** Whether purchase unit `i` has this problem; of the three about its unit it has the first that applies. */
  predicate HasProblem(
      steps: map<UnitId, nat>, baseUnit: UnitId, units: seq<PurchaseUnit>, i: nat, problem: UnitProblem)
    requires i < |units|
  {
    var unit := units[i].unit;
    match problem
    case UnitUnknown => unit !in steps
    case SameAsBaseUnit => unit in steps && unit == baseUnit
    case Duplicate => unit in steps && unit != baseUnit && Repeats(units, i)
    case FactorNotPositive => units[i].factor <= 0
  }

  predicate Repeats(units: seq<PurchaseUnit>, i: nat)
    requires i < |units|
  {
    exists j :: 0 <= j < i && units[j].unit == units[i].unit
  }

  function ProblemsAt(steps: map<UnitId, nat>, baseUnit: UnitId, units: seq<PurchaseUnit>, i: nat): seq<UnitIssue>
    requires i < |units|
  {
    var unit := units[i].unit;
    (if unit !in steps then [UnitIssue(i, unit, UnitUnknown)]
     else if unit == baseUnit then [UnitIssue(i, unit, SameAsBaseUnit)]
     else if Repeats(units, i) then [UnitIssue(i, unit, Duplicate)]
     else [])
    + if units[i].factor <= 0 then [UnitIssue(i, unit, FactorNotPositive)] else []
  }

  /** The issues of the first `n` purchase units, in order. */
  function IssuesOf(steps: map<UnitId, nat>, baseUnit: UnitId, units: seq<PurchaseUnit>, n: nat): seq<UnitIssue>
    requires n <= |units|
  {
    if n == 0 then [] else IssuesOf(steps, baseUnit, units, n - 1) + ProblemsAt(steps, baseUnit, units, n - 1)
  }

  /** An issue is listed exactly for a unit that has the problem, and named by its place and unit. */
  lemma {:induction false} IssuesMean(
    steps: map<UnitId, nat>, baseUnit: UnitId, units: seq<PurchaseUnit>, n: nat, issue: UnitIssue)
    requires n <= |units|
    ensures issue in IssuesOf(steps, baseUnit, units, n) <==>
              && issue.index < n && issue.unit == units[issue.index].unit
              && HasProblem(steps, baseUnit, units, issue.index, issue.problem)
  {
    if n > 0 {
      IssuesMean(steps, baseUnit, units, n - 1, issue);
    } else {
      assert IssuesOf(steps, baseUnit, units, n) == [];
    }
  }

  /** There is no issue exactly when the list can be stored. */
  lemma {:induction false} NoIssuesMeansValid(
      steps: map<UnitId, nat>, baseUnit: UnitId, units: seq<PurchaseUnit>, n: nat)
    requires n <= |units|
    ensures IssuesOf(steps, baseUnit, units, n) == [] <==> ValidUnits(steps, baseUnit, units[..n])
  {
    if n > 0 {
      NoIssuesMeansValid(steps, baseUnit, units, n - 1);
      OneMoreUnit(steps, baseUnit, units, n - 1);
    } else {
      assert units[..n] == [];
    }
  }

  method PurchaseUnitIssues(
      steps: map<UnitId, nat>, baseUnit: UnitId, units: seq<PurchaseUnit>) returns (issues: seq<UnitIssue>)
    ensures issues == IssuesOf(steps, baseUnit, units, |units|)
    ensures issues == [] <==> ValidUnits(steps, baseUnit, units)
    ensures forall issue :: issue in issues <==>
              && issue.index < |units| && issue.unit == units[issue.index].unit
              && HasProblem(steps, baseUnit, units, issue.index, issue.problem)
  {
    issues := [];
    var seen: set<UnitId> := {};
    for i := 0 to |units|
      invariant seen == set j | 0 <= j < i :: units[j].unit
      invariant issues == IssuesOf(steps, baseUnit, units, i)
    {
      var u := units[i];
      assert u.unit in seen <==> Repeats(units, i);
      if u.unit !in steps {
        issues := issues + [UnitIssue(i, u.unit, UnitUnknown)];
      } else if u.unit == baseUnit {
        issues := issues + [UnitIssue(i, u.unit, SameAsBaseUnit)];
      } else if u.unit in seen {
        issues := issues + [UnitIssue(i, u.unit, Duplicate)];
      }
      seen := seen + {u.unit};
      if u.factor <= 0 { issues := issues + [UnitIssue(i, u.unit, FactorNotPositive)]; }
    }
    NoIssuesMeansValid(steps, baseUnit, units, |units|);
    assert units[..|units|] == units;
    forall issue
      ensures issue in issues <==>
                && issue.index < |units| && issue.unit == units[issue.index].unit
                && HasProblem(steps, baseUnit, units, issue.index, issue.problem)
    {
      IssuesMean(steps, baseUnit, units, |units|, issue);
    }
  }

  lemma {:induction false} OneMoreUnit(steps: map<UnitId, nat>, baseUnit: UnitId, units: seq<PurchaseUnit>, i: nat)
    requires i < |units|
    ensures ValidUnits(steps, baseUnit, units[..i + 1]) <==>
              && ValidUnits(steps, baseUnit, units[..i])
              && units[i].unit in steps && units[i].unit != baseUnit && units[i].factor > 0
              && !Repeats(units, i)
  {
    if ValidUnits(steps, baseUnit, units[..i + 1]) {
      assert units[..i + 1][i] == units[i];
      forall j | 0 <= j < i
        ensures units[j].unit != units[i].unit && units[..i][j] == units[..i + 1][j]
      {
        assert units[..i + 1][j] == units[j];
      }
    }
  }

  /** What an edit really changes, field by field. */
  method Diff(item: Item, edit: Edit) returns (changes: map<Field, FromTo>)
    ensures changes == DiffOf(item, edit, FIELDS)
    ensures forall field :: field in changes <==> Changes(item, edit, field)
  {
    changes := map[];
    for i := 0 to |FIELDS|
      invariant changes == DiffOf(item, edit, FIELDS[..i])
    {
      assert FIELDS[..i + 1][..i] == FIELDS[..i];
      var wanted := Wanted(edit, FIELDS[i]);
      if wanted.Some? && wanted.value != Current(item, FIELDS[i]) {
        changes := changes[FIELDS[i] := FromTo(Current(item, FIELDS[i]), wanted.value)];
      }
    }
    assert FIELDS[..|FIELDS|] == FIELDS;
    forall field ensures field in changes <==> Changes(item, edit, field) {
      EveryField(field);
      DiffKeys(item, edit, FIELDS, field);
    }
  }

  class ItemMaster {
    var items: seq<Item>
    var changes: seq<Change>
    var counter: nat
    const steps: map<UnitId, nat>

    constructor (steps: map<UnitId, nat>)
      ensures Stored() == Store([], [], 0, steps) && Valid()
    {
      items, changes, counter := [], [], 0;
      this.steps := steps;
      new;
      assert Table(items) == map[];
    }

    function Stored(): Store
      reads this
    {
      Store(items, changes, counter, steps)
    }

    predicate Valid()
      reads this
    {
      StoreOk(Stored())
    }

    /** The record as it now is, under the version it was given. */
    method RecordChange(id: ItemId, action: Action)
      requires id < |items|
      modifies this`changes
      ensures changes == old(changes)
                + [Change(items[id].version, action,
                    ItemRecord(id, Logged(SnapshotOf(id, items[id]), items[id].version)))]
    {
      var item := items[id];
      changes := changes + [Change(item.version, action, ItemRecord(id, Logged(SnapshotOf(id, item), item.version)))];
    }

    method NextVersion() returns (version: nat)
      modifies this`counter
      ensures version == counter == old(counter) + 1
    {
      counter := counter + 1;
      version := counter;
    }

    method Create(n: NewItem) returns (refusal: Option<Refusal>)
      requires Valid()
      modifies this
      ensures Valid()
      ensures var r := AfterCreate(old(Stored()), n);
              Stored() == Or(old(Stored()), r) && refusal == if r.Success? then None else Some(r.error)
    {
      ghost var before := World(Stored(), Pos(map[], 0));
      TakeKeepsStore(before, CreateStep(n));
      if n.baseUnit !in steps { return Some(UnknownUnit); }
      var issues := PurchaseUnitIssues(steps, n.baseUnit, n.purchaseUnits);
      if issues != [] { return Some(InvalidPurchaseUnits); }
      if exists i :: 0 <= i < |items| && items[i].code == n.code { return Some(ItemCodeTaken); }
      var version := NextVersion();
      items := items + [Item(n.code, n.nameTh, n.nameEn, n.baseUnit, n.variableWeight, n.shelfLifeDays, true,
                             SortUnits(n.purchaseUnits), Tolerances(None, None), None, version)];
      RecordChange(|items| - 1, Created);
      refusal := None;
    }

    method Update(id: ItemId, edit: Edit) returns (refusal: Option<Refusal>)
      requires Valid()
      modifies this
      ensures Valid()
      ensures var r := AfterUpdate(old(Stored()), id, edit);
              Stored() == Or(old(Stored()), r) && refusal == if r.Success? then None else Some(r.error)
    {
      ghost var before := World(Stored(), Pos(map[], 0));
      TakeKeepsStore(before, UpdateStep(id, edit));
      if id >= |items| { return Some(ItemNotFound); }
      var current := items[id];
      if current.version != edit.version { return Some(ItemChanged); }
      if edit.purchaseUnits.Some? {
        var issues := PurchaseUnitIssues(steps, current.baseUnit, edit.purchaseUnits.value);
        if issues != [] { return Some(InvalidPurchaseUnits); }
      }
      var next := Normalised(edit);
      var diff := Diff(current, next);
      if diff == map[] { return None; }
      var version := NextVersion();
      items := items[id := Edited(current, next, version)];
      RecordChange(id, Updated);
      refusal := None;
    }

    /** Writes `items` alone: `changes` and `counter` are outside its frame. */
    method SetReceivingTolerances(id: ItemId, wanted: Tolerances) returns (refusal: Option<Refusal>)
      requires Valid()
      modifies this`items
      ensures Valid()
      ensures var r := AfterTolerances(old(Stored()), id, wanted);
              Stored() == Or(old(Stored()), r) && refusal == if r.Success? then None else Some(r.error)
    {
      ghost var before := World(Stored(), Pos(map[], 0));
      TakeKeepsStore(before, TolerancesStep(id, wanted));
      if !TolerancesOk(wanted) { return Some(InvalidTolerances); }
      if id >= |items| { return Some(ItemNotFound); }
      if items[id].tolerances != wanted {
        items := items[id := items[id].(tolerances := wanted)];
      } else {
        assert items[id := items[id].(tolerances := wanted)] == items;
      }
      refusal := None;
    }

    method SetRequisitionUnit(id: ItemId, wanted: Option<int>) returns (refusal: Option<Refusal>)
      requires Valid()
      modifies this`items
      ensures Valid()
      ensures var r := AfterRequisitionUnit(old(Stored()), id, wanted);
              Stored() == Or(old(Stored()), r) && refusal == if r.Success? then None else Some(r.error)
    {
      ghost var before := World(Stored(), Pos(map[], 0));
      TakeKeepsStore(before, RequisitionUnitStep(id, wanted));
      if id >= |items| { return Some(ItemNotFound); }
      if wanted.Some? && !RequisitionUnitOk(steps, items[id].baseUnit, wanted.value) {
        return Some(InvalidRequisitionUnit);
      }
      if items[id].requisitionUnit != wanted {
        items := items[id := items[id].(requisitionUnit := wanted)];
      } else {
        assert items[id := items[id].(requisitionUnit := wanted)] == items;
      }
      refusal := None;
    }
  }
}
