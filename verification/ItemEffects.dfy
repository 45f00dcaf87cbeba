/** What creating and changing an item stores and logs, field by field, and when it is refused. */
module ItemEffects {
  import opened Options
  import opened ChangeLog

  // --- Purchase units ---------------------------------------------------------------------------

  /** What `AfterCreate` and `AfterUpdate` ask of purchase units. */
  predicate UnitsCanBe(steps: map<UnitId, nat>, baseUnit: UnitId, units: seq<PurchaseUnit>) {
    forall i :: 0 <= i < |units| ==>
      && units[i].unit in steps && units[i].unit != baseUnit && units[i].factor > 0
      && forall j :: 0 <= j < i ==> units[j].unit != units[i].unit
  }

  /** The same units, in order. */
  ghost predicate AreSorted(stored: seq<PurchaseUnit>, units: seq<PurchaseUnit>) {
    && multiset(stored) == multiset(units)
    && forall i, j :: 0 <= i < j < |stored| ==> stored[i].unit <= stored[j].unit
  }

  lemma {:induction false} SortedUnits(units: seq<PurchaseUnit>)
    ensures AreSorted(SortUnits(units), units)
  {
    if units == [] {
    } else {
      var front, last := units[..|units| - 1], units[|units| - 1];
      assert units == front + [last];
      SortedUnits(front);
      PlacedUnit(SortUnits(front), last);
      PlacedAmong(SortUnits(front), last);
    }
  }

  lemma {:induction false} PlacedAmong(sorted: seq<PurchaseUnit>, u: PurchaseUnit)
    ensures multiset(PlaceUnit(sorted, u)) == multiset(sorted) + multiset{u}
  {
    if sorted == [] || sorted[|sorted| - 1].unit <= u.unit {
    } else {
      assert sorted == sorted[..|sorted| - 1] + [sorted[|sorted| - 1]];
      PlacedAmong(sorted[..|sorted| - 1], u);
    }
  }

  predicate InUnitOrder(units: seq<PurchaseUnit>) {
    forall i, j :: 0 <= i < j < |units| ==> units[i].unit <= units[j].unit
  }

  lemma {:induction false} PlacedUnit(sorted: seq<PurchaseUnit>, u: PurchaseUnit)
    requires InUnitOrder(sorted)
    ensures InUnitOrder(PlaceUnit(sorted, u))
  {
    if sorted == [] || sorted[|sorted| - 1].unit <= u.unit {
    } else {
      var front, last := sorted[..|sorted| - 1], sorted[|sorted| - 1];
      PlacedUnit(front, u);
      PlacedAmong(front, u);
      forall x | x in PlaceUnit(front, u) ensures x.unit <= last.unit {
        assert x in multiset(PlaceUnit(front, u));
        if x in front {
          var i :| 0 <= i < |front| && front[i] == x;
          assert sorted[i] == x;
        }
      }
    }
  }

  // --- Creating ---------------------------------------------------------------------------------

  /** What the log says of an item: all a mirror keeps of it, under its version. */
  predicate LoggedAs(c: Change, action: Action, id: ItemId, item: Item) {
    c == Change(item.version, action,
      ItemRecord(id, Logged(Snapshot(id, item.code, item.nameTh, item.nameEn, item.baseUnit, item.variableWeight,
                                     item.shelfLifeDays, item.active, item.purchaseUnits), item.version)))
  }

  /** One more version: the item stored under it, its change logged, and nothing else changed. */
  predicate OneMoreVersion(s: Store, n: Store, id: ItemId, action: Action) {
    && id < |n.items| && n.counter == s.counter + 1 && n.items[id].version == n.counter && n.steps == s.steps
    && |n.changes| == |s.changes| + 1 && n.changes[..|s.changes|] == s.changes
    && LoggedAs(n.changes[|s.changes|], action, id, n.items[id])
    && forall i :: 0 <= i < |s.items| && i != id ==> i < |n.items| && n.items[i] == s.items[i]
  }

  predicate CanBeCreated(s: Store, asked: NewItem) {
    && asked.baseUnit in s.steps && UnitsCanBe(s.steps, asked.baseUnit, asked.purchaseUnits)
    && forall i :: 0 <= i < |s.items| ==> s.items[i].code != asked.code
  }

  /** An item is created exactly when its units are right and its code is free, and is stored as asked, in use. */
  lemma {:induction false} CreatedAsAsked(s: Store, asked: NewItem)
    ensures AfterCreate(s, asked).Success? <==> CanBeCreated(s, asked)
    ensures AfterCreate(s, asked).Failure? ==>
        AfterCreate(s, asked).error
        == if asked.baseUnit !in s.steps then UnknownUnit
           else if UnitsCanBe(s.steps, asked.baseUnit, asked.purchaseUnits) then ItemCodeTaken
           else InvalidPurchaseUnits
    ensures AfterCreate(s, asked).Success? ==>
        var n, id := AfterCreate(s, asked).value, |s.items|;
        && |n.items| == |s.items| + 1 && OneMoreVersion(s, n, id, Created)
        && n.items[id].code == asked.code
        && n.items[id].nameTh == asked.nameTh && n.items[id].nameEn == asked.nameEn
        && n.items[id].baseUnit == asked.baseUnit && n.items[id].variableWeight == asked.variableWeight
        && n.items[id].shelfLifeDays == asked.shelfLifeDays && n.items[id].active
        && n.items[id].tolerances == Tolerances(None, None) && n.items[id].requisitionUnit == None
        && AreSorted(n.items[id].purchaseUnits, asked.purchaseUnits)
  {
    assert ValidUnits(s.steps, asked.baseUnit, asked.purchaseUnits)
        <==> UnitsCanBe(s.steps, asked.baseUnit, asked.purchaseUnits);
    SortedUnits(asked.purchaseUnits);
  }

  // --- Editing ----------------------------------------------------------------------------------

  /** The value sent, or the one there was. */
  predicate Now<T(==)>(now: T, sent: Option<T>, was: T) {
    match sent
    case None => now == was
    case Some(value) => now == value
  }

  /** The item has every field that was sent, and the others as they were; its code and base unit stay. */
  ghost predicate EditedAs(now: Item, edit: Edit, was: Item) {
    && Now(now.nameTh, edit.nameTh, was.nameTh) && Now(now.nameEn, edit.nameEn, was.nameEn)
    && Now(now.variableWeight, edit.variableWeight, was.variableWeight)
    && Now(now.shelfLifeDays, edit.shelfLifeDays, was.shelfLifeDays) && Now(now.active, edit.active, was.active)
    && (edit.purchaseUnits.None? ==> now.purchaseUnits == was.purchaseUnits)
    && (edit.purchaseUnits.Some? ==> AreSorted(now.purchaseUnits, edit.purchaseUnits.value))
    && now.code == was.code && now.baseUnit == was.baseUnit
    && now.tolerances == was.tolerances && now.requisitionUnit == was.requisitionUnit
  }

  /**
   * An edit goes through exactly at the version its editor saw and with units that can be. It is then
   * stored as asked; under a new version, and logged, unless that leaves the item as it was.
   */
  lemma {:induction false} EditedAsAsked(s: Store, id: ItemId, edit: Edit)
    ensures AfterUpdate(s, id, edit).Success? <==>
        && id < |s.items| && s.items[id].version == edit.version
        && (edit.purchaseUnits.Some? ==> UnitsCanBe(s.steps, s.items[id].baseUnit, edit.purchaseUnits.value))
    ensures AfterUpdate(s, id, edit).Failure? ==>
        AfterUpdate(s, id, edit).error
        == if id >= |s.items| then ItemNotFound
           else if s.items[id].version == edit.version then InvalidPurchaseUnits else ItemChanged
    ensures AfterUpdate(s, id, edit).Success? ==>
        var n := AfterUpdate(s, id, edit).value;
        && |n.items| == |s.items| && EditedAs(n.items[id], edit, s.items[id])
        && (n == s || OneMoreVersion(s, n, id, Updated))
        && (n == s <==> n.items[id].(version := 0) == s.items[id].(version := 0))
  {
    if id < |s.items| {
      var item := s.items[id];
      if edit.purchaseUnits.Some? {
        assert ValidUnits(s.steps, item.baseUnit, edit.purchaseUnits.value)
            <==> UnitsCanBe(s.steps, item.baseUnit, edit.purchaseUnits.value);
        SortedUnits(edit.purchaseUnits.value);
      }
      DiffIsWhatAMirrorSees(id, item, Normalised(edit), 0);
      assert EditedAs(Edited(item, Normalised(edit), 0), edit, item);
    }
  }

  // --- What carries no version --------------------------------------------------------------------

  predicate Within(value: Option<int>, low: int, high: int) {
    value.Some? ==> low <= value.value <= high
  }

  /** Tolerances: at most all of it, and degrees a store can have; kept without a version or a change. */
  lemma {:induction false} TolerancesAsAsked(s: Store, id: ItemId, wanted: Tolerances)
    ensures AfterTolerances(s, id, wanted).Success? <==>
        && id < |s.items|
        && Within(wanted.maxVariance, 0, 100 * 100) && Within(wanted.maxTemperature, -60 * 10, 60 * 10)
    ensures AfterTolerances(s, id, wanted).Success? ==>
        var n := AfterTolerances(s, id, wanted).value;
        && n.changes == s.changes && n.counter == s.counter && n.steps == s.steps
        && n.items == s.items[id := s.items[id].(tolerances := wanted)]
  {}

  /** A requisition unit: none, or a positive quantity as fine as the base unit allows and no finer. */
  lemma {:induction false} RequisitionUnitAsAsked(s: Store, id: ItemId, wanted: Option<int>)
    ensures AfterRequisitionUnit(s, id, wanted).Success? <==>
        && id < |s.items|
        && (wanted.Some? ==>
              && 1 <= wanted.value <= 999_999_999_999_999_999
              && (s.items[id].baseUnit in s.steps && s.steps[s.items[id].baseUnit] != 0 ==>
                    wanted.value % s.steps[s.items[id].baseUnit] == 0))
    ensures AfterRequisitionUnit(s, id, wanted).Success? ==>
        var n := AfterRequisitionUnit(s, id, wanted).value;
        && n.changes == s.changes && n.counter == s.counter && n.steps == s.steps
        && n.items == s.items[id := s.items[id].(requisitionUnit := wanted)]
  {}

  // --- The machine of edits and pulls ---------------------------------------------------------------

  /** An edit that goes through is the next state of the table, and one that is refused changes nothing. */
  lemma {:induction false} EditsTakeEffect(
      w: World, asked: NewItem, id: ItemId, edit: Edit, tolerances: Tolerances, unit: Option<int>)
    ensures CanBeCreated(w.store, asked) ==>
        Take(w, CreateStep(asked)) == w.(store := AfterCreate(w.store, asked).value)
    ensures !CanBeCreated(w.store, asked) ==> Take(w, CreateStep(asked)) == w
    ensures
      var r := AfterUpdate(w.store, id, edit);
      Take(w, UpdateStep(id, edit)) == if r.Success? then w.(store := r.value) else w
    ensures
      var r := AfterTolerances(w.store, id, tolerances);
      Take(w, TolerancesStep(id, tolerances)) == if r.Success? then w.(store := r.value) else w
    ensures
      var r := AfterRequisitionUnit(w.store, id, unit);
      Take(w, RequisitionUnitStep(id, unit)) == if r.Success? then w.(store := r.value) else w
  {
    CreatedAsAsked(w.store, asked);
  }

  /** Other records take versions of the same log, and a pull moves the mirror on. */
  lemma {:induction false} OthersTakeEffect(w: World, kind: string, otherId: nat, action: Action, limit: nat, back: nat)
    ensures
      var n := Take(w, OtherStep(kind, otherId, action));
      && n.store.counter == w.store.counter + 1 && n.store.items == w.store.items && n.pos == w.pos
      && n.store.changes == w.store.changes + [Change(w.store.counter + 1, action, OtherRecord(kind, otherId))]
    ensures Take(w, PullStep(limit)) == World(w.store, Pulled(w.pos, ChangesSince(w.store, w.pos.version, limit)))
    ensures back <= w.pos.version ==> Take(w, ForgetStep(back)) == World(w.store, Pos(w.pos.mirror, back))
  {}
}
