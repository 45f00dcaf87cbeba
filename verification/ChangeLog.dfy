/**
 * Items and the log of their versions (items.service.ts, master-data.service.ts), and the mirror a
 * POS builds from that log (contracts/README.md): a machine of edits on one side and pulls on the other.
 */
module ChangeLog {
  import opened Options

  /** Items are known by the order they were created in; units by number. */
  type ItemId = nat
  type UnitId = nat

  datatype PurchaseUnit = PurchaseUnit(unit: UnitId, factor: int)

  /** Hundredths of a percent, and tenths of a degree. */
  datatype Tolerances = Tolerances(maxVariance: Option<int>, maxTemperature: Option<int>)

  datatype Item = Item(
    code: string, nameTh: string, nameEn: string, baseUnit: UnitId, variableWeight: bool, shelfLifeDays: int,
    active: bool, purchaseUnits: seq<PurchaseUnit>, tolerances: Tolerances, requisitionUnit: Option<int>, version: nat)

  /** An item without `tolerances`, `requisitionUnit` and `version`. */
  datatype Snapshot = Snapshot(
    id: ItemId, itemCode: string, nameTh: string, nameEn: string, baseUnit: UnitId, variableWeight: bool,
    shelfLifeDays: int, active: bool, purchaseUnits: seq<PurchaseUnit>)

  datatype Logged = Logged(snapshot: Snapshot, version: nat)

  /** Other records, branches and the menu, are logged between those of items. */
  datatype Subject = ItemRecord(id: ItemId, data: Logged) | OtherRecord(kind: string, otherId: nat)

  datatype Action = Created | Updated

  datatype Change = Change(version: nat, action: Action, subject: Subject)

  /** `steps` keeps each unit's smallest quantity, in thousandths. */
  datatype Store = Store(items: seq<Item>, changes: seq<Change>, counter: nat, steps: map<UnitId, nat>)

  datatype Refusal =
    | UnknownUnit | InvalidPurchaseUnits | ItemCodeTaken | ItemNotFound | ItemChanged
    | InvalidTolerances | InvalidRequisitionUnit

  function SnapshotOf(id: ItemId, item: Item): Snapshot {
    Snapshot(id, item.code, item.nameTh, item.nameEn, item.baseUnit, item.variableWeight, item.shelfLifeDays,
             item.active, item.purchaseUnits)
  }

  // --- Purchase units -------------------------------------------------------------------------

  predicate ValidUnits(steps: map<UnitId, nat>, baseUnit: UnitId, units: seq<PurchaseUnit>) {
    && (forall i :: 0 <= i < |units| ==> units[i].unit in steps && units[i].unit != baseUnit && units[i].factor > 0)
    && forall i, j :: 0 <= i < j < |units| ==> units[i].unit != units[j].unit
  }

  function PlaceUnit(sorted: seq<PurchaseUnit>, u: PurchaseUnit): seq<PurchaseUnit> {
    if sorted == [] || sorted[|sorted| - 1].unit <= u.unit then sorted + [u]
    else PlaceUnit(sorted[..|sorted| - 1], u) + [sorted[|sorted| - 1]]
  }

  /** As stored: ordered by unit. */
  function SortUnits(units: seq<PurchaseUnit>): seq<PurchaseUnit> {
    if units == [] then [] else PlaceUnit(SortUnits(units[..|units| - 1]), units[|units| - 1])
  }

  // --- What an update changes -----------------------------------------------------------------

  datatype NewItem = NewItem(
    code: string, nameTh: string, nameEn: string, baseUnit: UnitId, variableWeight: bool, shelfLifeDays: int,
    purchaseUnits: seq<PurchaseUnit>)

  /** The fields an editor sends; those left out stay. */
  datatype Edit = Edit(
    version: nat, nameTh: Option<string>, nameEn: Option<string>, variableWeight: Option<bool>,
    shelfLifeDays: Option<int>, active: Option<bool>, purchaseUnits: Option<seq<PurchaseUnit>>)

  datatype Field = NameTh | NameEn | VariableWeight | ShelfLifeDays | Active | PurchaseUnits

  datatype Value = Text(text: string) | Flag(flag: bool) | Number(number: int) | Units(units: seq<PurchaseUnit>)

  function Current(item: Item, field: Field): Value {
    match field
    case NameTh => Text(item.nameTh)
    case NameEn => Text(item.nameEn)
    case VariableWeight => Flag(item.variableWeight)
    case ShelfLifeDays => Number(item.shelfLifeDays)
    case Active => Flag(item.active)
    case PurchaseUnits => Units(item.purchaseUnits)
  }

  function Wanted(edit: Edit, field: Field): Option<Value> {
    match field
    case NameTh => if edit.nameTh.Some? then Some(Text(edit.nameTh.value)) else None
    case NameEn => if edit.nameEn.Some? then Some(Text(edit.nameEn.value)) else None
    case VariableWeight => if edit.variableWeight.Some? then Some(Flag(edit.variableWeight.value)) else None
    case ShelfLifeDays => if edit.shelfLifeDays.Some? then Some(Number(edit.shelfLifeDays.value)) else None
    case Active => if edit.active.Some? then Some(Flag(edit.active.value)) else None
    case PurchaseUnits => if edit.purchaseUnits.Some? then Some(Units(edit.purchaseUnits.value)) else None
  }

  function Either<T>(wanted: Option<T>, current: T): T {
    if wanted.Some? then wanted.value else current
  }

  function Edited(item: Item, edit: Edit, version: nat): Item {
    item.(nameTh := Either(edit.nameTh, item.nameTh), nameEn := Either(edit.nameEn, item.nameEn),
          variableWeight := Either(edit.variableWeight, item.variableWeight),
          shelfLifeDays := Either(edit.shelfLifeDays, item.shelfLifeDays), active := Either(edit.active, item.active),
          purchaseUnits := Either(edit.purchaseUnits, item.purchaseUnits), version := version)
  }

  datatype FromTo = FromTo(from: Value, into: Value)

  predicate Changes(item: Item, edit: Edit, field: Field) {
    Wanted(edit, field).Some? && Wanted(edit, field).value != Current(item, field)
  }

  const FIELDS := [NameTh, NameEn, VariableWeight, ShelfLifeDays, Active, PurchaseUnits]

  function DiffOf(item: Item, edit: Edit, fields: seq<Field>): map<Field, FromTo> {
    if fields == [] then map[]
    else
      var last := fields[|fields| - 1];
      var before := DiffOf(item, edit, fields[..|fields| - 1]);
      if Changes(item, edit, last)
      then before[last := FromTo(Current(item, last), Wanted(edit, last).value)]
      else before
  }

  lemma {:induction false} DiffKeys(item: Item, edit: Edit, fields: seq<Field>, field: Field)
    ensures field in DiffOf(item, edit, fields) <==> field in fields && Changes(item, edit, field)
    ensures field in DiffOf(item, edit, fields) ==>
              DiffOf(item, edit, fields)[field] == FromTo(Current(item, field), Current(Edited(item, edit, 0), field))
  {
    if fields == [] {
    } else {
      assert fields == fields[..|fields| - 1] + [fields[|fields| - 1]];
      DiffKeys(item, edit, fields[..|fields| - 1], field);
    }
  }

  lemma {:induction false} EveryField(field: Field)
    ensures field in FIELDS
  {
    assert FIELDS[0] == NameTh && FIELDS[1] == NameEn && FIELDS[2] == VariableWeight;
    assert FIELDS[3] == ShelfLifeDays && FIELDS[4] == Active && FIELDS[5] == PurchaseUnits;
  }

  /** Nothing is recorded exactly when a mirror would see nothing change. */
  lemma {:induction false} DiffIsWhatAMirrorSees(id: ItemId, item: Item, edit: Edit, version: nat)
    ensures DiffOf(item, edit, FIELDS) == map[] <==> SnapshotOf(id, Edited(item, edit, version)) == SnapshotOf(id, item)
  {
    forall field: Field
      ensures field in DiffOf(item, edit, FIELDS) <==>
          Current(Edited(item, edit, version), field) != Current(item, field)
    {
      EveryField(field);
      DiffKeys(item, edit, FIELDS, field);
    }
    if DiffOf(item, edit, FIELDS) == map[] {
      assert Current(Edited(item, edit, version), NameTh) == Current(item, NameTh);
      assert Current(Edited(item, edit, version), NameEn) == Current(item, NameEn);
      assert Current(Edited(item, edit, version), VariableWeight) == Current(item, VariableWeight);
      assert Current(Edited(item, edit, version), ShelfLifeDays) == Current(item, ShelfLifeDays);
      assert Current(Edited(item, edit, version), Active) == Current(item, Active);
      assert Current(Edited(item, edit, version), PurchaseUnits) == Current(item, PurchaseUnits);
    } else {
      var field :| field in DiffOf(item, edit, FIELDS);
      assert Current(Edited(item, edit, version), field) != Current(item, field);
    }
  }

  // --- The transactions -----------------------------------------------------------------------

  /** An item stored under the next version, and the change that says so. */
  function Record(s: Store, id: ItemId, item: Item, action: Action): Store
    requires id <= |s.items|
  {
    var version := s.counter + 1;
    var stored := item.(version := version);
    s.(items := if id < |s.items| then s.items[id := stored] else s.items + [stored],
       counter := version,
       changes := s.changes + [Change(version, action, ItemRecord(id, Logged(SnapshotOf(id, stored), version)))])
  }

  predicate CodeTaken(items: seq<Item>, code: string) {
    exists i :: 0 <= i < |items| && items[i].code == code
  }

  function AfterCreate(s: Store, n: NewItem): Result<Store, Refusal> {
    if n.baseUnit !in s.steps then Failure(UnknownUnit)
    else if !ValidUnits(s.steps, n.baseUnit, n.purchaseUnits) then Failure(InvalidPurchaseUnits)
    else if CodeTaken(s.items, n.code) then Failure(ItemCodeTaken)
    else
      Success(Record(s, |s.items|,
                     Item(n.code, n.nameTh, n.nameEn, n.baseUnit, n.variableWeight, n.shelfLifeDays, true,
                          SortUnits(n.purchaseUnits), Tolerances(None, None), None, 0), Created))
  }

  /** The edit as it is compared and stored: its purchase units in order. */
  function Normalised(edit: Edit): Edit {
    if edit.purchaseUnits.None? then edit else edit.(purchaseUnits := Some(SortUnits(edit.purchaseUnits.value)))
  }

  function AfterUpdate(s: Store, id: ItemId, edit: Edit): Result<Store, Refusal> {
    if id >= |s.items| then Failure(ItemNotFound)
    else
      var item := s.items[id];
      if item.version != edit.version then Failure(ItemChanged)
      else if edit.purchaseUnits.Some? && !ValidUnits(s.steps, item.baseUnit, edit.purchaseUnits.value)
      then Failure(InvalidPurchaseUnits)
      else if DiffOf(item, Normalised(edit), FIELDS) == map[] then Success(s)
      else Success(Record(s, id, Edited(item, Normalised(edit), 0), Updated))
  }

  predicate TolerancesOk(t: Tolerances) {
    && (t.maxVariance.Some? ==> 0 <= t.maxVariance.value <= 10000)
    && (t.maxTemperature.Some? ==> -600 <= t.maxTemperature.value <= 600)
  }

  /** Configuration of the receiving dock: stored, and no master data. */
  function AfterTolerances(s: Store, id: ItemId, wanted: Tolerances): Result<Store, Refusal> {
    if !TolerancesOk(wanted) then Failure(InvalidTolerances)
    else if id >= |s.items| then Failure(ItemNotFound)
    else Success(s.(items := s.items[id := s.items[id].(tolerances := wanted)]))
  }

  /** Positive, a multiple of the base unit's step, and below 10 to the 15th when read in whole units. */
  predicate RequisitionUnitOk(steps: map<UnitId, nat>, baseUnit: UnitId, wanted: int) {
    && 0 < wanted < 1_000_000_000_000_000_000
    && (baseUnit in steps && steps[baseUnit] > 0 ==> wanted % steps[baseUnit] == 0)
  }

  function AfterRequisitionUnit(s: Store, id: ItemId, wanted: Option<int>): Result<Store, Refusal> {
    if id >= |s.items| then Failure(ItemNotFound)
    else if wanted.Some? && !RequisitionUnitOk(s.steps, s.items[id].baseUnit, wanted.value)
    then Failure(InvalidRequisitionUnit)
    else Success(s.(items := s.items[id := s.items[id].(requisitionUnit := wanted)]))
  }

  /** A change to a branch or the menu. */
  function AfterOther(s: Store, kind: string, otherId: nat, action: Action): Store {
    s.(counter := s.counter + 1, changes := s.changes + [Change(s.counter + 1, action, OtherRecord(kind, otherId))])
  }

  // --- Pulling --------------------------------------------------------------------------------

  type Mirror = map<ItemId, Logged>

  /** Overwrite, never merge; skip what is not an item. */
  function Overwrite(mirror: Mirror, change: Change): Mirror {
    match change.subject
    case ItemRecord(id, data) => mirror[id := data]
    case OtherRecord(_, _) => mirror
  }

  function Apply(mirror: Mirror, changes: seq<Change>): Mirror {
    if changes == [] then mirror else Overwrite(Apply(mirror, changes[..|changes| - 1]), changes[|changes| - 1])
  }

  function Since(changes: seq<Change>, since: nat, latest: nat): seq<Change> {
    if changes == [] then []
    else
      var before := Since(changes[..|changes| - 1], since, latest);
      var last := changes[|changes| - 1];
      if since < last.version <= latest then before + [last] else before
  }

  datatype Page = Page(latestVersion: nat, changes: seq<Change>, hasMore: bool)

  /** The log is in version order, which is the order it was written in. */
  function ChangesSince(s: Store, since: nat, limit: nat): Page {
    var rows := Since(s.changes, since, s.counter);
    Page(s.counter, if |rows| > limit then rows[..limit] else rows, |rows| > limit)
  }

  /** The reader's side: `version` is where its next pull starts. */
  datatype Pos = Pos(mirror: Mirror, version: nat)

  function LastVersion(changes: seq<Change>, version: nat): nat {
    if changes == [] then version else changes[|changes| - 1].version
  }

  function Pulled(pos: Pos, page: Page): Pos {
    Pos(Apply(pos.mirror, page.changes), LastVersion(page.changes, pos.version))
  }

  // --- Runs -----------------------------------------------------------------------------------

  datatype World = World(store: Store, pos: Pos)

  /** A POS may lose the version it stored last and start again from an earlier one. */
  datatype Step =
    | CreateStep(item: NewItem)
    | UpdateStep(id: ItemId, edit: Edit)
    | TolerancesStep(id: ItemId, tolerances: Tolerances)
    | RequisitionUnitStep(id: ItemId, unit: Option<int>)
    | OtherStep(kind: string, otherId: nat, action: Action)
    | PullStep(limit: nat)
    | ForgetStep(back: nat)

  function Or(s: Store, r: Result<Store, Refusal>): Store {
    if r.Success? then r.value else s
  }

  function Take(w: World, step: Step): World {
    match step
    case CreateStep(n) => w.(store := Or(w.store, AfterCreate(w.store, n)))
    case UpdateStep(id, edit) => w.(store := Or(w.store, AfterUpdate(w.store, id, edit)))
    case TolerancesStep(id, t) => w.(store := Or(w.store, AfterTolerances(w.store, id, t)))
    case RequisitionUnitStep(id, unit) => w.(store := Or(w.store, AfterRequisitionUnit(w.store, id, unit)))
    case OtherStep(kind, otherId, action) => w.(store := AfterOther(w.store, kind, otherId, action))
    case PullStep(limit) => w.(pos := Pulled(w.pos, ChangesSince(w.store, w.pos.version, limit)))
    case ForgetStep(back) => if back <= w.pos.version then w.(pos := w.pos.(version := back)) else w
  }

  function Run(steps: map<UnitId, nat>, taken: seq<Step>): World {
    if taken == [] then World(Store([], [], 0, steps), Pos(map[], 0))
    else Take(Run(steps, taken[..|taken| - 1]), taken[|taken| - 1])
  }

  // --- The invariant --------------------------------------------------------------------------

  /** The item table as a mirror would hold it. */
  function Table(items: seq<Item>): Mirror {
    map id: ItemId | 0 <= id < |items| :: Logged(SnapshotOf(id, items[id]), items[id].version)
  }

  predicate Contiguous(s: Store) {
    s.counter == |s.changes| && forall i :: 0 <= i < |s.changes| ==> s.changes[i].version == i + 1
  }

  predicate StoreOk(s: Store) {
    && Contiguous(s)
    && Apply(map[], s.changes) == Table(s.items)
    && forall i, j :: 0 <= i < j < |s.items| ==> s.items[i].code != s.items[j].code
  }

  /** Applying what the mirror has still to apply brings it to what the whole log says. */
  predicate CatchesUp(s: Store, pos: Pos) {
    && pos.version <= |s.changes|
    && Apply(pos.mirror, s.changes[pos.version..]) == Apply(map[], s.changes)
  }

  lemma {:induction false} ApplyAppend(m: Mirror, a: seq<Change>, b: seq<Change>)
    ensures Apply(m, a + b) == Apply(Apply(m, a), b)
  {
    if b == [] {
      assert a + b == a;
    } else {
      assert (a + b)[..|a + b| - 1] == a + b[..|b| - 1];
      ApplyAppend(m, a, b[..|b| - 1]);
    }
  }

  /** The last change for an item, in a list of them. */
  function LastFor(changes: seq<Change>, id: ItemId): Option<Logged> {
    if changes == [] then None
    else
      match changes[|changes| - 1].subject
      case ItemRecord(i, data) => if i == id then Some(data) else LastFor(changes[..|changes| - 1], id)
      case OtherRecord(_, _) => LastFor(changes[..|changes| - 1], id)
  }

  /** Applying changes leaves each item as the last of them has it, or as it was. */
  lemma {:induction false} ApplyIsLast(m: Mirror, changes: seq<Change>, id: ItemId)
    ensures id in Apply(m, changes) <==> id in m || LastFor(changes, id).Some?
    ensures id in Apply(m, changes) ==>
              Apply(m, changes)[id] == if LastFor(changes, id).Some? then LastFor(changes, id).value else m[id]
  {
    if changes == [] {
    } else {
      ApplyIsLast(m, changes[..|changes| - 1], id);
    }
  }

  lemma {:induction false} LastForSplit(a: seq<Change>, b: seq<Change>, id: ItemId)
    ensures LastFor(a + b, id) == if LastFor(b, id).Some? then LastFor(b, id) else LastFor(a, id)
  {
    if b == [] {
      assert a + b == a;
    } else {
      assert (a + b)[..|a + b| - 1] == a + b[..|b| - 1];
      LastForSplit(a, b[..|b| - 1], id);
    }
  }

  /** An item's table row and its log agree after a step that logs what it stores. */
  lemma {:induction false} RecordKeeps(s: Store, id: ItemId, item: Item, action: Action)
    requires StoreOk(s) && id <= |s.items|
    requires forall i :: 0 <= i < |s.items| && i != id ==> s.items[i].code != item.code
    ensures StoreOk(Record(s, id, item, action))
  {
    var n := Record(s, id, item, action);
    assert n.changes[..|s.changes|] == s.changes;
    assert Apply(map[], n.changes) == Table(s.items)[id := Logged(SnapshotOf(id, n.items[id]), n.items[id].version)];
    assert Table(n.items) == Table(s.items)[id := Logged(SnapshotOf(id, n.items[id]), n.items[id].version)];
  }

  /** Steps that log nothing leave alone what a mirror sees. */
  lemma {:induction false} UnloggedKeeps(s: Store, n: Store)
    requires StoreOk(s) && n.changes == s.changes && n.counter == s.counter && |n.items| == |s.items|
    requires forall i :: 0 <= i < |s.items| ==>
               SnapshotOf(i, n.items[i]) == SnapshotOf(i, s.items[i]) && n.items[i].version == s.items[i].version
    ensures StoreOk(n)
  {
    assert Table(n.items) == Table(s.items);
    forall i, j | 0 <= i < j < |n.items| ensures n.items[i].code != n.items[j].code {
      assert SnapshotOf(i, n.items[i]).itemCode == s.items[i].code;
      assert SnapshotOf(j, n.items[j]).itemCode == s.items[j].code;
    }
  }

  lemma {:induction false} CreateKeeps(s: Store, n: NewItem)
    requires StoreOk(s) && AfterCreate(s, n).Success?
    ensures StoreOk(AfterCreate(s, n).value) && s.changes <= AfterCreate(s, n).value.changes
  {
    var item := Item(n.code, n.nameTh, n.nameEn, n.baseUnit, n.variableWeight, n.shelfLifeDays, true,
                     SortUnits(n.purchaseUnits), Tolerances(None, None), None, 0);
    RecordKeeps(s, |s.items|, item, Created);
  }

  lemma {:induction false} UpdateKeeps(s: Store, id: ItemId, edit: Edit)
    requires StoreOk(s) && AfterUpdate(s, id, edit).Success?
    ensures StoreOk(AfterUpdate(s, id, edit).value) && s.changes <= AfterUpdate(s, id, edit).value.changes
  {
    forall i | 0 <= i < |s.items| && i != id ensures s.items[i].code != s.items[id].code {
      assert i < id || id < i;
    }
    RecordKeeps(s, id, Edited(s.items[id], Normalised(edit), 0), Updated);
  }

  lemma {:induction false} TakeKeepsStore(w: World, step: Step)
    requires StoreOk(w.store)
    ensures StoreOk(Take(w, step).store) && w.store.changes <= Take(w, step).store.changes
  {
    var s := w.store;
    match step
    case CreateStep(n) => if AfterCreate(s, n).Success? { CreateKeeps(s, n); }
    case UpdateStep(id, edit) => if AfterUpdate(s, id, edit).Success? { UpdateKeeps(s, id, edit); }
    case OtherStep(_, _, _) =>
      assert Take(w, step).store.changes[..|s.changes|] == s.changes;
    case TolerancesStep(_, _) => UnloggedKeeps(s, Take(w, step).store);
    case RequisitionUnitStep(_, _) => UnloggedKeeps(s, Take(w, step).store);
    case _ =>
  }

  lemma {:induction false} LogGrows(s: Store, n: Store, pos: Pos)
    requires CatchesUp(s, pos) && s.changes <= n.changes
    ensures CatchesUp(n, pos)
  {
    var more := n.changes[|s.changes|..];
    assert n.changes == s.changes + more;
    assert n.changes[pos.version..] == s.changes[pos.version..] + more;
    ApplyAppend(map[], s.changes, more);
    ApplyAppend(pos.mirror, s.changes[pos.version..], more);
  }

  /** What is pulled is the next part of the log. */
  lemma {:induction false} SinceIs(changes: seq<Change>, since: nat, latest: nat)
    requires since <= |changes| <= latest && forall i :: 0 <= i < |changes| ==> changes[i].version == i + 1
    ensures Since(changes, since, latest) == changes[since..]
  {
    if since < |changes| {
      SinceIs(changes[..|changes| - 1], since, latest);
      assert changes[since..] == changes[..|changes| - 1][since..] + [changes[|changes| - 1]];
    } else {
      SinceNothing(changes, since, latest);
    }
  }

  lemma {:induction false} SinceNothing(changes: seq<Change>, since: nat, latest: nat)
    requires forall i :: 0 <= i < |changes| ==> changes[i].version <= since
    ensures Since(changes, since, latest) == []
  {
    if changes == [] {
    } else {
      SinceNothing(changes[..|changes| - 1], since, latest);
    }
  }

  /** The last version of a page of this size. */
  function PageEnd(s: Store, since: nat, limit: nat): nat {
    if since + limit < |s.changes| then since + limit else |s.changes|
  }

  lemma {:induction false} PageIs(s: Store, since: nat, limit: nat)
    requires Contiguous(s) && since <= |s.changes|
    ensures since <= PageEnd(s, since, limit) <= |s.changes|
    ensures ChangesSince(s, since, limit)
         == Page(s.counter, s.changes[since..PageEnd(s, since, limit)], PageEnd(s, since, limit) < s.counter)
  {
    SinceIs(s.changes, since, s.counter);
    assert since + limit <= |s.changes| ==> s.changes[since..][..limit] == s.changes[since..since + limit];
  }

  lemma {:induction false} PullKeeps(s: Store, pos: Pos, limit: nat)
    requires Contiguous(s) && CatchesUp(s, pos)
    ensures
      var page := ChangesSince(s, pos.version, limit);
      var n := Pulled(pos, page);
      && n.version == PageEnd(s, pos.version, limit) && pos.version <= n.version <= |s.changes|
      && (page.hasMore <==> n.version < s.counter)
      && CatchesUp(s, n)
  {
    PageIs(s, pos.version, limit);
    var end := PageEnd(s, pos.version, limit);
    var part := s.changes[pos.version..end];
    assert LastVersion(part, pos.version) == end;
    assert s.changes[pos.version..] == part + s.changes[end..];
    ApplyAppend(pos.mirror, part, s.changes[end..]);
  }

  /** Applying part of the log a second time does no harm: each change is a whole record. */
  lemma {:induction false} ForgetKeeps(s: Store, pos: Pos, back: nat)
    requires CatchesUp(s, pos) && back <= pos.version
    ensures CatchesUp(s, pos.(version := back))
  {
    var again := s.changes[back..];
    assert again == s.changes[back..pos.version] + s.changes[pos.version..];
    assert s.changes == s.changes[..back] + again;
    forall id: ItemId
      ensures id in Apply(pos.mirror, again) <==> id in Apply(map[], s.changes)
      ensures id in Apply(pos.mirror, again) ==> Apply(pos.mirror, again)[id] == Apply(map[], s.changes)[id]
    {
      ApplyIsLast(pos.mirror, again, id);
      ApplyIsLast(pos.mirror, s.changes[pos.version..], id);
      ApplyIsLast(map[], s.changes, id);
      LastForSplit(s.changes[back..pos.version], s.changes[pos.version..], id);
      LastForSplit(s.changes[..back], again, id);
    }
  }

  lemma {:induction false} Reachable(steps: map<UnitId, nat>, taken: seq<Step>)
    ensures StoreOk(Run(steps, taken).store) && CatchesUp(Run(steps, taken).store, Run(steps, taken).pos)
  {
    if taken == [] {
    } else {
      var w := Run(steps, taken[..|taken| - 1]);
      var step := taken[|taken| - 1];
      Reachable(steps, taken[..|taken| - 1]);
      TakeKeepsStore(w, step);
      LogGrows(w.store, Take(w, step).store, w.pos);
      match step
      case PullStep(limit) => PullKeeps(w.store, w.pos, limit);
      case ForgetStep(back) => if back <= w.pos.version { ForgetKeeps(w.store, w.pos, back); }
      case _ =>
    }
  }

  // --- What it comes to -----------------------------------------------------------------------

  /** Versions have no gap, and each item is stored exactly as its last change says it is. */
  lemma {:induction false} LogIsTheTable(steps: map<UnitId, nat>, taken: seq<Step>, id: ItemId)
    ensures
      var s := Run(steps, taken).store;
      && Contiguous(s)
      && LastFor(s.changes, id)
         == if id < |s.items| then Some(Logged(SnapshotOf(id, s.items[id]), s.items[id].version)) else None
  {
    Reachable(steps, taken);
    var s := Run(steps, taken).store;
    ApplyIsLast(map[], s.changes, id);
    assert id in Table(s.items) <==> id < |s.items|;
  }

  /** A POS that has pulled to the latest version holds the item table, however it got there. */
  lemma {:induction false} CaughtUpIsTheTable(steps: map<UnitId, nat>, taken: seq<Step>)
    requires Run(steps, taken).pos.version == Run(steps, taken).store.counter
    ensures Run(steps, taken).pos.mirror == Table(Run(steps, taken).store.items)
  {
    Reachable(steps, taken);
    var w := Run(steps, taken);
    assert w.store.changes[w.pos.version..] == [];
  }

  /** An update is logged exactly when a mirror would see it, and then as it is stored; a stale one never. */
  lemma {:induction false} UpdateLogs(s: Store, id: ItemId, edit: Edit)
    requires id < |s.items|
    ensures s.items[id].version != edit.version ==> AfterUpdate(s, id, edit) == Failure(ItemChanged)
    ensures AfterUpdate(s, id, edit).Success? ==>
              var n := AfterUpdate(s, id, edit).value;
              if SnapshotOf(id, Edited(s.items[id], Normalised(edit), 0)) == SnapshotOf(id, s.items[id]) then n == s
              else && n.changes == s.changes + [Change(s.counter + 1, Updated,
                        ItemRecord(id, Logged(SnapshotOf(id, Edited(s.items[id], Normalised(edit), 0)),
                            s.counter + 1)))]
                   && n.items[id].version == s.counter + 1
  {
    DiffIsWhatAMirrorSees(id, s.items[id], Normalised(edit), 0);
  }

  /** Pulling page after page while there is more, at any page size, a mirror becomes the table. */
  method PullAll(s: Store, pos: Pos, limit: nat) returns (n: Pos)
    requires StoreOk(s) && CatchesUp(s, pos) && limit > 0
    ensures n == Pos(Table(s.items), s.counter)
  {
    n := pos;
    var more := true;
    while more
      invariant CatchesUp(s, n)
      invariant !more ==> n.version == s.counter
      decreases s.counter - n.version, if more then 1 else 0
    {
      PullKeeps(s, n, limit);
      var page := ChangesSince(s, n.version, limit);
      n := Pulled(n, page);
      more := page.hasMore;
    }
    assert s.changes[n.version..] == [];
  }
}
