/**
 * The stock ledger as a state machine (ledger.service.ts): its tables, and one step for each
 * transaction that changes them. Lots and documents are known by the order they were created in.
 */
module Ledger {
  import opened Options
  import opened PostingRules

  type DocumentId = nat

  datatype Kind =
    | OpeningBalance | Reversal | StockAdjustment | GoodsReceipt
    | ProductionOrder | Transfer | TransferReceipt | BranchConsumption

  datatype Status = Draft | Submitted | Approved | Released | Posted | Rejected | Cancelled

  datatype Document = Document(
    kind: Kind, status: Status, day: int, revision: nat, createdBy: nat, reverses: Option<DocumentId>)

  /** A placeholder lot stands in at one branch for an item it never held. */
  datatype PlaceholderCost = Estimated | Unknown
  datatype Placeholder = Placeholder(location: LocationId, cost: PlaceholderCost)

  datatype Lot = Lot(
    document: DocumentId, lineNo: nat, item: ItemId, unitCost: int,
    expiry: Option<int>, placeholder: Option<Placeholder>)

  /** A business time: the business date and the time of day in the company's zone. */
  datatype Instant = Instant(day: int, offset: nat)

  predicate Earlier(a: Instant, b: Instant) {
    a.day < b.day || (a.day == b.day && a.offset < b.offset)
  }

  datatype Entry = Entry(document: DocumentId, time: Instant, move: Movement)

  /** Genealogy: the output lot was made from the input lot. */
  datatype Link = Link(document: DocumentId, output: LotId, input: LotId, quantity: int)

  datatype Ledger = Ledger(
    documents: seq<Document>, lots: seq<Lot>, entries: seq<Entry>,
    balances: Balances, links: seq<Link>, today: int)

  datatype Rule =
    | UnknownDocument | AlreadyPosted | StaleRevision | NotReady | PlanRefused
    | BusinessDateInFuture | TimeNotOnDate | BelowZero
    | NotPosted | ReversalOfReversal | AlreadyReversed | BusinessDateBeforeOriginal
    | UnknownLot | NoLotForLine | NotADraft | DatabaseRefused

  // --- What a document type asks to be posted -----------------------------------------------

  datatype NewLot = NewLot(
    lineNo: nat, item: ItemId, location: LocationId, amount: Amount, unitCost: int, expiry: int)

  datatype LotChange = LotChange(
    lineNo: nat, lot: LotId, item: ItemId, location: LocationId, amount: Amount)

  datatype PlaceholderUse = PlaceholderUse(lineNo: nat, item: ItemId, location: LocationId, quantity: int)

  datatype LinkPlan = LinkPlan(outputLineNo: nat, inputLot: LotId, inputQuantity: int)

  datatype Plan =
    | Refusal
    | NewLots(newLots: seq<NewLot>)
    | LotChanges(changes: seq<LotChange>)
    | Production(consumed: seq<LotChange>, outputs: seq<NewLot>, genealogy: seq<LinkPlan>)
    | Consumption(lotChanges: seq<LotChange>, placeholders: seq<PlaceholderUse>)

  /** The links a plan asks for once it is written. */
  function GenealogyOf(plan: Plan): seq<LinkPlan> {
    if plan.Production? then plan.genealogy else []
  }

  /** What the service makes of a plan before it writes: the lots then, and the movements, those of
      a production order's outputs apart. */
  datatype Prepared = Prepared(lots: seq<Lot>, moves: seq<Movement>, created: seq<Movement>)

  /** The checks the lots table keeps, and one lot per line of a document. */
  predicate StorableLots(newLots: seq<NewLot>) {
    && (forall n :: n in newLots ==>
          n.amount.quantity > 0 && n.unitCost >= 0 && (n.amount.pieces.Some? ==> n.amount.pieces.value > 0))
    && forall i, j :: 0 <= i < j < |newLots| ==> newLots[i].lineNo != newLots[j].lineNo
  }

  function LotOf(id: DocumentId, n: NewLot): Lot {
    Lot(id, n.lineNo, n.item, n.unitCost, Some(n.expiry), None)
  }

  function Bringing(n: NewLot, lot: LotId): Movement {
    Movement(n.lineNo, lot, n.item, n.location, n.amount, n.unitCost, None)
  }

  function CreatedLots(id: DocumentId, newLots: seq<NewLot>): seq<Lot> {
    seq(|newLots|, i requires 0 <= i < |newLots| => LotOf(id, newLots[i]))
  }

  /** The movements bringing in new lots numbered from `first`. */
  function CreatedMoves(first: LotId, newLots: seq<NewLot>): seq<Movement> {
    seq(|newLots|, i requires 0 <= i < |newLots| => Bringing(newLots[i], first + i))
  }

  /** A change may name a lot of its item that is not a placeholder. */
  predicate Nameable(lots: seq<Lot>, c: LotChange) {
    c.lot < |lots| && lots[c.lot].placeholder.None? && lots[c.lot].item == c.item
  }

  predicate AllNameable(lots: seq<Lot>, changes: seq<LotChange>) {
    forall i :: 0 <= i < |changes| ==> Nameable(lots, changes[i])
  }

  function ChangeMove(lots: seq<Lot>, c: LotChange): Movement
    requires Nameable(lots, c)
  {
    Movement(c.lineNo, c.lot, c.item, c.location, c.amount, lots[c.lot].unitCost, None)
  }

  /** `ChangeMove` for each change, in order. */
  function ChangeMoves(lots: seq<Lot>, changes: seq<LotChange>): seq<Movement>
    requires AllNameable(lots, changes)
  {
    seq(|changes|, i requires 0 <= i < |changes| => ChangeMove(lots, changes[i]))
  }

  predicate IsPlaceholder(lot: Lot, location: LocationId, item: ItemId) {
    lot.placeholder.Some? && lot.placeholder.value.location == location && lot.item == item
  }

  function FindPlaceholder(lots: seq<Lot>, location: LocationId, item: ItemId): (found: Option<LotId>)
    ensures found.Some? ==> found.value < |lots| && IsPlaceholder(lots[found.value], location, item)
    ensures found.None? ==> forall i :: 0 <= i < |lots| ==> !IsPlaceholder(lots[i], location, item)
  {
    if lots == [] then None
    else if IsPlaceholder(lots[|lots| - 1], location, item) then Some(|lots| - 1)
    else FindPlaceholder(lots[..|lots| - 1], location, item)
  }

  /** The `unitCost` of the last ordinary lot of the item in `lots`, if there is one. */
  function LatestCost(lots: seq<Lot>, item: ItemId): Option<int> {
    if lots == [] then None
    else
      var last := lots[|lots| - 1];
      if last.item == item && last.placeholder.None? then Some(last.unitCost)
      else LatestCost(lots[..|lots| - 1], item)
  }

  function NewPlaceholder(lots: seq<Lot>, id: DocumentId, use: PlaceholderUse): Lot {
    var latest := LatestCost(lots, use.item);
    Lot(id, use.lineNo, use.item, if latest.Some? then latest.value else 0, None,
        Some(Placeholder(use.location, if latest.Some? then Estimated else Unknown)))
  }

  /** The lots once `use`'s placeholder exists: created the first time, found after that. */
  function WithPlaceholder(lots: seq<Lot>, id: DocumentId, use: PlaceholderUse): seq<Lot> {
    if FindPlaceholder(lots, use.location, use.item).None? then lots + [NewPlaceholder(lots, id, use)]
    else lots
  }

  function TakePlaceholder(lots: seq<Lot>, use: PlaceholderUse): Movement
    requires FindPlaceholder(lots, use.location, use.item).Some?
  {
    var lot := FindPlaceholder(lots, use.location, use.item).value;
    Movement(use.lineNo, lot, use.item, use.location, Amount(-use.quantity, None), lots[lot].unitCost, None)
  }

  function PlaceholderLots(lots: seq<Lot>, id: DocumentId, uses: seq<PlaceholderUse>): (r: seq<Lot>) {
    if uses == [] then lots
    else WithPlaceholder(PlaceholderLots(lots, id, uses[..|uses| - 1]), id, uses[|uses| - 1])
  }

  function PlaceholderMoves(lots: seq<Lot>, id: DocumentId, uses: seq<PlaceholderUse>): seq<Movement> {
    if uses == [] then []
    else
      var last := uses[|uses| - 1];
      var made := WithPlaceholder(PlaceholderLots(lots, id, uses[..|uses| - 1]), id, last);
      PlaceholderMoves(lots, id, uses[..|uses| - 1]) + [TakePlaceholder(made, last)]
  }

  /** A stable sort by document line. */
  function SortByLine(ms: seq<Movement>): seq<Movement> {
    if ms == [] then [] else InsertByLine(SortByLine(ms[..|ms| - 1]), ms[|ms| - 1])
  }

  function InsertByLine(sorted: seq<Movement>, m: Movement): seq<Movement> {
    if sorted == [] || sorted[|sorted| - 1].lineNo <= m.lineNo then sorted + [m]
    else InsertByLine(sorted[..|sorted| - 1], m) + [sorted[|sorted| - 1]]
  }

  /** The lot created for a line of this posting, among movements bringing new lots in. */
  function LotOfLine(created: seq<Movement>, lineNo: nat): Option<LotId> {
    if created == [] then None
    else if created[|created| - 1].lineNo == lineNo then Some(created[|created| - 1].lot)
    else LotOfLine(created[..|created| - 1], lineNo)
  }

  function LinksOf(id: DocumentId, created: seq<Movement>, genealogy: seq<LinkPlan>): Result<seq<Link>, Rule> {
    if genealogy == [] then Success([])
    else
      var last := genealogy[|genealogy| - 1];
      var before :- LinksOf(id, created, genealogy[..|genealogy| - 1]);
      match LotOfLine(created, last.outputLineNo)
      case None => Failure(NoLotForLine)
      case Some(output) => Success(before + [Link(id, output, last.inputLot, last.inputQuantity)])
  }

  function Prepare(lots: seq<Lot>, id: DocumentId, plan: Plan): Result<Prepared, Rule> {
    match plan
    case Refusal => Failure(PlanRefused)
    case NewLots(newLots) =>
      if !StorableLots(newLots) then Failure(DatabaseRefused)
      else Success(Prepared(lots + CreatedLots(id, newLots), CreatedMoves(|lots|, newLots), []))
    case LotChanges(changes) =>
      if !AllNameable(lots, changes) then Failure(UnknownLot)
      else Success(Prepared(lots, ChangeMoves(lots, changes), []))
    case Production(consumed, outputs, _) =>
      if !AllNameable(lots, consumed) then Failure(UnknownLot)
      else if !StorableLots(outputs) then Failure(DatabaseRefused)
      else
        var created := CreatedMoves(|lots|, outputs);
        Success(Prepared(lots + CreatedLots(id, outputs), ChangeMoves(lots, consumed) + created, created))
    case Consumption(lotChanges, placeholders) =>
      if !AllNameable(lots, lotChanges) then Failure(UnknownLot)
      else
        Success(Prepared(
          PlaceholderLots(lots, id, placeholders),
          SortByLine(ChangeMoves(lots, lotChanges) + PlaceholderMoves(lots, id, placeholders)), []))
  }

  // --- Writing --------------------------------------------------------------------------------

  function Moves(entries: seq<Entry>): seq<Movement> {
    seq(|entries|, i requires 0 <= i < |entries| => entries[i].move)
  }

  function Stamp(id: DocumentId, at: Instant, moves: seq<Movement>): seq<Entry> {
    seq(|moves|, i requires 0 <= i < |moves| => Entry(id, at, moves[i]))
  }

  /** The checks the entries table keeps. */
  predicate StorableMove(m: Movement) {
    m.amount.quantity != 0 && m.amount.pieces != Some(0) && m.unitCost >= 0
  }

  predicate Storable(moves: seq<Movement>) {
    forall m :: m in moves ==> StorableMove(m)
  }

  /** Check every row the movements touch, then append the entries and upsert the balances. */
  function Write(sites: Sites, s: Ledger, id: DocumentId, at: Instant, moves: seq<Movement>): Result<Ledger, Rule> {
    if Offending(sites, s.balances, moves) != {} then Failure(BelowZero)
    else if !Storable(moves) then Failure(DatabaseRefused)
    else Success(s.(entries := s.entries + Stamp(id, at, moves), balances := Upsert(s.balances, Net(moves))))
  }

  function Post(
    sites: Sites, s: Ledger, id: DocumentId, revision: nat, from: Status, time: Option<Instant>, plan: Plan)
    : Result<Ledger, Rule>
  {
    if id >= |s.documents| then Failure(UnknownDocument)
    else
      var doc := s.documents[id];
      if doc.status == Posted then Failure(AlreadyPosted)
      else if doc.revision != revision then Failure(StaleRevision)
      else if doc.status != from then Failure(NotReady)
      else if plan.Refusal? then Failure(PlanRefused)
      else if doc.day > s.today then Failure(BusinessDateInFuture)
      else if time.Some? && time.value.day != doc.day then Failure(TimeNotOnDate)
      else PostPlan(sites, s, id, if time.None? then Instant(doc.day, 0) else time.value, plan)
  }

  /** Everything of a plan, or nothing. */
  function PostPlan(sites: Sites, s: Ledger, id: DocumentId, at: Instant, plan: Plan): Result<Ledger, Rule>
    requires id < |s.documents|
  {
    var p :- Prepare(s.lots, id, plan);
    var written :- Write(sites, s.(lots := p.lots), id, at, p.moves);
    var links :- LinksOf(id, p.created, GenealogyOf(plan));
    var doc := s.documents[id];
    Success(written.(
      links := s.links + links,
      documents := s.documents[id := doc.(status := Posted, revision := doc.revision + 1)]))
  }

  function EntriesOf(entries: seq<Entry>, id: DocumentId): seq<Entry> {
    if entries == [] then []
    else
      var before := EntriesOf(entries[..|entries| - 1], id);
      if entries[|entries| - 1].document == id then before + [entries[|entries| - 1]] else before
  }

  /** The places in the ledger of a document's entries: what a reversal's entries point at. */
  function PlacesOf(entries: seq<Entry>, id: DocumentId): (places: seq<nat>)
    ensures |places| == |EntriesOf(entries, id)|
  {
    if entries == [] then []
    else
      var before := PlacesOf(entries[..|entries| - 1], id);
      if entries[|entries| - 1].document == id then before + [|entries| - 1] else before
  }

  function Negated(m: Movement, place: nat): Movement {
    m.(amount := Negate(m.amount), reverses := Some(place))
  }

  /** `Negated` entry by entry; `places[i]` is where `originals[i]` stands in the ledger. */
  function ReversalMoves(originals: seq<Entry>, places: seq<nat>): seq<Movement>
    requires |places| == |originals|
  {
    seq(|originals|, i requires 0 <= i < |originals| => Negated(originals[i].move, places[i]))
  }

  predicate Reverses(doc: Document, id: DocumentId) {
    doc.reverses == Some(id)
  }

  predicate IsReversed(documents: seq<Document>, id: DocumentId) {
    exists r :: 0 <= r < |documents| && Reverses(documents[r], id)
  }

  function ReversalProblem(s: Ledger, id: DocumentId, day: int): Option<Rule>
    requires id < |s.documents|
  {
    var original := s.documents[id];
    if original.status != Posted then Some(NotPosted)
    else if original.kind == Reversal then Some(ReversalOfReversal)
    else if IsReversed(s.documents, id) then Some(AlreadyReversed)
    else if day > s.today then Some(BusinessDateInFuture)
    else if day < original.day then Some(BusinessDateBeforeOriginal)
    else None
  }

  function Reverse(sites: Sites, s: Ledger, id: DocumentId, day: Option<int>, actor: nat): Result<Ledger, Rule> {
    if id >= |s.documents| then Failure(UnknownDocument)
    else
      var on := if day.Some? then day.value else s.today;
      var problem := ReversalProblem(s, id, on);
      if problem.Some? then Failure(problem.value)
      else
        var moves := ReversalMoves(EntriesOf(s.entries, id), PlacesOf(s.entries, id));
        var reversal := Document(Reversal, Posted, on, 1, actor, Some(id));
        Write(sites, s.(documents := s.documents + [reversal]), |s.documents|, Instant(on, 0), moves)
  }

  // --- The other transactions ------------------------------------------------------------------

  function CreateDraft(s: Ledger, kind: Kind, day: int, actor: nat): Result<Ledger, Rule> {
    if day > s.today then Failure(BusinessDateInFuture)
    else if kind == Reversal then Failure(DatabaseRefused)
    else Success(s.(documents := s.documents + [Document(kind, Draft, day, 1, actor, None)]))
  }

  /** Changing a draft's date, at the revision its editor opened. */
  function EditDraft(s: Ledger, id: DocumentId, revision: nat, day: int): Result<Ledger, Rule> {
    if id >= |s.documents| then Failure(UnknownDocument)
    else
      var doc := s.documents[id];
      if doc.revision != revision then Failure(StaleRevision)
      else if doc.status == Posted then Failure(AlreadyPosted)
      else if doc.status != Draft then Failure(NotADraft)
      else if day > s.today then Failure(BusinessDateInFuture)
      else Success(s.(documents := s.documents[id := doc.(day := day, revision := doc.revision + 1)]))
  }

  /** Any status but `Posted`, from any status but `Posted`. */
  function MoveTo(s: Ledger, id: DocumentId, status: Status): Result<Ledger, Rule> {
    if id >= |s.documents| then Failure(UnknownDocument)
    else
      var doc := s.documents[id];
      if doc.status == Posted || status == Posted then Failure(DatabaseRefused)
      else Success(s.(documents := s.documents[id := doc.(status := status, revision := doc.revision + 1)]))
  }

  /** The snapshot thrown away and summed again from the entries. */
  function Rebuild(s: Ledger): Ledger {
    s.(balances := Net(Moves(s.entries)))
  }

  // --- Runs ------------------------------------------------------------------------------------

  datatype Step =
    | CreateStep(kind: Kind, day: int, actor: nat)
    | EditStep(id: DocumentId, revision: nat, day: int)
    | MoveStep(id: DocumentId, status: Status)
    | PostStep(id: DocumentId, revision: nat, from: Status, time: Option<Instant>, plan: Plan)
    | ReverseStep(id: DocumentId, on: Option<int>, actor: nat)
    | RebuildStep
    | DayStep(days: nat)

  function Attempt(sites: Sites, s: Ledger, step: Step): Result<Ledger, Rule> {
    match step
    case CreateStep(kind, day, actor) => CreateDraft(s, kind, day, actor)
    case EditStep(id, revision, day) => EditDraft(s, id, revision, day)
    case MoveStep(id, status) => MoveTo(s, id, status)
    case PostStep(id, revision, from, time, plan) => Post(sites, s, id, revision, from, time, plan)
    case ReverseStep(id, day, actor) => Reverse(sites, s, id, day, actor)
    case RebuildStep => Success(Rebuild(s))
    case DayStep(days) => Success(s.(today := s.today + days))
  }

  /** A refused transaction changes nothing. */
  function Do(sites: Sites, s: Ledger, step: Step): Ledger {
    var r := Attempt(sites, s, step);
    if r.Success? then r.value else s
  }

  const EMPTY := Ledger([], [], [], map[], [], 0)

  function Run(sites: Sites, steps: seq<Step>): Ledger {
    if steps == [] then EMPTY else Do(sites, Run(sites, steps[..|steps| - 1]), steps[|steps| - 1])
  }

  /**
   * What document types hand over: a production order links only lots it consumes, and a
   * consumption sends something, never nothing or less, to a placeholder.
   */
  predicate Proper(plan: Plan) {
    && (plan.Production? ==>
          forall g :: g in plan.genealogy ==> exists c :: c in plan.consumed && c.lot == g.inputLot)
    && (plan.Consumption? ==> forall p :: p in plan.placeholders ==> p.quantity > 0)
  }

  predicate ProperSteps(steps: seq<Step>) {
    forall step :: step in steps && step.PostStep? ==> Proper(step.plan)
  }
}
