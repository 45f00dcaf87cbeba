/**
 * The ledger of the browser demo (stock.ts): no balance snapshot, every balance recomputed from the
 * entries on each posting. It is the simple form that the backend's ledger has to agree with, for
 * the one document type the demo writes.
 */
module DemoStock {
  import opened Options
  import opened PostingRules
  import opened Ledger
  import opened LedgerInvariant
  import opened LedgerReadings
  import opened OpeningBalances
  import opened LedgerEffects

  datatype Demo = Demo(
    documents: seq<Document>, lots: seq<Lot>, entries: seq<Entry>, records: Records, today: int)

  /** A balance row for each row the entries touch. */
  function BalancesOf(entries: seq<Entry>): Balances {
    Net(Moves(entries))
  }

  /** `BalancesOf` the entries dated no later than `asOf`. */
  function BalancesAsOf(entries: seq<Entry>, asOf: int): Balances {
    Net(Moves(UpTo(entries, asOf)))
  }

  function WriteDemo(sites: Sites, d: Demo, id: DocumentId, at: Instant, moves: seq<Movement>): Result<Demo, Rule> {
    if Offending(sites, BalancesOf(d.entries), moves) != {} then Failure(BelowZero)
    else Success(d.(entries := d.entries + Stamp(id, at, moves)))
  }

  /** What a person may ask for. */
  datatype Request =
    | CreateBalance(location: LocationId, inputs: seq<LineInput>, on: Option<int>, actor: nat)
    | UpdateBalance(
        id: DocumentId, revision: nat,
        newLocation: Option<LocationId>, newInputs: Option<seq<LineInput>>, newDay: Option<int>)
    | PostBalance(id: DocumentId, revision: nat)
    | ReverseBalance(id: DocumentId, on: Option<int>, actor: nat)

  /** The checks of a new or changed draft before its document is looked at: a location, and lines. */
  function DraftProblem(
      sites: Sites, facts: Facts, location: Option<LocationId>, inputs: Option<seq<LineInput>>): Option<Turned> {
    if location.Some? && LocationProblemOf(sites, facts, location.value).Some?
    then Some(BadLocation(LocationProblemOf(sites, facts, location.value).value))
    else if inputs.Some? && ValidLines(inputs.value, facts, 0).Failure?
    then Some(ValidLines(inputs.value, facts, 0).error)
    else None
  }

  /** The record after an edit: lines replaced when given, all of them at the record's location. */
  function Changed(record: Record, facts: Facts, location: Option<LocationId>, inputs: Option<seq<LineInput>>): Record {
    var site := if location.Some? then location.value else record.location;
    var lines :=
      if inputs.Some? && ValidLines(inputs.value, facts, 0).Success? then ValidLines(inputs.value, facts, 0).value
      else record.lines;
    Record(site, Moved(lines, site))
  }

  function Day(on: Option<int>, today: int): int {
    if on.Some? then on.value else today
  }

  function CreateDemo(
    sites: Sites, d: Demo, facts: Facts, location: LocationId, inputs: seq<LineInput>, on: Option<int>, actor: nat)
    : Result<Demo, Turned>
  {
    var problem := DraftProblem(sites, facts, Some(location), Some(inputs));
    if problem.Some? then Failure(problem.value)
    else if Day(on, d.today) > d.today then Failure(ByLedger(BusinessDateInFuture))
    else
      Success(d.(
        documents := d.documents + [Document(OpeningBalance, Draft, Day(on, d.today), 1, actor, None)],
        records := d.records[|d.documents| := Changed(Record(location, []), facts, None, Some(inputs))]))
  }

  /** A posted balance is refused before its revision is looked at. */
  function UpdateDemo(
    sites: Sites, d: Demo, facts: Facts, id: DocumentId, revision: nat,
    location: Option<LocationId>, inputs: Option<seq<LineInput>>, day: Option<int>): Result<Demo, Turned>
  {
    if id !in d.records || id >= |d.documents| then Failure(NoSuchBalance)
    else
      var problem := DraftProblem(sites, facts, location, inputs);
      var doc := d.documents[id];
      if problem.Some? then Failure(problem.value)
      else if doc.status == Posted then Failure(ByLedger(AlreadyPosted))
      else if doc.revision != revision then Failure(ByLedger(StaleRevision))
      else if day.Some? && day.value > d.today then Failure(ByLedger(BusinessDateInFuture))
      else
        Success(d.(
          documents := d.documents[id := doc.(day := Day(day, doc.day), revision := doc.revision + 1)],
          records := d.records[id := Changed(d.records[id], facts, location, inputs)]))
  }

  function PostDemo(sites: Sites, d: Demo, facts: Facts, id: DocumentId, revision: nat): Result<Demo, Turned> {
    if id !in d.records || id >= |d.documents| then Failure(NoSuchBalance)
    else
      var doc, lines := d.documents[id], d.records[id].lines;
      var problem := PostingProblemOf(d.records[id], facts, doc.day, d.today);
      if doc.status == Posted then Failure(ByLedger(AlreadyPosted))
      else if doc.revision != revision then Failure(ByLedger(StaleRevision))
      else if problem.Some? then Failure(NotPostable(problem.value))
      else if doc.day > d.today then Failure(ByLedger(BusinessDateInFuture))
      else
        match WriteDemo(sites, d, id, Instant(doc.day, 0), CreatedMoves(|d.lots|, lines))
        case Failure(rule) => Failure(ByLedger(rule))
        case Success(written) =>
          Success(written.(
            lots := d.lots + CreatedLots(id, lines),
            documents := d.documents[id := doc.(status := Posted, revision := doc.revision + 1)]))
  }

  function ReversalRefused(d: Demo, id: DocumentId, on: int): Option<Rule>
    requires id < |d.documents|
  {
    var original := d.documents[id];
    if original.status != Posted then Some(NotPosted)
    else if original.kind == Reversal then Some(ReversalOfReversal)
    else if IsReversed(d.documents, id) then Some(AlreadyReversed)
    else if on > d.today then Some(BusinessDateInFuture)
    else if on < original.day then Some(BusinessDateBeforeOriginal)
    else None
  }

  function ReverseDemo(sites: Sites, d: Demo, id: DocumentId, on: Option<int>, actor: nat): Result<Demo, Turned> {
    if id !in d.records || id >= |d.documents| then Failure(NoSuchBalance)
    else
      var day := Day(on, d.today);
      var refused := ReversalRefused(d, id, day);
      if refused.Some? then Failure(ByLedger(refused.value))
      else
        var moves := ReversalMoves(EntriesOf(d.entries, id), PlacesOf(d.entries, id));
        match WriteDemo(sites, d, |d.documents|, Instant(day, 0), moves)
        case Failure(rule) => Failure(ByLedger(rule))
        case Success(written) =>
          Success(written.(documents := d.documents + [Document(Reversal, Posted, day, 1, actor, Some(id))]))
  }

  function AnswerDemo(sites: Sites, d: Demo, facts: Facts, request: Request): Result<Demo, Turned> {
    match request
    case CreateBalance(location, inputs, on, actor) => CreateDemo(sites, d, facts, location, inputs, on, actor)
    case UpdateBalance(id, revision, location, inputs, day) =>
      UpdateDemo(sites, d, facts, id, revision, location, inputs, day)
    case PostBalance(id, revision) => PostDemo(sites, d, facts, id, revision)
    case ReverseBalance(id, on, actor) => ReverseDemo(sites, d, id, on, actor)
  }

  function StockOnHandDemo(d: Demo, asOf: int): Result<Balances, Rule> {
    if asOf > d.today then Failure(BusinessDateInFuture) else Success(Shown(BalancesAsOf(d.entries, asOf)))
  }

  // --- The backend's opening balances -----------------------------------------------------------

  /** The backend keeps the same records beside its ledger (opening-balances.service.ts). */
  datatype Backend = Backend(ledger: Ledger, records: Records)

  /** The plan an opening balance hands the ledger: its lots, or a refusal. */
  function PlanOf(b: Backend, facts: Facts, id: DocumentId): Plan
    requires id in b.records && id < |b.ledger.documents|
  {
    if PostingProblemOf(b.records[id], facts, b.ledger.documents[id].day, b.ledger.today).Some? then Refusal
    else NewLots(b.records[id].lines)
  }

  /** The ledger step a request comes to, once the opening balance's own checks let it through. */
  function StepOf(b: Backend, facts: Facts, request: Request): Step
    requires !request.CreateBalance? ==> request.id in b.records && request.id < |b.ledger.documents|
  {
    match request
    case CreateBalance(_, _, on, actor) => CreateStep(OpeningBalance, Day(on, b.ledger.today), actor)
    case UpdateBalance(id, revision, _, _, day) => EditStep(id, revision, Day(day, b.ledger.documents[id].day))
    case PostBalance(id, revision) => PostStep(id, revision, Draft, None, PlanOf(b, facts, id))
    case ReverseBalance(id, on, actor) => ReverseStep(id, on, actor)
  }

  function RecordsAfter(b: Backend, facts: Facts, request: Request): Records
    requires !request.CreateBalance? ==> request.id in b.records
  {
    match request
    case CreateBalance(location, inputs, _, _) =>
      b.records[|b.ledger.documents| := Changed(Record(location, []), facts, None, Some(inputs))]
    case UpdateBalance(id, _, location, inputs, _) => b.records[id := Changed(b.records[id], facts, location, inputs)]
    case _ => b.records
  }

  function RequestProblem(sites: Sites, facts: Facts, request: Request): Option<Turned> {
    match request
    case CreateBalance(location, inputs, _, _) => DraftProblem(sites, facts, Some(location), Some(inputs))
    case UpdateBalance(_, _, location, inputs, _) => DraftProblem(sites, facts, location, inputs)
    case _ => None
  }

  /** The ledger's rule as the caller gets it: a refused plan says which rule of its own refused it. */
  function AsAnswered(b: Backend, facts: Facts, request: Request, rule: Rule): Turned {
    if rule == PlanRefused && request.PostBalance? && request.id in b.records && request.id < |b.ledger.documents| then
      var doc := b.ledger.documents[request.id];
      var problem := PostingProblemOf(b.records[request.id], facts, doc.day, b.ledger.today);
      if problem.Some? then NotPostable(problem.value) else ByLedger(rule)
    else ByLedger(rule)
  }

  function AnswerBackend(sites: Sites, b: Backend, facts: Facts, request: Request): Result<Backend, Turned> {
    if !request.CreateBalance? && (request.id !in b.records || request.id >= |b.ledger.documents|)
    then Failure(NoSuchBalance)
    else if RequestProblem(sites, facts, request).Some? then Failure(RequestProblem(sites, facts, request).value)
    else
      match Attempt(sites, b.ledger, StepOf(b, facts, request))
      case Failure(rule) => Failure(AsAnswered(b, facts, request, rule))
      case Success(ledger) => Success(Backend(ledger, RecordsAfter(b, facts, request)))
  }

  // --- The simple form and the fast form agree --------------------------------------------------

  /** A request with what is known when it is made, or a new day. */
  datatype Event = Asked(facts: Facts, request: Request) | DaysPass(days: nat)

  function RunDemo(sites: Sites, events: seq<Event>): Demo {
    if events == [] then Demo([], [], [], map[], 0)
    else
      var d := RunDemo(sites, events[..|events| - 1]);
      match events[|events| - 1]
      case DaysPass(days) => d.(today := d.today + days)
      case Asked(facts, request) =>
        var r := AnswerDemo(sites, d, facts, request);
        if r.Success? then r.value else d
  }

  function RunBackend(sites: Sites, events: seq<Event>): Backend {
    if events == [] then Backend(EMPTY, map[])
    else
      var b := RunBackend(sites, events[..|events| - 1]);
      match events[|events| - 1]
      case DaysPass(days) => b.(ledger := Do(sites, b.ledger, DayStep(days)))
      case Asked(facts, request) =>
        var r := AnswerBackend(sites, b, facts, request);
        if r.Success? then r.value else b
  }

  /** The backend's state without its snapshot. */
  function View(b: Backend): Demo {
    Demo(b.ledger.documents, b.ledger.lots, b.ledger.entries, b.records, b.ledger.today)
  }

  predicate DraftsAndPosted(documents: seq<Document>) {
    forall i :: 0 <= i < |documents| ==> documents[i].status == Draft || documents[i].status == Posted
  }

  predicate RecordsOk(records: Records, n: nat) {
    forall id :: id in records ==> id < n && StorableLots(records[id].lines)
  }

  /** What the backend's opening balances keep, beside the ledger's own invariant. */
  ghost predicate BackendOk(sites: Sites, b: Backend) {
    && Inv(sites, b.ledger)
    && DraftsAndPosted(b.ledger.documents)
    && RecordsOk(b.records, |b.ledger.documents|)
  }

  /** The same answer, and the same change but for the snapshot. */
  predicate Agree(demo: Result<Demo, Turned>, backend: Result<Backend, Turned>) {
    match (demo, backend)
    case (Success(d), Success(b)) => d == View(b)
    case (Failure(a), Failure(b)) => a == b
    case _ => false
  }

  /** An edit of a posted balance at a revision that is no longer its own. */
  predicate EditsPostedAtOldRevision(documents: seq<Document>, request: Request) {
    && request.UpdateBalance? && request.id < |documents|
    && documents[request.id].status == Posted && documents[request.id].revision != request.revision
  }

  lemma {:induction false} NegatedStorable(s: Ledger, id: DocumentId)
    requires EntriesOk(s)
    ensures Storable(ReversalMoves(EntriesOf(s.entries, id), PlacesOf(s.entries, id)))
  {
    EntriesOfFrom(s.entries, id);
    var es := EntriesOf(s.entries, id);
    forall i | 0 <= i < |es| ensures StorableMove(es[i].move) {
      assert es[i] in s.entries;
      var j :| 0 <= j < |s.entries| && s.entries[j] == es[i];
      assert EntryOk(s, s.entries[j]);
    }
  }

  /** Recomputing every balance or reading the snapshot, a write is judged alike. */
  lemma {:induction false} WritesAgree(
      sites: Sites, b: Backend, s: Ledger, id: DocumentId, at: Instant, moves: seq<Movement>)
    requires SnapshotOk(s) && Storable(moves)
    ensures
      var demo, backend := WriteDemo(sites, View(b.(ledger := s)), id, at, moves), Write(sites, s, id, at, moves);
      && (demo.Failure? ==> backend == Failure(demo.error))
      && (demo.Success? ==> backend.Success? && demo.value == View(b.(ledger := backend.value)))
  {}

  lemma {:induction false} PostsAgree(sites: Sites, b: Backend, facts: Facts, id: DocumentId, revision: nat)
    requires BackendOk(sites, b)
    ensures Agree(PostDemo(sites, View(b), facts, id, revision),
        AnswerBackend(sites, b, facts, PostBalance(id, revision)))
  {
    if id in b.records {
      assert b.ledger.documents[id].status == Draft || b.ledger.documents[id].status == Posted;
      assert StorableLots(b.records[id].lines);
    }
  }

  lemma {:induction false} ReversalsAgree(
      sites: Sites, b: Backend, facts: Facts, id: DocumentId, on: Option<int>, actor: nat)
    requires BackendOk(sites, b)
    ensures Agree(ReverseDemo(sites, View(b), id, on, actor),
        AnswerBackend(sites, b, facts, ReverseBalance(id, on, actor)))
  {
    if id in b.records {
      var s, day := b.ledger, Day(on, b.ledger.today);
      assert ReversalRefused(View(b), id, day) == ReversalProblem(s, id, day);
      var reversal := Document(Reversal, Posted, day, 1, actor, Some(id));
      NegatedStorable(s, id);
      WritesAgree(sites, b, s.(documents := s.documents + [reversal]), |s.documents|, Instant(day, 0),
                  ReversalMoves(EntriesOf(s.entries, id), PlacesOf(s.entries, id)));
    }
  }

  /**
   * An edit is answered alike but for one case: of a posted balance at an old revision the demo says
   * that it is posted, and the backend that it has changed.
   */
  lemma {:induction false} UpdatesAgree(
    sites: Sites, b: Backend, facts: Facts, id: DocumentId, revision: nat,
    location: Option<LocationId>, inputs: Option<seq<LineInput>>, day: Option<int>)
    requires BackendOk(sites, b)
    ensures
      var request := UpdateBalance(id, revision, location, inputs, day);
      var demo := UpdateDemo(sites, View(b), facts, id, revision, location, inputs, day);
      var backend := AnswerBackend(sites, b, facts, request);
      && (Agree(demo, backend) <==>
            !(id in b.records && DraftProblem(sites, facts, location, inputs).None?
              && EditsPostedAtOldRevision(b.ledger.documents, request)))
      && (demo.Failure? <==> backend.Failure?)
  {
    if id in b.records {
      assert DocumentOk(b.ledger, id);
      assert b.ledger.documents[id].status == Draft || b.ledger.documents[id].status == Posted;
    }
  }

  /** From a state the backend reaches, both accept or both refuse, and mostly say why alike. */
  lemma {:induction false} AnswersAgree(sites: Sites, b: Backend, facts: Facts, request: Request)
    requires BackendOk(sites, b)
    ensures
      var demo, backend := AnswerDemo(sites, View(b), facts, request), AnswerBackend(sites, b, facts, request);
      && (demo.Failure? <==> backend.Failure?)
      && (demo.Success? ==> demo.value == View(backend.value))
      && (!EditsPostedAtOldRevision(b.ledger.documents, request) ==> Agree(demo, backend))
  {
    match request
    case CreateBalance(_, _, _, _) =>
    case UpdateBalance(id, revision, location, inputs, day) =>
      UpdatesAgree(sites, b, facts, id, revision, location, inputs, day);
    case PostBalance(id, revision) => PostsAgree(sites, b, facts, id, revision);
    case ReverseBalance(id, on, actor) => ReversalsAgree(sites, b, facts, id, on, actor);
  }

  lemma {:induction false} ChangedStores(
      record: Record, facts: Facts, location: Option<LocationId>, inputs: Option<seq<LineInput>>)
    requires StorableLots(record.lines)
    ensures StorableLots(Changed(record, facts, location, inputs).lines)
  {
    var site := if location.Some? then location.value else record.location;
    if inputs.Some? && ValidLines(inputs.value, facts, 0).Success? {
      ValidLinesStore(inputs.value, facts, 0);
      MovedStore(ValidLines(inputs.value, facts, 0).value, site);
    } else {
      MovedStore(record.lines, site);
    }
  }

  lemma {:induction false} AttemptKeeps(sites: Sites, s: Ledger, step: Step)
    requires Inv(sites, s) && (step.PostStep? ==> Proper(step.plan))
    ensures Attempt(sites, s, step).Success? ==> Inv(sites, Attempt(sites, s, step).value)
  {
    if Attempt(sites, s, step).Success? {
      match step
      case PostStep(id, revision, from, time, plan) => PostKeeps(sites, s, id, revision, from, time, plan);
      case ReverseStep(id, on, actor) => ReverseKeeps(sites, s, id, on, actor);
      case _ => OthersKeep(sites, s, step);
    }
  }

  /** Opening balances are drafted, edited, posted and reversed, and never moved to any other status. */
  lemma {:induction false} StepKeepsStatuses(sites: Sites, b: Backend, facts: Facts, request: Request)
    requires !request.CreateBalance? ==> request.id in b.records && request.id < |b.ledger.documents|
    requires DraftsAndPosted(b.ledger.documents)
    ensures
      var r := Attempt(sites, b.ledger, StepOf(b, facts, request));
      r.Success? ==>
        && DraftsAndPosted(r.value.documents)
        && |r.value.documents| >= |b.ledger.documents| + if request.CreateBalance? then 1 else 0
  {}

  lemma {:induction false} RecordsKeep(b: Backend, facts: Facts, request: Request, n: nat)
    requires !request.CreateBalance? ==> request.id in b.records
    requires RecordsOk(b.records, |b.ledger.documents|)
    requires n >= |b.ledger.documents| + if request.CreateBalance? then 1 else 0
    ensures RecordsOk(RecordsAfter(b, facts, request), n)
  {
    match request
    case CreateBalance(location, inputs, _, _) => ChangedStores(Record(location, []), facts, None, Some(inputs));
    case UpdateBalance(id, _, location, inputs, _) => ChangedStores(b.records[id], facts, location, inputs);
    case _ =>
  }

  lemma {:induction false} AnswerKeeps(sites: Sites, b: Backend, facts: Facts, request: Request)
    requires BackendOk(sites, b) && AnswerBackend(sites, b, facts, request).Success?
    ensures BackendOk(sites, AnswerBackend(sites, b, facts, request).value)
  {
    AttemptKeeps(sites, b.ledger, StepOf(b, facts, request));
    StepKeepsStatuses(sites, b, facts, request);
    RecordsKeep(b, facts, request, |AnswerBackend(sites, b, facts, request).value.ledger.documents|);
  }

  lemma {:induction false} BackendReaches(sites: Sites, events: seq<Event>)
    ensures BackendOk(sites, RunBackend(sites, events))
  {
    if events == [] {
    } else {
      var b := RunBackend(sites, events[..|events| - 1]);
      BackendReaches(sites, events[..|events| - 1]);
      match events[|events| - 1]
      case DaysPass(days) => AttemptKeeps(sites, b.ledger, DayStep(days));
      case Asked(facts, request) =>
        if AnswerBackend(sites, b, facts, request).Success? { AnswerKeeps(sites, b, facts, request); }
    }
  }

  /**
   * Refinement: whatever was asked of the two, in any order, the ledger with a snapshot ends with the
   * documents, lots, entries and records of the one that recomputes.
   */
  lemma {:induction false} DemoAgreesWithBackend(sites: Sites, events: seq<Event>)
    ensures RunDemo(sites, events) == View(RunBackend(sites, events))
  {
    if events == [] {
    } else {
      var before := events[..|events| - 1];
      DemoAgreesWithBackend(sites, before);
      BackendReaches(sites, before);
      match events[|events| - 1]
      case DaysPass(_) =>
      case Asked(facts, request) => AnswersAgree(sites, RunBackend(sites, before), facts, request);
    }
  }

  /** And whatever is asked next, both accept it or both refuse it, and change alike. */
  lemma {:induction false} DemoAnswersLikeBackend(sites: Sites, events: seq<Event>, facts: Facts, request: Request)
    ensures
      var demo := AnswerDemo(sites, RunDemo(sites, events), facts, request);
      var backend := AnswerBackend(sites, RunBackend(sites, events), facts, request);
      && (demo.Failure? <==> backend.Failure?)
      && (demo.Success? ==> demo.value == View(backend.value))
      && (!EditsPostedAtOldRevision(RunDemo(sites, events).documents, request) ==> Agree(demo, backend))
  {
    DemoAgreesWithBackend(sites, events);
    BackendReaches(sites, events);
    AnswersAgree(sites, RunBackend(sites, events), facts, request);
  }

  lemma {:induction false} DemoShowsTheSameStock(sites: Sites, events: seq<Event>, asOf: int)
    ensures StockOnHandDemo(RunDemo(sites, events), asOf) == StockOnHand(RunBackend(sites, events).ledger, asOf)
  {
    DemoAgreesWithBackend(sites, events);
    BackendReaches(sites, events);
    StockIsTheLedger(sites, RunBackend(sites, events).ledger, asOf);
  }

  // --- What was entered is what is there ----------------------------------------------------------

  /** A record's lines, all at one location and otherwise as they were. */
  predicate SameLinesAt(lines: seq<NewLot>, before: seq<NewLot>, location: LocationId) {
    && |lines| == |before|
    && forall i :: 0 <= i < |lines| ==>
         lines[i] == NewLot(before[i].lineNo, before[i].item, location, before[i].amount, before[i].unitCost,
                            before[i].expiry)
  }

  /** A new balance keeps the lines as entered, at its location; a changed one what was not replaced. */
  lemma {:induction false} EnteredIsKept(
    sites: Sites, d: Demo, facts: Facts, location: LocationId, inputs: seq<LineInput>, on: Option<int>, actor: nat)
    requires CreateDemo(sites, d, facts, location, inputs, on, actor).Success?
    ensures
      var n, id := CreateDemo(sites, d, facts, location, inputs, on, actor).value, |d.documents|;
      && n.documents == d.documents + [Document(OpeningBalance, Draft,
             match on case None => d.today case Some(day) => day, 1, actor, None)]
      && n.lots == d.lots && n.entries == d.entries && n.today == d.today
      && id in n.records && n.records == d.records[id := n.records[id]]
      && n.records[id].location == location && |n.records[id].lines| == |inputs|
      && forall i :: 0 <= i < |inputs| ==> StoredAs(inputs[i], i + 1, location, n.records[id].lines[i])
  {
    LinesEnteredWhen(inputs, facts, 0);
  }

  lemma {:induction false} ChangedIsKept(
    sites: Sites, d: Demo, facts: Facts, id: DocumentId, revision: nat,
    location: Option<LocationId>, inputs: Option<seq<LineInput>>, day: Option<int>)
    requires UpdateDemo(sites, d, facts, id, revision, location, inputs, day).Success?
    ensures
      var n := UpdateDemo(sites, d, facts, id, revision, location, inputs, day).value;
      && id in d.records && id in n.records && id < |d.documents|
      && n.records == d.records[id := n.records[id]]
      && n.documents == d.documents[id := d.documents[id].(
             revision := d.documents[id].revision + 1,
             day := match day case None => d.documents[id].day case Some(given) => given)]
      && var site := n.records[id].location;
         && site == (match location case None => d.records[id].location case Some(given) => given)
         && (inputs.None? ==> SameLinesAt(n.records[id].lines, d.records[id].lines, site))
         && (inputs.Some? ==>
               && |n.records[id].lines| == |inputs.value|
               && forall i :: 0 <= i < |inputs.value| ==>
                    StoredAs(inputs.value[i], i + 1, site, n.records[id].lines[i]))
  {
    if inputs.Some? { LinesEnteredWhen(inputs.value, facts, 0); }
  }

  /** Posted, a balance's lines are one lot and one entry each, and nothing else. */
  lemma {:induction false} RecordedIsPosted(sites: Sites, d: Demo, facts: Facts, id: DocumentId, revision: nat)
    requires PostDemo(sites, d, facts, id, revision).Success?
    ensures
      var n := PostDemo(sites, d, facts, id, revision).value;
      && id in d.records && id < |d.documents| && n.records == d.records && n.today == d.today
      && n.documents == d.documents[id := d.documents[id].(status := Posted, revision := revision + 1)]
      && var lines := d.records[id].lines;
         && |n.lots| == |d.lots| + |lines| && n.lots[..|d.lots|] == d.lots
         && |n.entries| == |d.entries| + |lines| && n.entries[..|d.entries|] == d.entries
         && forall i :: 0 <= i < |lines| ==>
              BroughtInAs(lines[i], id, Instant(d.documents[id].day, 0), n.lots, |d.lots| + i,
                          n.entries[|d.entries| + i])
  {}

  // --- The demo's state, changed step by step ---------------------------------------------------

  class DemoLedger {
    const sites: Sites
    var documents: seq<Document>
    var lots: seq<Lot>
    var entries: seq<Entry>
    var records: Records
    var today: int

    constructor (sites: Sites, today: int)
      ensures State() == Demo([], [], [], map[], today) && this.sites == sites
    {
      this.sites := sites;
      this.today := today;
      documents, lots, entries, records := [], [], [], map[];
    }

    ghost function State(): Demo
      reads this
    {
      Demo(documents, lots, entries, records, today)
    }

    /** Refuses a document's entries with the ledger's rule, or appends them. */
    method Write(id: DocumentId, at: Instant, moves: seq<Movement>) returns (r: Result<(), Rule>)
      modifies this`entries
      ensures
        var spec := WriteDemo(sites, old(State()), id, at, moves);
        && r == (if spec.Success? then Success(()) else Failure(spec.error))
        && State() == (if spec.Success? then spec.value else old(State()))
    {
      var outcome := ApplyMovements(sites, BalancesOf(entries), moves);
      if outcome.NegativeStock? { return Failure(BelowZero); }
      entries := entries + Stamp(id, at, moves);
      r := Success(());
    }

    /** Computes `ValidLines`, stopping at the first input that `LineProblemOf` objects to. */
    method CheckedLines(
        inputs: seq<LineInput>, facts: Facts, location: LocationId) returns (r: Result<seq<NewLot>, Turned>)
      ensures r == ValidLines(inputs, facts, location)
    {
      var lines: seq<NewLot> := [];
      for i := 0 to |inputs|
        invariant ValidLines(inputs[..i], facts, location) == Success(lines)
      {
        assert inputs[..i + 1][..i] == inputs[..i];
        var problem := LineProblemOf(inputs[i], facts.item(inputs[i].item));
        if problem.Some? {
          ghost var n := i + 1;
          FirstLineProblemStays(inputs, n, facts, location);
          return Failure(BadLine(i + 1, problem.value));
        }
        lines := lines + [LotFor(inputs[i], i + 1, location)];
      }
      assert inputs[..|inputs|] == inputs;
      r := Success(lines);
    }

    method CreateOpeningBalance(facts: Facts, location: LocationId, inputs: seq<LineInput>, on: Option<int>, actor: nat)
      returns (r: Result<DocumentId, Turned>)
      modifies this`documents, this`records
      ensures
        var spec := CreateDemo(sites, old(State()), facts, location, inputs, on, actor);
        && r == (if spec.Success? then Success(|old(documents)|) else Failure(spec.error))
        && State() == (if spec.Success? then spec.value else old(State()))
    {
      var wrong := LocationProblemOf(sites, facts, location);
      if wrong.Some? { return Failure(BadLocation(wrong.value)); }
      var lines := CheckedLines(inputs, facts, 0);
      if lines.Failure? { return Failure(lines.error); }
      var day := Day(on, today);
      if day > today { return Failure(ByLedger(BusinessDateInFuture)); }
      r := Success(|documents|);
      records := records[|documents| := Record(location, Moved(lines.value, location))];
      documents := documents + [Document(OpeningBalance, Draft, day, 1, actor, None)];
    }

    /** A new location, new lines, a new date, or any of them; posted balances are left alone. */
    method UpdateOpeningBalance(
      facts: Facts, id: DocumentId, revision: nat,
      location: Option<LocationId>, inputs: Option<seq<LineInput>>, day: Option<int>)
      returns (r: Result<(), Turned>)
      modifies this`documents, this`records
      ensures
        var spec := UpdateDemo(sites, old(State()), facts, id, revision, location, inputs, day);
        && r == (if spec.Success? then Success(()) else Failure(spec.error))
        && State() == (if spec.Success? then spec.value else old(State()))
    {
      if id !in records || id >= |documents| { return Failure(NoSuchBalance); }
      var record := records[id];
      if location.Some? {
        var wrong := LocationProblemOf(sites, facts, location.value);
        if wrong.Some? { return Failure(BadLocation(wrong.value)); }
        record := record.(location := location.value);
      }
      if inputs.Some? {
        var lines := CheckedLines(inputs.value, facts, 0);
        if lines.Failure? { return Failure(lines.error); }
        record := record.(lines := lines.value);
      }
      var doc := documents[id];
      if doc.status == Posted { return Failure(ByLedger(AlreadyPosted)); }
      if doc.revision != revision { return Failure(ByLedger(StaleRevision)); }
      if day.Some? && day.value > today { return Failure(ByLedger(BusinessDateInFuture)); }
      documents := documents[id := doc.(day := Day(day, doc.day), revision := doc.revision + 1)];
      records := records[id := record.(lines := Moved(record.lines, record.location))];
      r := Success(());
    }

    method PostOpeningBalance(facts: Facts, id: DocumentId, revision: nat) returns (r: Result<(), Turned>)
      modifies this
      ensures
        var spec := PostDemo(sites, old(State()), facts, id, revision);
        && r == (if spec.Success? then Success(()) else Failure(spec.error))
        && State() == (if spec.Success? then spec.value else old(State()))
    {
      if id !in records || id >= |documents| { return Failure(NoSuchBalance); }
      var doc, record := documents[id], records[id];
      if doc.status == Posted { return Failure(ByLedger(AlreadyPosted)); }
      if doc.revision != revision { return Failure(ByLedger(StaleRevision)); }
      var problem := PostingProblemOf(record, facts, doc.day, today);
      if problem.Some? { return Failure(NotPostable(problem.value)); }
      if doc.day > today { return Failure(ByLedger(BusinessDateInFuture)); }
      var written := Write(id, Instant(doc.day, 0), CreatedMoves(|lots|, record.lines));
      if written.Failure? { return Failure(ByLedger(written.error)); }
      lots := lots + CreatedLots(id, record.lines);
      documents := documents[id := doc.(status := Posted, revision := doc.revision + 1)];
      r := Success(());
    }

    method ReverseOpeningBalance(id: DocumentId, on: Option<int>, actor: nat) returns (r: Result<(), Turned>)
      modifies this
      ensures
        var spec := ReverseDemo(sites, old(State()), id, on, actor);
        && r == (if spec.Success? then Success(()) else Failure(spec.error))
        && State() == (if spec.Success? then spec.value else old(State()))
    {
      if id !in records || id >= |documents| { return Failure(NoSuchBalance); }
      var day := Day(on, today);
      var original := documents[id];
      if original.status != Posted { return Failure(ByLedger(NotPosted)); }
      if original.kind == Reversal { return Failure(ByLedger(ReversalOfReversal)); }
      if exists q :: 0 <= q < |documents| && Reverses(documents[q], id) { return Failure(ByLedger(AlreadyReversed)); }
      if day > today { return Failure(ByLedger(BusinessDateInFuture)); }
      if day < original.day { return Failure(ByLedger(BusinessDateBeforeOriginal)); }
      var moves := ReversalMoves(EntriesOf(entries, id), PlacesOf(entries, id));
      var written := Write(|documents|, Instant(day, 0), moves);
      if written.Failure? { return Failure(ByLedger(written.error)); }
      documents := documents + [Document(Reversal, Posted, day, 1, actor, Some(id))];
      r := Success(());
    }
  }

  /** A problem among the first lines is the problem of them all. */
  lemma {:induction false} FirstLineProblemStays(inputs: seq<LineInput>, n: nat, facts: Facts, location: LocationId)
    requires n <= |inputs| && ValidLines(inputs[..n], facts, location).Failure?
    ensures ValidLines(inputs, facts, location) == ValidLines(inputs[..n], facts, location)
    decreases |inputs|
  {
    if n == |inputs| {
      assert inputs[..n] == inputs;
    } else {
      assert inputs[..|inputs| - 1][..n] == inputs[..n];
      FirstLineProblemStays(inputs[..|inputs| - 1], n, facts, location);
    }
  }
}
