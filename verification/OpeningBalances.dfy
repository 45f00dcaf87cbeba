/**
 * What the rules of an opening balance let through (opening-balance-rules.ts): the same functions
 * serve the service and the browser demo. Quantities are in thousandths and costs in millionths.
 */
module OpeningBalances {
  import opened Options
  import opened PostingRules
  import opened Ledger

  /** `step` is the smallest quantity of the item's base unit. */
  datatype ItemFacts = ItemFacts(active: bool, variableWeight: bool, step: nat)

  /** What is known of an item, and whether a location is in use; nothing of one that does not exist. */
  datatype Facts = Facts(item: ItemId -> Option<ItemFacts>, active: LocationId -> Option<bool>)

  datatype LineInput = LineInput(item: ItemId, quantity: int, pieces: Option<int>, unitCost: int, expiry: int)

  datatype LineProblem =
    | QuantityNotPositive | QuantityTooPrecise | QuantityTooLarge
    | PiecesNotAllowed | PiecesInvalid | CostNegative | CostTooLarge
    | ItemUnknown | ItemNotInUse

  datatype LocationProblem = LocationUnknown | SystemManaged | LocationNotInUse

  datatype PostingProblem =
    | NoLines | DatedAhead | LocationInactive
    | LineItemInactive(lineNo: nat) | LinePiecesNotAllowed(lineNo: nat) | LineExpired(lineNo: nat)

  /** Why a request about an opening balance is turned down. */
  datatype Turned =
    | NoSuchBalance
    | BadLocation(location: LocationProblem)
    | BadLine(lineNo: nat, line: LineProblem)
    | NotPostable(posting: PostingProblem)
    | ByLedger(rule: Rule)

  /** A draft's location and lines. */
  datatype Record = Record(location: LocationId, lines: seq<NewLot>)

  type Records = map<DocumentId, Record>

  const LARGEST := 1_000_000_000_000_000_000

  function LocationProblemOf(sites: Sites, facts: Facts, location: LocationId): Option<LocationProblem> {
    if facts.active(location).None? then Some(LocationUnknown)
    else if sites(location) == InTransit || sites(location) == Subcontractor then Some(SystemManaged)
    else if !facts.active(location).value then Some(LocationNotInUse)
    else None
  }

  function LineProblemOf(input: LineInput, item: Option<ItemFacts>): Option<LineProblem> {
    if item.None? then Some(ItemUnknown)
    else if !item.value.active then Some(ItemNotInUse)
    else if input.quantity <= 0 then Some(QuantityNotPositive)
    else if item.value.step > 0 && input.quantity % item.value.step != 0 then Some(QuantityTooPrecise)
    else if input.quantity >= LARGEST then Some(QuantityTooLarge)
    else if input.pieces.Some? && !item.value.variableWeight then Some(PiecesNotAllowed)
    else if input.pieces.Some? && !(0 < input.pieces.value < LARGEST) then Some(PiecesInvalid)
    else if input.unitCost < 0 then Some(CostNegative)
    else if input.unitCost >= LARGEST then Some(CostTooLarge)
    else None
  }

  function LotFor(input: LineInput, lineNo: nat, location: LocationId): NewLot {
    NewLot(lineNo, input.item, location, Amount(input.quantity, input.pieces), input.unitCost, input.expiry)
  }

  /** `LotFor` each input, unless `LineProblemOf` objects to one; lines are numbered from 1. */
  function ValidLines(inputs: seq<LineInput>, facts: Facts, location: LocationId): Result<seq<NewLot>, Turned> {
    if inputs == [] then Success([])
    else
      var last := inputs[|inputs| - 1];
      var before :- ValidLines(inputs[..|inputs| - 1], facts, location);
      var problem := LineProblemOf(last, facts.item(last.item));
      if problem.Some? then Failure(BadLine(|inputs|, problem.value))
      else Success(before + [LotFor(last, |inputs|, location)])
  }

  function LinePostingProblem(line: NewLot, facts: Facts, day: int): Option<PostingProblem> {
    var item := facts.item(line.item);
    if item.None? || !item.value.active then Some(LineItemInactive(line.lineNo))
    else if line.amount.pieces.Some? && !item.value.variableWeight then Some(LinePiecesNotAllowed(line.lineNo))
    else if line.expiry < day then Some(LineExpired(line.lineNo))
    else None
  }

  function FirstPostingProblem(lines: seq<NewLot>, facts: Facts, day: int): Option<PostingProblem> {
    if lines == [] then None
    else
      var first := LinePostingProblem(lines[0], facts, day);
      if first.Some? then first else FirstPostingProblem(lines[1..], facts, day)
  }

  /** Whether `i` is where the first problem of the lines is, and `problem` that problem. */
  predicate FirstAt(lines: seq<NewLot>, facts: Facts, day: int, i: nat, problem: Option<PostingProblem>) {
    && i < |lines| && LinePostingProblem(lines[i], facts, day) == problem
    && forall j :: 0 <= j < i ==> LinePostingProblem(lines[j], facts, day).None?
  }

  /** No problem means no line has one; otherwise it is the first line's that has any. */
  lemma {:induction false} PostingProblemIsFirst(lines: seq<NewLot>, facts: Facts, day: int)
    ensures
      var problem := FirstPostingProblem(lines, facts, day);
      && (problem.None? <==> forall i :: 0 <= i < |lines| ==> LinePostingProblem(lines[i], facts, day).None?)
      && (problem.Some? ==> exists i :: FirstAt(lines, facts, day, i, problem))
  {
    if lines == [] {
      assert FirstPostingProblem(lines, facts, day).None?;
    } else if LinePostingProblem(lines[0], facts, day).Some? {
      assert FirstAt(lines, facts, day, 0, FirstPostingProblem(lines, facts, day));
    } else {
      PostingProblemIsFirst(lines[1..], facts, day);
      var problem := FirstPostingProblem(lines, facts, day);
      assert forall i :: 1 <= i < |lines| ==> lines[i] == lines[1..][i - 1];
      if problem.Some? {
        var i: nat :| FirstAt(lines[1..], facts, day, i, problem);
        assert FirstAt(lines, facts, day, i + 1, problem);
      }
    }
  }

  /** The first rule, of the document and then of each line, that keeps it from being posted today. */
  function PostingProblemOf(record: Record, facts: Facts, day: int, today: int): Option<PostingProblem> {
    if record.lines == [] then Some(NoLines)
    else if day > today then Some(DatedAhead)
    else if facts.active(record.location) != Some(true) then Some(LocationInactive)
    else FirstPostingProblem(record.lines, facts, day)
  }

  /** Lines let through are ones the ledger's lots table stores, all for the one location. */
  lemma {:induction false} ValidLinesStore(inputs: seq<LineInput>, facts: Facts, location: LocationId)
    requires ValidLines(inputs, facts, location).Success?
    ensures
      var lines := ValidLines(inputs, facts, location).value;
      && |lines| == |inputs|
      && (forall i :: 0 <= i < |lines| ==> lines[i].lineNo == i + 1)
      && StorableLots(lines)
  {
    if inputs == [] {
    } else {
      ValidLinesStore(inputs[..|inputs| - 1], facts, location);
    }
  }

  /** A document moved to another location takes its lines along. */
  function Moved(lines: seq<NewLot>, location: LocationId): seq<NewLot> {
    seq(|lines|, i requires 0 <= i < |lines| => lines[i].(location := location))
  }

  lemma {:induction false} MovedStore(lines: seq<NewLot>, location: LocationId)
    requires StorableLots(lines)
    ensures StorableLots(Moved(lines, location))
  {
    forall n | n in Moved(lines, location)
      ensures n.amount.quantity > 0 && n.unitCost >= 0 && (n.amount.pieces.Some? ==> n.amount.pieces.value > 0)
    {
      var i :| 0 <= i < |lines| && Moved(lines, location)[i] == n;
      assert lines[i] in lines;
    }
  }

  // --- When each of them lets something through ---------------------------------------------------

  /** A line that can be entered: of an item in use, for a quantity, count and cost that can be. */
  predicate CanBeEntered(input: LineInput, item: Option<ItemFacts>) {
    && item.Some? && item.value.active
    && 0 < input.quantity < LARGEST && (item.value.step > 0 ==> input.quantity % item.value.step == 0)
    && (input.pieces.Some? ==> item.value.variableWeight && 0 < input.pieces.value < LARGEST)
    && 0 <= input.unitCost < LARGEST
  }

  /** A location a balance can be opened at: one in use where stock is kept, and not on its way. */
  lemma {:induction false} LocationAllowedWhen(sites: Sites, facts: Facts, location: LocationId)
    ensures LocationProblemOf(sites, facts, location).None? <==>
        && facts.active(location) == Some(true)
        && (sites(location) == Plant || sites(location) == Warehouse || sites(location) == Branch)
  {}

  /**
   * Lines are let through exactly when each can be entered, and are then stored as they were; if not,
   * the first that cannot be is named.
   */
  lemma {:induction false} LinesEnteredWhen(inputs: seq<LineInput>, facts: Facts, location: LocationId)
    ensures
      var r := ValidLines(inputs, facts, location);
      && (r.Success? <==> forall i :: 0 <= i < |inputs| ==> CanBeEntered(inputs[i], facts.item(inputs[i].item)))
      && (r.Success? ==>
            && |r.value| == |inputs|
            && forall i :: 0 <= i < |inputs| ==> StoredAs(inputs[i], i + 1, location, r.value[i]))
      && (r.Failure? ==>
            && r.error.BadLine? && 1 <= r.error.lineNo <= |inputs|
            && !CanBeEntered(inputs[r.error.lineNo - 1], facts.item(inputs[r.error.lineNo - 1].item))
            && forall i :: 0 <= i < r.error.lineNo - 1 ==> CanBeEntered(inputs[i], facts.item(inputs[i].item)))
  {
    if inputs == [] {
    } else {
      LinesEnteredWhen(inputs[..|inputs| - 1], facts, location);
      EnteredWhen(inputs[|inputs| - 1], facts.item(inputs[|inputs| - 1].item));
    }
  }

  lemma {:induction false} EnteredWhen(input: LineInput, item: Option<ItemFacts>)
    ensures LineProblemOf(input, item).None? <==> CanBeEntered(input, item)
  {}

  predicate StoredAs(input: LineInput, lineNo: nat, location: LocationId, line: NewLot) {
    && line.lineNo == lineNo && line.item == input.item && line.location == location
    && line.amount.quantity == input.quantity && line.amount.pieces == input.pieces
    && line.unitCost == input.unitCost && line.expiry == input.expiry
  }

  /** A line that is refused is named, with what is wrong with it. */
  lemma {:induction false} RefusedLineIsNamed(record: Record, facts: Facts, day: int, today: int)
    ensures
      match PostingProblemOf(record, facts, day, today)
      case Some(LineItemInactive(n)) =>
        exists line :: line in record.lines && line.lineNo == n
          && (facts.item(line.item) == None || !facts.item(line.item).value.active)
      case Some(LinePiecesNotAllowed(n)) =>
        exists line :: line in record.lines && line.lineNo == n && line.amount.pieces != None
          && facts.item(line.item) != None && !facts.item(line.item).value.variableWeight
      case Some(LineExpired(n)) =>
        exists line :: line in record.lines && line.lineNo == n && line.expiry < day
      case Some(NoLines) => record.lines == []
      case Some(DatedAhead) => record.lines != [] && today < day
      case Some(LocationInactive) => day <= today && facts.active(record.location) != Some(true)
      case None => true
  {
    var problem := FirstPostingProblem(record.lines, facts, day);
    PostingProblemIsFirst(record.lines, facts, day);
    if problem.Some? {
      var i: nat :| FirstAt(record.lines, facts, day, i, problem);
      assert record.lines[i] in record.lines;
    }
  }

  /** A balance can be posted exactly when it has lines, its day has come, and place and lines are in use and good. */
  lemma {:induction false} PostableWhen(record: Record, facts: Facts, day: int, today: int)
    ensures PostingProblemOf(record, facts, day, today).None? <==>
        && record.lines != [] && day <= today && facts.active(record.location) == Some(true)
        && forall i :: 0 <= i < |record.lines| ==>
             var line := record.lines[i];
             var item := facts.item(line.item);
             && item.Some? && item.value.active && (line.amount.pieces.Some? ==> item.value.variableWeight)
             && day <= line.expiry
  {
    PostingProblemIsFirst(record.lines, facts, day);
  }
}
