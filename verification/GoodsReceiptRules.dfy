/**
 * The rules goods receipts are checked with (goods-receipt-rules.ts, inspection.ts): valid lines,
 * the inspection at the dock, what may still be received, and why a receipt is refused. Quantities
 * are integers at a common scale in the base unit; a variance limit is in hundredths of a percent.
 */
module GoodsReceiptRules {
  import opened Options
  import opened Arithmetic
  import opened PostingRules
  import opened Ledger
  import Texts

  datatype ItemFacts = ItemFacts(
    active: bool, variableWeight: bool, shelfLifeDays: nat, baseUnit: nat,
    maxVariance: Option<nat>, maxTemperature: Option<int>)

  /** What items and locations are like when a step reads them. */
  datatype Facts = Facts(item: ItemId -> ItemFacts, active: LocationId -> bool)

  datatype OrderStatus =
    | OrderDraft | OrderApproved | OrderSent | OrderPartiallyReceived | OrderReceived | OrderCancelled

  datatype OrderLine = OrderLine(
    lineNo: nat, item: ItemId, unit: nat, factor: nat, ordered: nat, unitCost: nat, received: int, returned: int)

  datatype Order = Order(status: OrderStatus, location: LocationId, lines: seq<OrderLine>)

  /** The raw input of `ValidLine`; `counted` and `rejected` are still in `unit`. */
  datatype LineInput = LineInput(
    orderLine: nat, unit: nat, counted: int, rejected: int, countedPieces: Option<int>, rejectedPieces: Option<int>,
    temperature: Option<int>, damaged: bool, supplierExpiry: Option<int>, reason: Option<string>)

  datatype Finding = OverQuantity | UnderQuantity | TooWarm | Damaged | ShortDated

  /** A stored line; what was expected and found is fixed at submission. */
  datatype Line = Line(
    lineNo: nat, orderLine: nat, item: ItemId, counted: int, rejected: int,
    countedPieces: Option<int>, rejectedPieces: Option<int>,
    temperature: Option<int>, damaged: bool, supplierExpiry: Option<int>, reason: Option<string>,
    expected: Option<int>, findings: Option<seq<Finding>>)

  // --- Lines ----------------------------------------------------------------------------------

  datatype LineProblem =
    | UnknownOrderLine | DuplicateOrderLine | ItemInactive | NotAReceivingUnit
    | CountedNotPositive | RejectedNegative | RejectedMoreThanCounted
    | PiecesRequired | PiecesNotAllowed | PiecesNotPositive | RejectedPiecesMoreThanCounted | PiecesDoNotMatchQuantity

  datatype LineError = LineError(lineNo: nat, problem: LineProblem)

  /** The first order line with this number. */
  function FindLine(lines: seq<OrderLine>, lineNo: nat): (at: Option<nat>)
    ensures at.Some? ==> at.value < |lines| && lines[at.value].lineNo == lineNo
    ensures at.None? ==> forall i :: 0 <= i < |lines| ==> lines[i].lineNo != lineNo
  {
    if lines == [] then None
    else if lines[0].lineNo == lineNo then Some(0)
    else
      var rest := FindLine(lines[1..], lineNo);
      if rest.None? then None else Some(rest.value + 1)
  }

  function QuantityProblem(input: LineInput, rejectedPieces: Option<int>, variableWeight: bool): Option<LineProblem> {
    if input.counted <= 0 then Some(CountedNotPositive)
    else if input.rejected < 0 then Some(RejectedNegative)
    else if input.rejected > input.counted then Some(RejectedMoreThanCounted)
    else if !variableWeight then
      if input.countedPieces.Some? || rejectedPieces.Some? then Some(PiecesNotAllowed) else None
    else if input.countedPieces.None? || rejectedPieces.None? then Some(PiecesRequired)
    else
      var counted, rejected := input.countedPieces.value, rejectedPieces.value;
      if counted <= 0 || rejected < 0 then Some(PiecesNotPositive)
      else if rejected > counted then Some(RejectedPiecesMoreThanCounted)
      else if (input.rejected > 0) != (rejected > 0) || (input.counted - input.rejected > 0) != (counted - rejected > 0)
      then Some(PiecesDoNotMatchQuantity)
      else None
  }

  /** One line against the order, given the order lines the lines before it were for. */
  function ValidLine(
      order: Order, input: LineInput, lineNo: nat, seen: set<nat>, facts: Facts): Result<Line, LineError> {
    var at := FindLine(order.lines, input.orderLine);
    if at.None? then Failure(LineError(lineNo, UnknownOrderLine))
    else if input.orderLine in seen then Failure(LineError(lineNo, DuplicateOrderLine))
    else
      var orderLine := order.lines[at.value];
      var item := facts.item(orderLine.item);
      if !item.active then Failure(LineError(lineNo, ItemInactive))
      else if input.unit != orderLine.unit && input.unit != item.baseUnit
      then Failure(LineError(lineNo, NotAReceivingUnit))
      else
        var factor := if input.unit == orderLine.unit then orderLine.factor else 1;
        var rejectedPieces :=
          if input.rejectedPieces.Some? then input.rejectedPieces
          else if input.countedPieces.Some? then Some(0) else None;
        var problem := QuantityProblem(input, rejectedPieces, item.variableWeight);
        if problem.Some? then Failure(LineError(lineNo, problem.value))
        else Success(Line(lineNo, input.orderLine, orderLine.item, input.counted * factor, input.rejected * factor,
                          input.countedPieces, rejectedPieces, input.temperature, input.damaged, input.supplierExpiry,
                          input.reason, None, None))
  }

  function OrderLinesOf(lines: seq<Line>): set<nat> {
    set line | line in lines :: line.orderLine
  }

  /** `ValidLine` over the inputs in order, each seeing the order lines of those before it. */
  function ValidLines(order: Order, inputs: seq<LineInput>, facts: Facts): (r: Result<seq<Line>, LineError>)
    ensures r.Success? ==> |r.value| == |inputs|
  {
    if inputs == [] then Success([])
    else
      var before :- ValidLines(order, inputs[..|inputs| - 1], facts);
      var line :- ValidLine(order, inputs[|inputs| - 1], |inputs|, OrderLinesOf(before), facts);
      Success(before + [line])
  }

  predicate OrderOk(order: Order) {
    && (forall i :: 0 <= i < |order.lines| ==> order.lines[i].factor > 0)
    && forall i, j :: 0 <= i < j < |order.lines| ==> order.lines[i].lineNo != order.lines[j].lineNo
  }

  /** A stored line: for a line of the order, split into accepted and rejected, pieces likewise. */
  predicate LineOk(orderLines: seq<OrderLine>, line: Line) {
    && FindLine(orderLines, line.orderLine).Some?
    && orderLines[FindLine(orderLines, line.orderLine).value].item == line.item
    && 0 <= line.rejected <= line.counted && line.counted > 0
    && (line.countedPieces.Some? <==> line.rejectedPieces.Some?)
    && (line.countedPieces.Some? ==>
          && 0 <= line.rejectedPieces.value <= line.countedPieces.value
          && (Accepted(line) > 0 <==> line.countedPieces.value > line.rejectedPieces.value))
  }

  predicate LinesOk(orderLines: seq<OrderLine>, lines: seq<Line>) {
    && (forall i :: 0 <= i < |lines| ==> LineOk(orderLines, lines[i]) && lines[i].lineNo == i + 1)
    && forall i, j :: 0 <= i < j < |lines| ==> lines[i].orderLine != lines[j].orderLine
  }

  /** Lines that were let through can be received: one per order line, and split exactly. */
  lemma {:induction false} ValidLinesOk(order: Order, inputs: seq<LineInput>, facts: Facts)
    requires OrderOk(order) && ValidLines(order, inputs, facts).Success?
    ensures
      var lines := ValidLines(order, inputs, facts).value;
      LinesOk(order.lines, lines) && forall i :: 0 <= i < |lines| ==> lines[i].findings.None? && lines[i].expected.None?
  {
    if inputs == [] {
    } else {
      ValidLinesOk(order, inputs[..|inputs| - 1], facts);
      var before := ValidLines(order, inputs[..|inputs| - 1], facts).value;
      var input := inputs[|inputs| - 1];
      var line := ValidLine(order, input, |inputs|, OrderLinesOf(before), facts).value;
      var factor := if input.unit == order.lines[FindLine(order.lines, input.orderLine).value].unit
                    then order.lines[FindLine(order.lines, input.orderLine).value].factor else 1;
      Scaled(input.rejected, input.counted, factor);
      assert LineOk(order.lines, line);
      forall i | 0 <= i < |before| ensures before[i].orderLine != line.orderLine {
        assert before[i] in before;
      }
    }
  }

  lemma {:induction false} Scaled(a: int, b: int, factor: nat)
    requires 0 <= a <= b && factor > 0
    ensures 0 <= a * factor <= b * factor
    ensures b > 0 ==> b * factor > 0
    ensures b * factor - a * factor > 0 <==> b - a > 0
  {
    assert b * factor - a * factor == (b - a) * factor;
    assert 0 <= a * factor;
    assert b > a ==> (b - a) * factor > 0;
    assert b == a ==> (b - a) * factor == 0;
    assert b > 0 ==> b * factor > 0;
  }

  // --- Inspection -----------------------------------------------------------------------------

  /** Counted against expected, compared exactly; anything at all is over when nothing was expected. */
  predicate OutsideVariance(expected: int, counted: int, limit: nat) {
    if expected == 0 then counted > 0 else Abs(counted - expected) * 10000 > expected * limit
  }

  function Inspect(
    expected: int, counted: int, temperature: Option<int>, damaged: bool, supplierExpiry: Option<int>,
    computedExpiry: int, item: ItemFacts): seq<Finding>
  {
    (if item.maxVariance.Some? && OutsideVariance(expected, counted, item.maxVariance.value)
     then [if counted > expected then OverQuantity else UnderQuantity] else [])
    + (if item.maxTemperature.Some? && temperature.Some? && temperature.value > item.maxTemperature.value
       then [TooWarm] else [])
    + (if damaged then [Damaged] else [])
    + (if supplierExpiry.Some? && supplierExpiry.value < computedExpiry then [ShortDated] else [])
  }

  /** `OutsideVariance` has no slack: at 2% of 240 000 grams its bounds are 235 200 and 244 800, to the gram. */
  lemma {:induction false} VarianceIsExact()
    ensures !OutsideVariance(240_000, 235_200, 200) && OutsideVariance(240_000, 235_199, 200)
    ensures !OutsideVariance(240_000, 244_800, 200) && OutsideVariance(240_000, 244_801, 200)
    ensures forall counted, limit: nat :: OutsideVariance(0, counted, limit) <==> counted > 0
  {}

  /** Each finding is there for its own reason and no other. */
  lemma {:induction false} FindingsMean(
    expected: int, counted: int, temperature: Option<int>, damaged: bool, supplierExpiry: Option<int>,
    computedExpiry: int, item: ItemFacts)
    ensures
      var findings := Inspect(expected, counted, temperature, damaged, supplierExpiry, computedExpiry, item);
      var outside := item.maxVariance.Some? &&
          if expected == 0 then counted > 0
          else (counted - expected) * 10000 > expected * item.maxVariance.value
               || (expected - counted) * 10000 > expected * item.maxVariance.value;
      && (OverQuantity in findings <==> outside && counted > expected)
      && (UnderQuantity in findings <==> outside && counted <= expected)
      && (TooWarm in findings <==>
            item.maxTemperature.Some? && temperature.Some? && temperature.value > item.maxTemperature.value)
      && (Damaged in findings <==> damaged)
      && (ShortDated in findings <==> supplierExpiry.Some? && supplierExpiry.value < computedExpiry)
  {}

  // --- What may be received -------------------------------------------------------------------

  function Accepted(line: Line): int {
    line.counted - line.rejected
  }

  function AcceptedPieces(line: Line): Option<int> {
    if line.countedPieces.None? || line.rejectedPieces.None? then None
    else Some(line.countedPieces.value - line.rejectedPieces.value)
  }

  function Variance(item: ItemFacts): nat {
    if item.maxVariance.None? then 0 else item.maxVariance.value
  }

  /** The upper bound on `total`; a limit of 0 stands for an item without one. */
  predicate WithinReceivableLimit(ordered: nat, total: int, limit: nat) {
    total * 10000 <= ordered * (10000 + limit)
  }

  function Outstanding(orderLine: OrderLine): nat {
    if orderLine.received > orderLine.ordered then 0 else orderLine.ordered - orderLine.received
  }

  /** `received` reaches the lower bound that the limit allows for `ordered`. */
  predicate LineComplete(ordered: nat, received: int, limit: nat) {
    received * 10000 >= ordered * (10000 - limit)
  }

  /** What `Judge` makes of a line; `stored` decides where `expected` and `findings` come from. */
  datatype JudgedLine = JudgedLine(
    line: Line, unitCost: nat, active: bool, expected: int, findings: seq<Finding>,
    expiry: int, temperatureRequired: bool, withinLimit: bool)

  function Judge(orderLines: seq<OrderLine>, line: Line, facts: Facts, day: int, stored: bool): JudgedLine
    requires LineOk(orderLines, line)
  {
    var orderLine := orderLines[FindLine(orderLines, line.orderLine).value];
    var item := facts.item(line.item);
    var asStored := stored && line.findings.Some?;
    var computedExpiry := day + item.shelfLifeDays;
    var expected := if asStored && line.expected.Some? then line.expected.value else Outstanding(orderLine);
    JudgedLine(
      line, orderLine.unitCost, item.active, expected,
      if asStored then line.findings.value
      else Inspect(expected, line.counted, line.temperature, line.damaged, line.supplierExpiry, computedExpiry, item),
      if line.supplierExpiry.Some? && line.supplierExpiry.value < computedExpiry
      then line.supplierExpiry.value else computedExpiry,
      item.maxTemperature.Some? && line.temperature.None?,
      WithinReceivableLimit(orderLine.ordered, orderLine.received + Accepted(line), Variance(item)))
  }

  function JudgeAll(orderLines: seq<OrderLine>, lines: seq<Line>, facts: Facts, day: int, stored: bool): seq<JudgedLine>
    requires LinesOk(orderLines, lines)
  {
    seq(|lines|, i requires 0 <= i < |lines| => Judge(orderLines, lines[i], facts, day, stored))
  }

  predicate NeedsApproval(judged: seq<JudgedLine>) {
    exists i :: 0 <= i < |judged| && judged[i].findings != []
  }

  datatype ReceiptRefusal =
    | EmptyDocument | OrderNotReceivable | InactiveLocation
    | InactiveItem(lineNo: nat) | TemperatureRequired(lineNo: nat) | ReasonRequired(lineNo: nat)
    | ExpiredOnArrival(lineNo: nat) | OverReceipt(lineNo: nat)

  predicate Receivable(status: OrderStatus) {
    status == OrderApproved || status == OrderSent || status == OrderPartiallyReceived
  }

  predicate Blank(reason: Option<string>) {
    reason.None? || Texts.Trim(reason.value) == ""
  }

  function LineRefusal(j: JudgedLine, day: int): Option<ReceiptRefusal> {
    if !j.active then Some(InactiveItem(j.line.lineNo))
    else if j.temperatureRequired then Some(TemperatureRequired(j.line.lineNo))
    else if (j.findings != [] || j.line.rejected > 0) && Blank(j.line.reason) then Some(ReasonRequired(j.line.lineNo))
    else if Accepted(j.line) > 0 && j.expiry < day then Some(ExpiredOnArrival(j.line.lineNo))
    else if !j.withinLimit then Some(OverReceipt(j.line.lineNo))
    else None
  }

  function FirstRefusal(judged: seq<JudgedLine>, day: int): Option<ReceiptRefusal> {
    if judged == [] then None
    else
      var first := LineRefusal(judged[0], day);
      if first.Some? then first else FirstRefusal(judged[1..], day)
  }

  /** Line `i` is refused, and no line before it. */
  predicate RefusedAt(judged: seq<JudgedLine>, day: int, i: nat, refusal: Option<ReceiptRefusal>) {
    && i < |judged| && LineRefusal(judged[i], day) == refusal
    && forall j :: 0 <= j < i ==> LineRefusal(judged[j], day).None?
  }

  /** No refusal means no line has one; otherwise it is the first line's that has any. */
  lemma {:induction false} RefusalIsFirst(judged: seq<JudgedLine>, day: int)
    ensures
      var refusal := FirstRefusal(judged, day);
      && (refusal.None? <==> forall i :: 0 <= i < |judged| ==> LineRefusal(judged[i], day).None?)
      && (refusal.Some? ==> exists i :: RefusedAt(judged, day, i, refusal))
  {
    if judged == [] {
      assert FirstRefusal(judged, day).None?;
    } else if LineRefusal(judged[0], day).Some? {
      assert RefusedAt(judged, day, 0, FirstRefusal(judged, day));
    } else {
      RefusalIsFirst(judged[1..], day);
      var refusal := FirstRefusal(judged, day);
      assert forall i :: 1 <= i < |judged| ==> judged[i] == judged[1..][i - 1];
      if refusal.Some? {
        var i: nat :| RefusedAt(judged[1..], day, i, refusal);
        assert RefusedAt(judged, day, i + 1, refusal);
      }
    }
  }

  function RefusalOf(
      judged: seq<JudgedLine>, status: OrderStatus, locationActive: bool, day: int): Option<ReceiptRefusal> {
    if judged == [] then Some(EmptyDocument)
    else if !Receivable(status) then Some(OrderNotReceivable)
    else if !locationActive then Some(InactiveLocation)
    else FirstRefusal(judged, day)
  }

  // --- What a posting records -----------------------------------------------------------------

  datatype Added = Added(accepted: int, returned: int)

  /** What each order line takes on; of two lines for one order line only the later would be kept. */
  function AddedByLine(lines: seq<Line>): map<nat, Added> {
    if lines == [] then map[]
    else
      var last := lines[|lines| - 1];
      AddedByLine(lines[..|lines| - 1])[last.orderLine := Added(Accepted(last), last.rejected)]
  }

  function RecordedLine(line: OrderLine, added: map<nat, Added>): OrderLine {
    if line.lineNo in added
    then line.(received := line.received + added[line.lineNo].accepted,
               returned := line.returned + added[line.lineNo].returned)
    else line
  }

  function RecordedLines(lines: seq<OrderLine>, added: map<nat, Added>): seq<OrderLine> {
    seq(|lines|, i requires 0 <= i < |lines| => RecordedLine(lines[i], added))
  }

  /** Takes the lines after `RecordedLines`; `None` means no change of status. */
  function OrderStatusAfter(lines: seq<OrderLine>, facts: Facts): Option<OrderStatus> {
    if forall i :: 0 <= i < |lines| ==>
         LineComplete(lines[i].ordered, lines[i].received, Variance(facts.item(lines[i].item)))
    then Some(OrderReceived)
    else if forall i :: 0 <= i < |lines| ==> lines[i].received == 0 then None
    else Some(OrderPartiallyReceived)
  }

  function SumLines(lines: seq<Line>, orderLine: nat, w: Line -> int): int {
    if lines == [] then 0
    else SumLines(lines[..|lines| - 1], orderLine, w)
         + if lines[|lines| - 1].orderLine == orderLine then w(lines[|lines| - 1]) else 0
  }

  function AcceptedQuantity(): Line -> int {
    (line: Line) => Accepted(line)
  }

  function RejectedQuantity(): Line -> int {
    (line: Line) => line.rejected
  }

  /** One line per order line is what makes the map keep everything. */
  lemma {:induction false} AddedKeepsAll(lines: seq<Line>, orderLine: nat)
    requires forall i, j :: 0 <= i < j < |lines| ==> lines[i].orderLine != lines[j].orderLine
    ensures
      var added := AddedByLine(lines);
      && (orderLine in added <==> exists i :: 0 <= i < |lines| && lines[i].orderLine == orderLine)
      && SumLines(lines, orderLine, AcceptedQuantity()) == (if orderLine in added then added[orderLine].accepted else 0)
      && SumLines(lines, orderLine, RejectedQuantity()) == (if orderLine in added then added[orderLine].returned else 0)
  {
    if lines == [] {
    } else {
      AddedKeepsAll(lines[..|lines| - 1], orderLine);
      if lines[|lines| - 1].orderLine != orderLine && orderLine in AddedByLine(lines[..|lines| - 1]) {
        var i :| 0 <= i < |lines| - 1 && lines[..|lines| - 1][i].orderLine == orderLine;
        assert lines[i].orderLine == orderLine;
      }
    }
  }

  /** With two lines for one order line it would not: the first one's 5 are lost. */
  lemma {:induction false} AddedLosesDuplicates()
    ensures
      var line := Line(1, 7, 0, 5, 0, None, None, None, false, None, None, None, None);
      var lines := [line, line.(lineNo := 2, counted := 3)];
      AddedByLine(lines)[7].accepted == 3 && SumLines(lines, 7, AcceptedQuantity()) == 8
  {
    var line := Line(1, 7, 0, 5, 0, None, None, None, false, None, None, None, None);
    var lines := [line, line.(lineNo := 2, counted := 3)];
    assert lines[..1] == [line];
    assert SumLines([line], 7, AcceptedQuantity()) == 5;
  }

  /** The lots a posting creates: one for each line with anything accepted. */
  function LotsOf(judged: seq<JudgedLine>, location: LocationId): seq<NewLot> {
    if judged == [] then []
    else
      var last := judged[|judged| - 1];
      var before := LotsOf(judged[..|judged| - 1], location);
      if Accepted(last.line) > 0 then before + [LotFrom(last, location)] else before
  }

  function LotFrom(j: JudgedLine, location: LocationId): NewLot {
    NewLot(j.line.lineNo, j.line.item, location, Amount(Accepted(j.line), AcceptedPieces(j.line)), j.unitCost, j.expiry)
  }

  lemma {:induction false} LotsLines(judged: seq<JudgedLine>, location: LocationId)
    requires forall i :: 0 <= i < |judged| ==> judged[i].line.lineNo == i + 1
    ensures forall i :: 0 <= i < |LotsOf(judged, location)| ==> LotsOf(judged, location)[i].lineNo <= |judged|
    ensures forall i, j :: 0 <= i < j < |LotsOf(judged, location)| ==>
              LotsOf(judged, location)[i].lineNo != LotsOf(judged, location)[j].lineNo
  {
    if judged == [] {
    } else {
      LotsLines(judged[..|judged| - 1], location);
    }
  }

  lemma {:induction false} LotsAmounts(orderLines: seq<OrderLine>, judged: seq<JudgedLine>, location: LocationId)
    requires forall i :: 0 <= i < |judged| ==> LineOk(orderLines, judged[i].line)
    ensures forall n :: n in LotsOf(judged, location) ==>
              n.amount.quantity > 0 && n.unitCost >= 0 && (n.amount.pieces.Some? ==> n.amount.pieces.value > 0)
  {
    if judged == [] {
    } else {
      LotsAmounts(orderLines, judged[..|judged| - 1], location);
    }
  }

  /** The ledger never refuses them: each line's lot has a quantity, and pieces to match. */
  lemma {:induction false} LotsAreStorable(
      orderLines: seq<OrderLine>, lines: seq<Line>, facts: Facts, day: int, stored: bool, location: LocationId)
    requires LinesOk(orderLines, lines)
    ensures StorableLots(LotsOf(JudgeAll(orderLines, lines, facts, day, stored), location))
  {
    var judged := JudgeAll(orderLines, lines, facts, day, stored);
    LotsLines(judged, location);
    LotsAmounts(orderLines, judged, location);
  }
}
