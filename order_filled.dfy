/**
 * The two alternate constructors of OrderFilledEvent (hummingbot/core/event/events.py):
 * one fill per order-book row, and one fill from a Binance-style execution report.
 */
module OrderFilled {
  import opened Wrappers
  import opened PyValues
  import opened Enums
  import opened Records

  /** `ev` is the fill the rows factory builds for `row` from the shared arguments. */
  predicate IsRowFill(ev: OrderFilledEvent, timestamp: real, orderId: Value, tradingPair: Value,
                      tradeType: TradeType, orderType: OrderType, tradeFee: TradeFee,
                      exchangeTradeId: Value, row: OrderBookRow)
  {
    && ev.timestamp == timestamp
    && ev.orderId == orderId
    && ev.tradingPair == tradingPair
    && ev.tradeType == tradeType
    && ev.orderType == orderType
    && ev.price == row.price
    && ev.amount == row.amount
    && ev.tradeFee == tradeFee
    && ev.exchangeTradeId == exchangeTradeId
    && ev.leverage == Some(1)
    && ev.position == Some(FilledDefaultPosition)
  }

  /**
   * order_filled_events_from_order_book_rows: the i-th fill carries row i's price and amount
   * and every other field from the shared arguments; no row is skipped, merged or reordered.
   */
  function FromOrderBookRows(timestamp: real, orderId: Value, tradingPair: Value,
                             tradeType: TradeType, orderType: OrderType, tradeFee: TradeFee,
                             rows: seq<OrderBookRow>, exchangeTradeId: Value := Str("")): (r: seq<OrderFilledEvent>)
    ensures |r| == |rows|
    ensures forall i :: 0 <= i < |rows| ==>
      IsRowFill(r[i], timestamp, orderId, tradingPair, tradeType, orderType, tradeFee, exchangeTradeId, rows[i])
  {
    if rows == [] then []
    else
      [OrderFilledEvent(timestamp, orderId, tradingPair, tradeType, orderType,
                        rows[0].price, rows[0].amount, tradeFee, exchangeTradeId := exchangeTradeId)]
      + FromOrderBookRows(timestamp, orderId, tradingPair, tradeType, orderType, tradeFee, rows[1..], exchangeTradeId)
  }

  /** Splitting the rows splits the fills: the factory works row by row, in order : each fill is fixed by its row and the shared arguments. */
  lemma {:induction false} FromOrderBookRowsAppend(timestamp: real, orderId: Value, tradingPair: Value,
                                 tradeType: TradeType, orderType: OrderType, tradeFee: TradeFee,
                                 rows1: seq<OrderBookRow>, rows2: seq<OrderBookRow>, exchangeTradeId: Value)
    ensures FromOrderBookRows(timestamp, orderId, tradingPair, tradeType, orderType, tradeFee, rows1 + rows2, exchangeTradeId)
         == FromOrderBookRows(timestamp, orderId, tradingPair, tradeType, orderType, tradeFee, rows1, exchangeTradeId)
          + FromOrderBookRows(timestamp, orderId, tradingPair, tradeType, orderType, tradeFee, rows2, exchangeTradeId)
  {
    var whole := FromOrderBookRows(timestamp, orderId, tradingPair, tradeType, orderType, tradeFee, rows1 + rows2, exchangeTradeId);
    var parts := FromOrderBookRows(timestamp, orderId, tradingPair, tradeType, orderType, tradeFee, rows1, exchangeTradeId)
               + FromOrderBookRows(timestamp, orderId, tradingPair, tradeType, orderType, tradeFee, rows2, exchangeTradeId);
    forall i | 0 <= i < |whole|
      ensures whole[i] == parts[i]
    {
      if i < |rows1| {
        assert (rows1 + rows2)[i] == rows1[i];
      } else {
        assert (rows1 + rows2)[i] == rows2[i - |rows1|];
      }
    }
  }

  /** The keys `d[...]` reads after the execution type has been checked, in evaluation order. */
  predicate HasReportKeys(report: Dict) {
    && "E" in report && "c" in report && "s" in report && "S" in report && "o" in report
    && "L" in report && "l" in report && "N" in report && "n" in report && "t" in report
  }

  /** Every step of the execution-report factory succeeds. */
  predicate AcceptsReport(report: Dict, c: Coercions) {
    && Get(report, "x") == Str("TRADE")
    && HasReportKeys(report)
    && report["E"].IsNumber()
    && OrderTypeFromName(report["o"]).Some?
    && c.toDecimal(report["L"]).Some?
    && c.toDecimal(report["l"]).Some?
    && c.toDecimal(report["n"]).Some?
  }

  /** `E * 1e-3`: milliseconds to seconds, exact; a TypeError for a non-number. */
  function MillisToSeconds(v: Value, key: string): (r: Result<real, Error>)
    ensures r.Success? <==> v.IsNumber()
    ensures r.Failure? ==> r.error == NotANumber(key)
    ensures r.Success? ==> r.value * 1000.0 == (if v.Int? then v.i as real else v.d)
  {
    match v
    case Int(i) => Success(i as real / 1000.0)
    case Dec(d) => Success(d / 1000.0)
    case _ => Failure(NotANumber(key))
  }

  /** `Decimal(d[key])` after the lookup of `key`. */
  function DecimalAt(v: Value, key: string, c: Coercions): (r: Result<real, Error>)
    ensures r.Success? ==> c.toDecimal(v) == Some(r.value)
    ensures r.Failure? ==> c.toDecimal(v).None? && r.error == MalformedNumber(key)
  {
    match c.toDecimal(v)
    case Some(x) => Success(x)
    case None => Failure(MalformedNumber(key))
  }

  /** `OrderType[name]`. */
  function OrderTypeByName(name: Value): (r: Result<OrderType, Error>)
    ensures r.Success? ==> Str(r.value.Name()) == name
    ensures r.Failure? ==> OrderTypeFromName(name).None? && r.error == UnknownEnumName(name)
  {
    match OrderTypeFromName(name)
    case Some(t) => Success(t)
    case None => Failure(UnknownEnumName(name))
  }

  /**
   * order_filled_event_from_binance_execution_report. Any execution type other than "TRADE",
   * a missing `x` included, fails before anything else is read. Otherwise the arguments are
   * evaluated left to right, and the first key that is missing or whose value cannot be
   * converted is the error.
   */
  function FromBinanceExecutionReport(report: Dict, c: Coercions): (r: Result<OrderFilledEvent, Error>)
    ensures Get(report, "x") != Str("TRADE") ==> r == Failure(InvalidExecutionType(Get(report, "x")))
    ensures r.Success? <==> AcceptsReport(report, c)
    ensures r.Failure? && r.error.MissingKey? ==> r.error.key !in report
    ensures r.Failure? && r.error.UnknownEnumName? ==> r.error.name == Get(report, "o") && OrderTypeFromName(Get(report, "o")).None?
    ensures r.Failure? && r.error.NotANumber? ==> r.error.key == "E" && !Get(report, "E").IsNumber()
    ensures r.Failure? && r.error.MalformedNumber? ==>
      r.error.key in {"L", "l", "n"} && c.toDecimal(Get(report, r.error.key)).None?
    ensures r.Success? ==>
      var ev := r.value;
      && (report["E"].Int? ==> ev.timestamp * 1000.0 == report["E"].i as real)
      && (report["E"].Dec? ==> ev.timestamp * 1000.0 == report["E"].d)
      && ev.orderId == report["c"]
      && ev.tradingPair == report["s"]
      && (ev.tradeType == BUY <==> report["S"] == Str("BUY"))
      && (ev.tradeType == SELL <==> report["S"] != Str("BUY"))
      && Str(ev.orderType.Name()) == report["o"]
      && c.toDecimal(report["L"]) == Some(ev.price)
      && c.toDecimal(report["l"]) == Some(ev.amount)
      && ev.tradeFee == AddedToCostTradeFee([TokenAmount(report["N"], c.toDecimal(report["n"]).value)])
      && ev.exchangeTradeId == report["t"]
      && ev.leverage == Some(1)
      && ev.position == Some(FilledDefaultPosition)
  {
    var executionType := Get(report, "x");
    if executionType != Str("TRADE") then
      Failure(InvalidExecutionType(executionType))
    else
      var eventTime :- Lookup(report, "E");
      var timestamp :- MillisToSeconds(eventTime, "E");
      var orderId :- Lookup(report, "c");
      var tradingPair :- Lookup(report, "s");
      var side :- Lookup(report, "S");
      var orderTypeName :- Lookup(report, "o");
      var orderType :- OrderTypeByName(orderTypeName);
      var priceValue :- Lookup(report, "L");
      var price :- DecimalAt(priceValue, "L", c);
      var amountValue :- Lookup(report, "l");
      var amount :- DecimalAt(amountValue, "l", c);
      var feeAsset :- Lookup(report, "N");
      var feeAmountValue :- Lookup(report, "n");
      var feeAmount :- DecimalAt(feeAmountValue, "n", c);
      var tradeId :- Lookup(report, "t");
      Success(OrderFilledEvent(
        timestamp, orderId, tradingPair,
        if side == Str("BUY") then BUY else SELL,
        orderType, price, amount,
        AddedToCostTradeFee([TokenAmount(feeAsset, feeAmount)]),
        exchangeTradeId := tradeId))
  }

  /** One step of the execution-report factory after the execution-type check. */
  datatype ReportStep =
    | ReadKey(key: string)        // d[key]
    | ScaleMillis(key: string)    // d[key] * 1e-3
    | NameOrderType(key: string)  // OrderType[d[key]]
    | ParseDecimal(key: string)   // Decimal(d[key])

  /** The steps in the order Python evaluates the constructor's arguments. */
  const ReportSteps: seq<ReportStep> := [
    ReadKey("E"), ScaleMillis("E"), ReadKey("c"), ReadKey("s"), ReadKey("S"),
    ReadKey("o"), NameOrderType("o"), ReadKey("L"), ParseDecimal("L"),
    ReadKey("l"), ParseDecimal("l"), ReadKey("N"), ReadKey("n"), ParseDecimal("n"), ReadKey("t")]

  /** The exception a step raises, if any. */
  function StepError(step: ReportStep, report: Dict, c: Coercions): Option<Error> {
    match step
    case ReadKey(k) => if k in report then None else Some(MissingKey(k))
    case ScaleMillis(k) => if Get(report, k).IsNumber() then None else Some(NotANumber(k))
    case NameOrderType(k) =>
      if OrderTypeFromName(Get(report, k)).Some? then None else Some(UnknownEnumName(Get(report, k)))
    case ParseDecimal(k) => if c.toDecimal(Get(report, k)).Some? then None else Some(MalformedNumber(k))
  }

  /** The exception of the first step, from position `i` on, that raises one. */
  function FirstStepError(steps: seq<ReportStep>, i: nat, report: Dict, c: Coercions): Option<Error>
    requires i <= |steps|
    decreases |steps| - i
  {
    if i == |steps| then None
    else StepError(steps[i], report, c).Or(FirstStepError(steps, i + 1, report, c))
  }

  /**
   * Once the execution type is "TRADE", the factory fails exactly when some step raises,
   * and with the exception of the first one.
   */
  lemma ExecutionReportErrorIsFirstFailedStep(report: Dict, c: Coercions)
    requires Get(report, "x") == Str("TRADE")
    ensures FromBinanceExecutionReport(report, c).Failure? <==> FirstStepError(ReportSteps, 0, report, c).Some?
    ensures FromBinanceExecutionReport(report, c).Failure? ==>
      FromBinanceExecutionReport(report, c).error == FirstStepError(ReportSteps, 0, report, c).value
  {
    assert FirstStepError(ReportSteps, 0, report, c) == StepError(ReadKey("E"), report, c).Or(FirstStepError(ReportSteps, 1, report, c));
    assert FirstStepError(ReportSteps, 1, report, c) == StepError(ScaleMillis("E"), report, c).Or(FirstStepError(ReportSteps, 2, report, c));
    assert FirstStepError(ReportSteps, 2, report, c) == StepError(ReadKey("c"), report, c).Or(FirstStepError(ReportSteps, 3, report, c));
    assert FirstStepError(ReportSteps, 3, report, c) == StepError(ReadKey("s"), report, c).Or(FirstStepError(ReportSteps, 4, report, c));
    assert FirstStepError(ReportSteps, 4, report, c) == StepError(ReadKey("S"), report, c).Or(FirstStepError(ReportSteps, 5, report, c));
    assert FirstStepError(ReportSteps, 5, report, c) == StepError(ReadKey("o"), report, c).Or(FirstStepError(ReportSteps, 6, report, c));
    assert FirstStepError(ReportSteps, 6, report, c) == StepError(NameOrderType("o"), report, c).Or(FirstStepError(ReportSteps, 7, report, c));
    assert FirstStepError(ReportSteps, 7, report, c) == StepError(ReadKey("L"), report, c).Or(FirstStepError(ReportSteps, 8, report, c));
    assert FirstStepError(ReportSteps, 8, report, c) == StepError(ParseDecimal("L"), report, c).Or(FirstStepError(ReportSteps, 9, report, c));
    assert FirstStepError(ReportSteps, 9, report, c) == StepError(ReadKey("l"), report, c).Or(FirstStepError(ReportSteps, 10, report, c));
    assert FirstStepError(ReportSteps, 10, report, c) == StepError(ParseDecimal("l"), report, c).Or(FirstStepError(ReportSteps, 11, report, c));
    assert FirstStepError(ReportSteps, 11, report, c) == StepError(ReadKey("N"), report, c).Or(FirstStepError(ReportSteps, 12, report, c));
    assert FirstStepError(ReportSteps, 12, report, c) == StepError(ReadKey("n"), report, c).Or(FirstStepError(ReportSteps, 13, report, c));
    assert FirstStepError(ReportSteps, 13, report, c) == StepError(ParseDecimal("n"), report, c).Or(FirstStepError(ReportSteps, 14, report, c));
    assert FirstStepError(ReportSteps, 14, report, c) == StepError(ReadKey("t"), report, c).Or(FirstStepError(ReportSteps, 15, report, c));
  }

  /** An execution report never yields a RANGE fill, whatever its side literal. */
  lemma ExecutionReportNeverRange(report: Dict, c: Coercions)
    requires FromBinanceExecutionReport(report, c).Success?
    ensures FromBinanceExecutionReport(report, c).value.tradeType in {BUY, SELL}
  {
  }

  /** A report missing a required key fails, however valid the rest is. */
  lemma MissingReportKeyFails(report: Dict, c: Coercions, key: string)
    requires key in {"E", "c", "s", "S", "o", "L", "l", "N", "n", "t"} && key !in report
    ensures FromBinanceExecutionReport(report, c).Failure?
  {
  }

  /** A sample report for a limit buy of 0.01 at 100.5. */
  function SampleTradeReport(executionType: Value): Dict {
    map["x" := executionType, "E" := Int(1700000000123), "c" := Str("o1"), "s" := Str("BTC-USDT"),
        "S" := Str("BUY"), "o" := Str("LIMIT"), "L" := Str("100.5"), "l" := Str("0.01"),
        "N" := Str("USDT"), "n" := Str("0.001"), "t" := Str("t1")]
  }

  /** The sample report becomes a LIMIT BUY fill at 1700000000.123 s when Decimal parses its literals. */
  lemma SampleTradeReportAccepted(c: Coercions)
    requires c.toDecimal(Str("100.5")) == Some(100.5)
    requires c.toDecimal(Str("0.01")) == Some(0.01)
    requires c.toDecimal(Str("0.001")) == Some(0.001)
    ensures FromBinanceExecutionReport(SampleTradeReport(Str("TRADE")), c)
         == Success(OrderFilledEvent(1700000000.123, Str("o1"), Str("BTC-USDT"), BUY, LIMIT, 100.5, 0.01,
                                     AddedToCostTradeFee([TokenAmount(Str("USDT"), 0.001)]), Str("t1"), Some(1), Some("NIL")))
  {
  }

  /** The same report with execution type "NEW" (an acknowledgement) is rejected, carrying "NEW". */
  lemma SampleNewReportRejected(c: Coercions)
    ensures FromBinanceExecutionReport(SampleTradeReport(Str("NEW")), c) == Failure(InvalidExecutionType(Str("NEW")))
  {
  }

  /** An order-type name outside MARKET, LIMIT and LIMIT_MAKER is an unknown-enum error. */
  lemma SampleUnknownOrderTypeRejected(c: Coercions)
    ensures FromBinanceExecutionReport(SampleTradeReport(Str("TRADE"))["o" := Str("STOP_LOSS")], c)
         == Failure(UnknownEnumName(Str("STOP_LOSS")))
  {
  }
}
