/**
 * RemoteCmdEvent of hummingbot/core/event/events.py: the record built by `from_json_data`
 * from a decoded command dictionary, and the object whose `command` field
 * `translate_commands` rewrites through an alias table.
 */
module RemoteCmd {
  import opened Wrappers
  import opened PyValues

  /** The record's field values. Defaults are the dataclass defaults. */
  datatype RemoteCmdRecord = RemoteCmdRecord(
    eventDescriptor: Value,
    command: Value := Null,
    timestampReceived: Option<int> := None,
    timestampEvent: Option<int> := None,
    exchange: Value := Null,
    symbol: Value := Null,
    interval: Option<int> := None,
    price: Option<real> := Some(0.0),
    volume: Option<real> := Some(0.0),
    inventory: Option<real> := Some(0.0),
    orderBidSpread: Option<real> := None,
    orderAskSpread: Option<real> := None,
    orderAmount: Option<real> := None,
    orderLevels: Option<real> := None,
    orderLevelSpread: Option<real> := None)

  /** The eleven optional numeric keys, in the order the constructor call evaluates them. */
  datatype NumericKey =
    | TimestampReceived | TimestampEvent | Interval
    | Price | Volume | Inventory
    | OrderBidSpread | OrderAskSpread | OrderAmount | OrderLevels | OrderLevelSpread
  {
    function Name(): string {
      match this
      case TimestampReceived => "timestamp_received"
      case TimestampEvent => "timestamp_event"
      case Interval => "interval"
      case Price => "price"
      case Volume => "volume"
      case Inventory => "inventory"
      case OrderBidSpread => "order_bid_spread"
      case OrderAskSpread => "order_ask_spread"
      case OrderAmount => "order_amount"
      case OrderLevels => "order_levels"
      case OrderLevelSpread => "order_level_spread"
    }

    /** The position of the field's argument in the constructor call. */
    function Position(): nat {
      match this
      case TimestampReceived => 0
      case TimestampEvent => 1
      case Interval => 2
      case Price => 3
      case Volume => 4
      case Inventory => 5
      case OrderBidSpread => 6
      case OrderAskSpread => 7
      case OrderAmount => 8
      case OrderLevels => 9
      case OrderLevelSpread => 10
    }

    /** The three fields converted with `int(...)`; the others use `Decimal(...)`. */
    predicate IsInt() {
      TimestampReceived? || TimestampEvent? || Interval?
    }
  }

  /** An int or a Decimal, as one of the numeric fields holds it. */
  datatype Number = IntNumber(i: int) | DecimalNumber(d: real)

  /** The conversion the field's key calls for; None where it raises. */
  function Coerce(key: NumericKey, v: Value, c: Coercions): Option<Number> {
    if key.IsInt() then
      match c.toInt(v)
      case Some(i) => Some(IntNumber(i))
      case None => None
    else
      match c.toDecimal(v)
      case Some(d) => Some(DecimalNumber(d))
      case None => None
  }

  /** The gate lets a value through to `int`/`Decimal` only when it is truthy. */
  predicate FieldParses(data: Dict, key: NumericKey, c: Coercions) {
    var v := Get(data, key.Name());
    !v.Truthy() || Coerce(key, v, c).Some?
  }

  /** What `X(v) if v else None` gives a field whose conversion does not raise. */
  function GatedField(data: Dict, key: NumericKey, c: Coercions): Option<Number> {
    var v := Get(data, key.Name());
    if v.Truthy() then Coerce(key, v, c) else None
  }

  function IntField(x: Option<int>): Option<Number> {
    match x
    case Some(i) => Some(IntNumber(i))
    case None => None
  }

  function DecimalField(x: Option<real>): Option<Number> {
    match x
    case Some(d) => Some(DecimalNumber(d))
    case None => None
  }

  /** The record's field for a numeric key. */
  function NumericField(rec: RemoteCmdRecord, key: NumericKey): Option<Number> {
    match key
    case TimestampReceived => IntField(rec.timestampReceived)
    case TimestampEvent => IntField(rec.timestampEvent)
    case Interval => IntField(rec.interval)
    case Price => DecimalField(rec.price)
    case Volume => DecimalField(rec.volume)
    case Inventory => DecimalField(rec.inventory)
    case OrderBidSpread => DecimalField(rec.orderBidSpread)
    case OrderAskSpread => DecimalField(rec.orderAskSpread)
    case OrderAmount => DecimalField(rec.orderAmount)
    case OrderLevels => DecimalField(rec.orderLevels)
    case OrderLevelSpread => DecimalField(rec.orderLevelSpread)
  }

  /** `int(v) if v else None`, for the value under `key`. */
  function GateInt(data: Dict, key: NumericKey, c: Coercions): (r: Result<Option<int>, Error>)
    requires key.IsInt()
    ensures r.Success? <==> FieldParses(data, key, c)
    ensures r.Failure? ==> r.error == MalformedNumber(key.Name())
    ensures r.Success? ==> IntField(r.value) == GatedField(data, key, c)
  {
    var v := Get(data, key.Name());
    if !v.Truthy() then Success(None)
    else match c.toInt(v)
      case Some(i) => Success(Some(i))
      case None => Failure(MalformedNumber(key.Name()))
  }

  /** `Decimal(v) if v else None`, for the value under `key`. */
  function GateDecimal(data: Dict, key: NumericKey, c: Coercions): (r: Result<Option<real>, Error>)
    requires !key.IsInt()
    ensures r.Success? <==> FieldParses(data, key, c)
    ensures r.Failure? ==> r.error == MalformedNumber(key.Name())
    ensures r.Success? ==> DecimalField(r.value) == GatedField(data, key, c)
  {
    var v := Get(data, key.Name());
    if !v.Truthy() then Success(None)
    else match c.toDecimal(v)
      case Some(d) => Success(Some(d))
      case None => Failure(MalformedNumber(key.Name()))
  }

  /** Every numeric field's conversion, where the gate lets the value through, succeeds. */
  predicate AllFieldsParse(data: Dict, c: Coercions) {
    && FieldParses(data, TimestampReceived, c) && FieldParses(data, TimestampEvent, c)
    && FieldParses(data, Interval, c) && FieldParses(data, Price, c)
    && FieldParses(data, Volume, c) && FieldParses(data, Inventory, c)
    && FieldParses(data, OrderBidSpread, c) && FieldParses(data, OrderAskSpread, c)
    && FieldParses(data, OrderAmount, c) && FieldParses(data, OrderLevels, c)
    && FieldParses(data, OrderLevelSpread, c)
  }

  /** Every numeric field of `rec` is what the gate makes of `data`. */
  predicate AllFieldsGated(rec: RemoteCmdRecord, data: Dict, c: Coercions) {
    && NumericField(rec, TimestampReceived) == GatedField(data, TimestampReceived, c)
    && NumericField(rec, TimestampEvent) == GatedField(data, TimestampEvent, c)
    && NumericField(rec, Interval) == GatedField(data, Interval, c)
    && NumericField(rec, Price) == GatedField(data, Price, c)
    && NumericField(rec, Volume) == GatedField(data, Volume, c)
    && NumericField(rec, Inventory) == GatedField(data, Inventory, c)
    && NumericField(rec, OrderBidSpread) == GatedField(data, OrderBidSpread, c)
    && NumericField(rec, OrderAskSpread) == GatedField(data, OrderAskSpread, c)
    && NumericField(rec, OrderAmount) == GatedField(data, OrderAmount, c)
    && NumericField(rec, OrderLevels) == GatedField(data, OrderLevels, c)
    && NumericField(rec, OrderLevelSpread) == GatedField(data, OrderLevelSpread, c)
  }

  /**
   * from_json_data. The string fields are copied as `.get` finds them (None when missing).
   * Each numeric field is absent when its value is missing, None, "", 0 or 0.0, and is the
   * converted number otherwise; a conversion that raises is the error.
   */
  function FromJsonData(data: Dict, c: Coercions): (r: Result<RemoteCmdRecord, Error>)
    ensures r.Success? <==> AllFieldsParse(data, c)
    ensures r.Failure? ==> exists key: NumericKey :: r.error == MalformedNumber(key.Name()) && !FieldParses(data, key, c)
    ensures r.Success? ==>
      && r.value.eventDescriptor == Get(data, "event_descriptor")
      && r.value.command == Get(data, "command")
      && r.value.exchange == Get(data, "exchange")
      && r.value.symbol == Get(data, "symbol")
    ensures r.Success? ==> AllFieldsGated(r.value, data, c)
  {
    var timestampReceived :- GateInt(data, TimestampReceived, c);
    var timestampEvent :- GateInt(data, TimestampEvent, c);
    var interval :- GateInt(data, Interval, c);
    var price :- GateDecimal(data, Price, c);
    var volume :- GateDecimal(data, Volume, c);
    var inventory :- GateDecimal(data, Inventory, c);
    var orderBidSpread :- GateDecimal(data, OrderBidSpread, c);
    var orderAskSpread :- GateDecimal(data, OrderAskSpread, c);
    var orderAmount :- GateDecimal(data, OrderAmount, c);
    var orderLevels :- GateDecimal(data, OrderLevels, c);
    var orderLevelSpread :- GateDecimal(data, OrderLevelSpread, c);
    Success(RemoteCmdRecord(
      eventDescriptor := Get(data, "event_descriptor"),
      command := Get(data, "command"),
      timestampReceived := timestampReceived,
      timestampEvent := timestampEvent,
      exchange := Get(data, "exchange"),
      symbol := Get(data, "symbol"),
      interval := interval,
      price := price,
      volume := volume,
      inventory := inventory,
      orderBidSpread := orderBidSpread,
      orderAskSpread := orderAskSpread,
      orderAmount := orderAmount,
      orderLevels := orderLevels,
      orderLevelSpread := orderLevelSpread))
  }

  /** The explicit conjunction is the statement about all numeric keys. */
  lemma AllFieldsParseIff(data: Dict, c: Coercions)
    ensures AllFieldsParse(data, c) <==> forall key: NumericKey :: FieldParses(data, key, c)
  {
  }

  /** Parsing succeeds exactly when no numeric value that passes the gate fails to convert. */
  lemma FromJsonDataSucceedsIff(data: Dict, c: Coercions)
    ensures FromJsonData(data, c).Success? <==> forall key: NumericKey :: FieldParses(data, key, c)
  {
  }

  /**
   * The gate, field by field: a missing, None, "", 0 or 0.0 value leaves the field absent,
   * and any other value becomes the converted number.
   */
  lemma GateOnEveryField(data: Dict, c: Coercions, key: NumericKey)
    requires FromJsonData(data, c).Success?
    ensures !Get(data, key.Name()).Truthy() ==> NumericField(FromJsonData(data, c).value, key) == None
    ensures Get(data, key.Name()).Truthy() ==>
      && Coerce(key, Get(data, key.Name()), c).Some?
      && NumericField(FromJsonData(data, c).value, key) == Coerce(key, Get(data, key.Name()), c)
  {
  }

  /**
   * The first numeric field, in argument order, whose conversion raises is the error,
   * whatever the later fields hold.
   */
  lemma FirstMalformedFieldIsReported(data: Dict, c: Coercions, key: NumericKey)
    requires !FieldParses(data, key, c)
    requires forall earlier: NumericKey :: earlier.Position() < key.Position() ==> FieldParses(data, earlier, c)
    ensures FromJsonData(data, c) == Failure(MalformedNumber(key.Name()))
  {
  }

  /**
   * A missing price, volume or inventory is absent, not the dataclass default of zero.
   */
  lemma MissingAmountsAreAbsentNotZero(data: Dict, c: Coercions)
    requires FromJsonData(data, c).Success?
    requires "price" !in data && "volume" !in data && "inventory" !in data
    ensures FromJsonData(data, c).value.price == None != RemoteCmdRecord(Null).price
    ensures FromJsonData(data, c).value.volume == None != RemoteCmdRecord(Null).volume
    ensures FromJsonData(data, c).value.inventory == None != RemoteCmdRecord(Null).inventory
  {
  }

  /**
   * The gate is a truthiness test, not a zero test: the string "0" passes it and becomes
   * Decimal zero ...
   */
  lemma StringZeroPriceIsZero(data: Dict, c: Coercions)
    requires FromJsonData(data, c).Success?
    requires Get(data, "price") == Str("0") && c.toDecimal(Str("0")) == Some(0.0)
    ensures FromJsonData(data, c).value.price == Some(0.0)
  {
  }

  /** ... while the number zero, the empty string and None leave the price absent. */
  lemma FalsyPriceIsAbsent(data: Dict, c: Coercions)
    requires FromJsonData(data, c).Success?
    requires Get(data, "price") in {Int(0), Dec(0.0), Str(""), Null}
    ensures FromJsonData(data, c).value.price == None
  {
  }

  /** A price of "1.5" becomes Decimal 1.5. */
  lemma DecimalPriceIsCoerced(data: Dict, c: Coercions)
    requires FromJsonData(data, c).Success?
    requires Get(data, "price") == Str("1.5") && c.toDecimal(Str("1.5")) == Some(1.5)
    ensures FromJsonData(data, c).value.price == Some(1.5)
  {
  }

  /**
   * `translate_commands` as a function of the old command: a non-empty string command that
   * is a key of the table becomes that key's value, once; anything else is kept.
   */
  function Translated(command: Value, transDict: map<string, Value>): (r: Value)
    ensures !command.Truthy() || |transDict| == 0 ==> r == command
    ensures r != command ==> command.Str? && command.s in transDict && r == transDict[command.s]
  {
    match command
    case Str(s) => if s != "" && s in transDict then transDict[s] else command
    case _ => command
  }

  /** A non-empty command that is a key of the table becomes that key's value. */
  lemma TranslationOnExactMatch(s: string, transDict: map<string, Value>)
    requires s != "" && s in transDict
    ensures Translated(Str(s), transDict) == transDict[s]
  {
  }

  /**
   * The command is kept when it is falsy, when the table is empty, or when it equals no
   * key (a non-string command never does).
   */
  lemma TranslationKeepsCommand(command: Value, transDict: map<string, Value>)
    requires !command.Truthy() || |transDict| == 0 || forall k :: k in transDict ==> command != Str(k)
    ensures Translated(command, transDict) == command
  {
  }

  /**
   * The empty command is never translated, even when the table has "" as a key: the
   * truthiness test comes before the key scan.
   */
  lemma EmptyCommandNotTranslated(transDict: map<string, Value>)
    ensures Translated(Str(""), transDict) == Str("")
  {
  }

  /** The replacement happens once: a translation that is itself a key is not translated again. */
  lemma TranslationIsNotChained()
    ensures Translated(Str("a"), map["a" := Str("b"), "b" := Str("c")]) == Str("b")
    ensures Translated(Translated(Str("a"), map["a" := Str("b"), "b" := Str("c")]), map["a" := Str("b"), "b" := Str("c")]) == Str("c")
  {
  }

  /** "buy" with the table {"buy": "BUY_ORDER"} becomes "BUY_ORDER"; an empty table or no command changes nothing. */
  lemma TranslationSamples()
    ensures Translated(Str("buy"), map["buy" := Str("BUY_ORDER")]) == Str("BUY_ORDER")
    ensures Translated(Str("buy"), map[]) == Str("buy")
    ensures Translated(Null, map["buy" := Str("BUY_ORDER")]) == Null
  {
  }

  /** A RemoteCmdEvent object; `command` is the field `translate_commands` overwrites. */
  class RemoteCmdEvent {
    var eventDescriptor: Value
    var command: Value
    var timestampReceived: Option<int>
    var timestampEvent: Option<int>
    var exchange: Value
    var symbol: Value
    var interval: Option<int>
    var price: Option<real>
    var volume: Option<real>
    var inventory: Option<real>
    var orderBidSpread: Option<real>
    var orderAskSpread: Option<real>
    var orderAmount: Option<real>
    var orderLevels: Option<real>
    var orderLevelSpread: Option<real>

    /** The object's field values. */
    function Record(): RemoteCmdRecord
      reads this
    {
      RemoteCmdRecord(eventDescriptor, command, timestampReceived, timestampEvent, exchange, symbol,
                      interval, price, volume, inventory, orderBidSpread, orderAskSpread,
                      orderAmount, orderLevels, orderLevelSpread)
    }

    constructor (r: RemoteCmdRecord)
      ensures Record() == r
    {
      eventDescriptor := r.eventDescriptor;
      command := r.command;
      timestampReceived := r.timestampReceived;
      timestampEvent := r.timestampEvent;
      exchange := r.exchange;
      symbol := r.symbol;
      interval := r.interval;
      price := r.price;
      volume := r.volume;
      inventory := r.inventory;
      orderBidSpread := r.orderBidSpread;
      orderAskSpread := r.orderAskSpread;
      orderAmount := r.orderAmount;
      orderLevels := r.orderLevels;
      orderLevelSpread := r.orderLevelSpread;
    }

    /**
     * translate_commands: when the command is truthy and the table non-empty, scan the
     * table's keys and, at the first key equal to the command, replace the command by that
     * key's value and stop. Only `command` may change.
     */
    method TranslateCommands(transDict: map<string, Value>)
      modifies this`command
      ensures command == Translated(old(command), transDict)
      ensures Record() == old(Record()).(command := Translated(old(command), transDict))
    {
      if command.Truthy() && |transDict| > 0 {
        var keys := transDict.Keys;
        while keys != {}
          invariant keys <= transDict.Keys
          invariant command == old(command)
          invariant forall k :: k in transDict && k !in keys ==> command != Str(k)
          decreases keys
        {
          var toBeTranslated :| toBeTranslated in keys;
          if command == Str(toBeTranslated) {
            command := transDict[toBeTranslated];
            break;
          }
          keys := keys - {toBeTranslated};
        }
      }
    }
  }
}
