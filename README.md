# Trading events: a verified model

This project models `hummingbot/core/event/events.py`, the file that defines the
trading-automation system's domain events. It covers:

- the event-kind and order enumerations with their fixed codes (`MarketEvent`, `OrderType`
  and its `is_limit_type`, `TradeType`, the position qualifiers, `PriceType`,
  `LimitOrderStatus`), with each code kept as declared, gaps included;
- the event records (NamedTuples and dataclasses), with the source's defaults;
- the two alternate constructors of `OrderFilledEvent`: one fill per order-book row, and one
  fill from a Binance-style execution report (validation, side collapse, order-type lookup
  by name, fee wrapping);
- `RemoteCmdEvent.from_json_data`, with its truthiness-gated numeric coercion;
- `RemoteCmdEvent.translate_commands`, the in-place command rewrite through an alias table.

Files, one module each:

- `wrappers.dfy`: `Option` and a `Result` that works with `:-`.
- `py_values.dfy`: `Value` (None, str, int, non-integer number), Python truthiness,
  `dict.get` and `dict[...]`, the error kinds, and the `Coercions` parameter.
- `enums.dfy`: the enumerations.
- `records.dfy`: the event records.
- `order_filled.dfy`: the two fill factories.
- `remote_cmd.dfy`: the remote-command record, its parser, and the `RemoteCmdEvent` class
  with `TranslateCommands`.

Modelling choices:

- Dictionaries are `map<string, Value>`. A missing key and a JSON null are both Python
  `None`, so `.get` returns `Null` for both. `d[key]` on a missing key is a `MissingKey`
  error.
- `int(v)` and `Decimal(v)` are not modelled. They are a parameter `c: Coercions` of two
  total functions, where `None` stands for "the conversion raised". Properties that depend
  on a particular literal (for example `Decimal("0") == 0`) take it as a `requires` on `c`.
- Fields annotated `str` that the execution report fills from the dictionary (order id,
  trading pair, exchange trade id, fee token) hold a `Value`. Python does not enforce the
  annotation, so these fields hold whatever the dictionary held.
- Every exception is a `Failure` of a `Result`. When several inputs are bad, the error
  reported is the one from the step Python evaluates first: the constructor's arguments
  are evaluated left to right.
- `translate_commands` changes the object, so it is a method on the class `RemoteCmdEvent`.
  The method's frame is `this`command` only, and a loop scans the table's keys. The pure
  function `Translated` is its specification.

The model follows the code in these places, some of which a reader might expect to work otherwise:

- A remote command whose `price` is the string `"0"` gets a price of Decimal zero, not an
  absent price. The string is non-empty, so it passes the truthiness gate
  (events.py:348).
- A price, volume or inventory missing from the command dictionary is absent (`None`),
  not the dataclass default of zero (events.py:348-350).
- `event_descriptor` is read with `.get`, so the code never requires it
  (events.py:341).
- `translate_commands` changes the object in place and returns nothing
  (events.py:358-363).
- No code enforces that a fill's price and amount are non-negative, so the model makes no
  such claim.

## Model

| member | source | states |
|---|---|---|
| `Enums.MarketEventFromCode` | hummingbot/core/event/events.py:11-29 | Returns the member whose declared code equals the argument; returns none when no member has that code. |
| `Enums.MarketEventCodeRoundTrip` | hummingbot/core/event/events.py:11-29 | Each member is found again by its own code, so no two members share a code. |
| `Enums.MarketEventCodeGaps` | hummingbot/core/event/events.py:15-29 | 104 (the deprecated Trade) is not a member, and neither are the neighbouring codes 109, 197, 203 and 305, which the source does not declare. |
| `Enums.OrderBookEventFromCode` | hummingbot/core/event/events.py:32-33 | The only code is 901 (TradeEvent). |
| `Enums.RemoteEventFromCode` | hummingbot/core/event/events.py:36-37 | The only code is 2001 (RemoteCmdEvent). |
| `Enums.TradeTypeFromCode` | hummingbot/core/event/events.py:40-43 | The codes are exactly 1 to 3, and lookup returns the member with the given code. |
| `Enums.OrderTypeFromCode` | hummingbot/core/event/events.py:46-49 | The codes are exactly 1 to 3, and lookup returns the member with the given code. |
| `Enums.OrderType.IsLimitType` | hummingbot/core/event/events.py:51-52 | `is_limit_type` holds exactly for the types other than MARKET. |
| `Enums.IsLimitTypeExactly` | hummingbot/core/event/events.py:51-52 | `is_limit_type` holds exactly for LIMIT and LIMIT_MAKER and fails for MARKET. |
| `Enums.OrderTypeFromName` | hummingbot/core/event/events.py:210 | `OrderType[v]` finds the member whose name equals `v` exactly. Any other value, including one that is not a string, finds nothing. |
| `Enums.OrderTypeNameRoundTrip` | hummingbot/core/event/events.py:46-49 | Looking up a member by its own name finds that member. |
| `Enums.PositionActionFromCode` | hummingbot/core/event/events.py:55-58 | Returns the action whose string value equals the argument; returns none when no action has that value. |
| `Enums.PositionSideFromCode` | hummingbot/core/event/events.py:62-65 | Returns the side whose string value equals the argument; returns none when no side has that value. |
| `Enums.PositionModeFromCode` | hummingbot/core/event/events.py:69-71 | Each boolean names the mode whose value it is (HEDGE is true, ONEWAY is false). |
| `Enums.PriceTypeFromCode` | hummingbot/core/event/events.py:82-89 | The codes are exactly 1 to 7, and lookup returns the member with the given code. |
| `Enums.LimitOrderStatusFromCode` | hummingbot/core/event/events.py:299-306 | The codes are exactly 0 to 6, and lookup returns the member with the given code. |
| `PyValues.FalsyValues` | hummingbot/core/event/events.py:343-355 | The gate's test `if v` is false exactly for None, "", 0 and 0.0. |
| `PyValues.StringZeroIsTruthy` | hummingbot/core/event/events.py:348 | "0" and "0.0" pass the gate; the numbers 0 and 0.0 do not. |
| `Records.FilledEventDefaults` | hummingbot/core/event/events.py:169-171 | A fill built without the optional fields has exchange trade id "", leverage 1 and position "NIL". |
| `Records.CreatedEventDefaults` | hummingbot/core/event/events.py:226-241 | A created-order event defaults to no exchange order id, leverage 1 and position "NILL", which differs from a fill's "NIL". |
| `OrderFilled.FromOrderBookRows` | hummingbot/core/event/events.py:173-198 | Returns exactly one fill per row, in row order. Fill i has row i's price and amount and the shared timestamp, order id, pair, side, order type, fee and trade id, with leverage 1 and position "NIL". |
| `OrderFilled.FromOrderBookRowsAppend` | hummingbot/core/event/events.py:185-198 | The fills of two concatenated row lists are the concatenation of each list's fills. |
| `OrderFilled.MillisToSeconds` | hummingbot/core/event/events.py:206 | `E * 1e-3` succeeds exactly for a number, and the seconds it gives, times 1000, are the milliseconds read. Any other value is a type error naming the key. |
| `OrderFilled.FromBinanceExecutionReport` | hummingbot/core/event/events.py:200-215 | If `x` is anything but "TRADE" (missing included), the result is an invalid-execution-type error carrying the value found. Success means `x` is "TRADE", all ten keys are present, `E` is a number, `o` names an order type, and `L`, `l` and `n` convert. On success the fill has: timestamp `E`/1000; order id `c`; pair `s`; side BUY exactly when `S` is "BUY", otherwise SELL; order type named by `o`; price `L` and amount `l`; a fee with the single flat fee (`N`, `n`); trade id `t`; leverage 1; position "NIL". Any error names a key that is missing or a value that did not convert. |
| `OrderFilled.ExecutionReportErrorIsFirstFailedStep` | hummingbot/core/event/events.py:205-215 | When `x` is "TRADE", the factory fails exactly when some lookup or conversion raises. The error is the one from the first such step in argument-evaluation order. |
| `OrderFilled.ExecutionReportNeverRange` | hummingbot/core/event/events.py:209 | An accepted report is never a RANGE fill. |
| `OrderFilled.MissingReportKeyFails` | hummingbot/core/event/events.py:205-214 | A report missing any of `E`, `c`, `s`, `S`, `o`, `L`, `l`, `N`, `n`, `t` is rejected. |
| `OrderFilled.SampleTradeReportAccepted` | hummingbot/core/event/events.py:200-215 | The sample trade report becomes a LIMIT BUY fill at 1700000000.123 s: price 100.5, amount 0.01, fee 0.001 USDT, trade id "t1". |
| `OrderFilled.SampleNewReportRejected` | hummingbot/core/event/events.py:202-204 | The same report with execution type "NEW" is rejected and carries "NEW". |
| `OrderFilled.SampleUnknownOrderTypeRejected` | hummingbot/core/event/events.py:210 | An order type named "STOP_LOSS" is an unknown-enum error. |
| `RemoteCmd.FromJsonData` | hummingbot/core/event/events.py:327-356 | Parsing succeeds exactly when every gated numeric value converts. A failure names a numeric key whose value failed to convert. The four string fields are copied exactly as `.get` returns them. Each numeric field is what the truthiness gate gives: absent for a falsy value, otherwise the converted int or Decimal. |
| `RemoteCmd.AllFieldsParseIff` | hummingbot/core/event/events.py:343-355 | The eleven-field success condition is the same as "every numeric key converts". |
| `RemoteCmd.FromJsonDataSucceedsIff` | hummingbot/core/event/events.py:340-356 | Parsing succeeds exactly when no numeric value that passes the gate fails to convert. |
| `RemoteCmd.GateOnEveryField` | hummingbot/core/event/events.py:343-355 | For each numeric field: a missing, None, "", 0 or 0.0 value leaves it absent. Any other value makes it the converted number. |
| `RemoteCmd.FirstMalformedFieldIsReported` | hummingbot/core/event/events.py:340-356 | The first numeric field, in argument order, whose conversion raises is the error, whatever the later fields hold. |
| `RemoteCmd.MissingAmountsAreAbsentNotZero` | hummingbot/core/event/events.py:348-350 | A missing price, volume or inventory is absent, which differs from the dataclass default of zero (lines 318-320). |
| `RemoteCmd.StringZeroPriceIsZero` | hummingbot/core/event/events.py:348 | A price of "0" is truthy and becomes Decimal 0; it is not absent. |
| `RemoteCmd.FalsyPriceIsAbsent` | hummingbot/core/event/events.py:348 | A price of 0, 0.0, "" or None leaves the price absent. |
| `RemoteCmd.DecimalPriceIsCoerced` | hummingbot/core/event/events.py:348 | A price of "1.5" becomes Decimal 1.5. |
| `RemoteCmd.Translated` | hummingbot/core/event/events.py:358-363 | A falsy command or an empty table leaves the command as it is. A command that changes was a string key of the table and becomes that key's value. |
| `RemoteCmd.TranslationOnExactMatch` | hummingbot/core/event/events.py:358-363 | A non-empty command that is a key of the table becomes that key's value. |
| `RemoteCmd.TranslationKeepsCommand` | hummingbot/core/event/events.py:359-363 | The command is kept when it is falsy, when the table is empty, or when it equals no key. |
| `RemoteCmd.EmptyCommandNotTranslated` | hummingbot/core/event/events.py:359 | The empty command is never translated, even when "" is a key. |
| `RemoteCmd.TranslationIsNotChained` | hummingbot/core/event/events.py:361-363 | The command is replaced once: a translation that is itself a key is not translated again. |
| `RemoteCmd.TranslationSamples` | hummingbot/core/event/events.py:358-363 | "buy" with {"buy": "BUY_ORDER"} becomes "BUY_ORDER". An empty table, or no command, leaves the command unchanged. |
| `RemoteCmd.RemoteCmdEvent.constructor` | hummingbot/core/event/events.py:309-325 | The new object's fields are the given record's fields. |
| `RemoteCmd.RemoteCmdEvent.TranslateCommands` | hummingbot/core/event/events.py:358-363 | After the call, `command` is `Translated(old command, table)` and every other field is unchanged. |

## Left out

- `OrderFilled.MillisToSeconds`: divides the millisecond time exactly by 1000. It does not model the binary floating-point rounding of `E * 1e-3`. Every float timestamp is an exact `real`.
- Parsing inside `int(...)` and `Decimal(...)` is a parameter (`Coercions`), not defined here. `Decimal` of a float is taken as exact, so a row's price and amount pass through unchanged.
- `OrderBookRow`, `TradeFeeBase`, `AddedToCostTradeFee` and `TokenAmount` come from `hummingbot/core/data_type/order_book_row.py` and `hummingbot/core/data_type/trade_fee.py`, which are not part of this model. They are reduced to a row with a price and an amount, and a fee with a list of flat fees. Percentage fees and fee arithmetic are left out.
- Python equality across types (`1 == 1.0 == Decimal(1)`) is not modelled. Translation-table keys are strings, so only a string command can match one.
- JSON booleans, lists and nested objects are not `Value`s.
- `PyValues.Value`: a `Dec` is a finite float, as JSON decoding gives it. Decimal-typed values are not represented, so the TypeError that `Decimal * 1e-3` raises for a Decimal `E` (events.py:206) is not modelled. NaN and ±Infinity are not represented either: a `Coercions` function can only reject them, whereas Python's `Decimal("NaN")` returns a NaN price (events.py:211, 348).
- The dataclass records (`BuyOrderCompletedEvent`, `OrderCancelledEvent`, the created-order and range-position events, and others) are mutable in Python. No code in this file changes them, so they are modelled as values; assignment to their fields after construction is not captured.
- The exception classes (ValueError, KeyError, TypeError, decimal.InvalidOperation) and their messages are reduced to the `Error` kinds.
- The order in which a Python dict yields its keys is not modelled. The keys are unique, so at most one can equal the command, and the scan order cannot change the result.
- `from_json_data` returns a constructed object in Python. Here it returns the record of field values, and the `RemoteCmdEvent` constructor builds the object from that record.
- The record-only event classes have no logic. They are declared as datatypes, and their field round trip is what datatype construction and destructors provide, so no lemma states it.
- Publishing and dispatching events are not in this file.
