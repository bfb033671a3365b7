/**
 * The loosely-typed values the event factories read out of dictionaries (a decoded
 * execution report, a decoded remote command), Python's truthiness on them, and the
 * errors the factories raise.
 */
module PyValues {
  import opened Wrappers

  /**
   * A value held in a dictionary. `Null` is Python's `None`: both a JSON null and what
   * `dict.get` returns for a missing key, which the source never tells apart.
   * `Dec` is a non-integer number as JSON decoding produces it: a finite float.
   */
  datatype Value = Null | Str(s: string) | Int(i: int) | Dec(d: real) {

    /** Python's `bool(v)`: None, "", 0 and 0.0 are false; every other value, "0" included, is true. */
    predicate Truthy() {
      match this
      case Null => false
      case Str(s) => s != ""
      case Int(i) => i != 0
      case Dec(d) => d != 0.0
    }

    /** Whether `v * 1e-3` is defined: only numbers can be multiplied by a float. */
    predicate IsNumber() {
      Int? || Dec?
    }
  }

  type Dict = map<string, Value>

  /** `d.get(key)`: None when the key is missing. */
  function Get(d: Dict, key: string): Value {
    if key in d then d[key] else Null
  }

  /** `d[key]`: a KeyError when the key is missing. */
  function Lookup(d: Dict, key: string): (r: Result<Value, Error>)
    ensures r.Success? <==> key in d
    ensures r.Success? ==> r.value == Get(d, key)
    ensures r.Failure? ==> r.error == MissingKey(key)
  {
    if key in d then Success(d[key]) else Failure(MissingKey(key))
  }

  /**
   * Python's `int(v)` and `Decimal(v)`, whose parsing is not modelled: each maps a value
   * to the number it denotes, or to None where the conversion raises.
   */
  datatype Coercions = Coercions(toInt: Value -> Option<int>, toDecimal: Value -> Option<real>)

  /** The exceptions raised by the factories in hummingbot/core/event/events.py. */
  datatype Error =
    | InvalidExecutionType(found: Value)  // ValueError: execution type other than "TRADE"
    | MissingKey(key: string)             // KeyError: a required key is absent
    | NotANumber(key: string)             // TypeError: a non-number multiplied by 1e-3
    | UnknownEnumName(name: Value)        // KeyError: no OrderType member has this name
    | MalformedNumber(key: string)        // int() or Decimal() raised on the value under key

  /** The values Python treats as false are exactly None, "", 0 and 0.0. */
  lemma FalsyValues(v: Value)
    ensures !v.Truthy() <==> (v == Null || v == Str("") || v == Int(0) || v == Dec(0.0))
  {
  }

  /** A non-empty string is true even when it spells zero. */
  lemma StringZeroIsTruthy()
    ensures Str("0").Truthy() && Str("0.0").Truthy()
    ensures !Int(0).Truthy() && !Dec(0.0).Truthy()
  {
  }
}
