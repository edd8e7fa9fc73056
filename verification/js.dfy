/**
 * The pieces of JavaScript semantics the browser script relies on when it
 * reads a parsed JSON response: truthiness, `a || b`, and `x > 0`.
 * A property read yields Option<Value>; None stands for `undefined`.
 */
module Js {
  import opened Wrappers
  import opened Json

  /** Truthiness: undefined, null, false, 0 and "" are falsy; arrays and objects are truthy. */
  predicate Truthy(v: Option<Value>) {
    match v
    case None => false
    case Some(Null) => false
    case Some(Bool(b)) => b
    case Some(Number(n)) => n != 0.0
    case Some(Str(s)) => s != ""
    case Some(Array(_)) => true
    case Some(Object(_)) => true
  }

  /** `shown` is what `read || fallback` evaluates to. */
  predicate Defaulted(shown: Value, read: Option<Value>, fallback: Value) {
    if Truthy(read) then read == Some(shown) else shown == fallback
  }

  /** `read || fallback`. */
  function Or(read: Option<Value>, fallback: Value): (r: Value)
    ensures Defaulted(r, read, fallback)
    ensures Some(r) == read || r == fallback
    ensures Truthy(Some(fallback)) ==> Truthy(Some(r))
  {
    if Truthy(read) then read.value else fallback
  }

  /** JavaScript's `Number(s) > 0` for a string `s`, as an oracle. */
  type NumeralTest = string -> bool

  /**
   * `x > 0`, where `x` is converted to a number first: undefined and objects
   * become NaN, null 0, booleans 0 or 1, strings their numeral value, and an
   * array the numeral value of its comma-joined elements.
   */
  function AboveZero(x: Option<Value>, positiveNumeral: NumeralTest): bool {
    match x
    case None => false
    case Some(Null) => false
    case Some(Bool(b)) => b
    case Some(Number(n)) => n > 0.0
    case Some(Str(s)) => positiveNumeral(s)
    case Some(Array(items)) => JoinedAboveZero(items, positiveNumeral)
    case Some(Object(_)) => false
  }

  /**
   * `items.join(",") > 0`: an empty join is "" (0), and two or more elements
   * put a comma in the numeral (NaN); a single element joins as its own
   * text, with null as "" and booleans as "true"/"false" (NaN).
   */
  function JoinedAboveZero(items: seq<Value>, positiveNumeral: NumeralTest): bool
    decreases items
  {
    if |items| != 1 then false
    else
      match items[0]
      case Null => false
      case Bool(_) => false
      case Number(n) => n > 0.0
      case Str(s) => positiveNumeral(s)
      case Array(inner) => JoinedAboveZero(inner, positiveNumeral)
      case Object(_) => false
  }

  /** `v.length > 0` for a non-null value: strings and arrays have a length, objects may carry one. */
  function LengthAboveZero(v: Value, positiveNumeral: NumeralTest): bool {
    match v
    case Str(s) => |s| > 0
    case Array(items) => |items| > 0
    case Object(members) => AboveZero(Get(members, "length"), positiveNumeral)
    case _ => false
  }
}
