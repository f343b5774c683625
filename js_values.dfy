/**
  The slice of JavaScript's value semantics that the structural checks of the
  contract package rely on: `typeof`, truthiness, numeric comparison against a
  constant, and the `in` operator on objects, functions and arrays.
 */
module JsValues {
  import opened Wrappers

  /** A JavaScript number: a finite value, `NaN`, or one of the two infinities. */
  datatype Number = Finite(value: real) | NaN | Infinity(negative: bool)

  /** Truthiness of a number: `0`, `-0` and `NaN` are falsy, everything else is truthy. */
  predicate NumberTruthy(n: Number) {
    match n
    case Finite(x) => x != 0.0
    case NaN => false
    case Infinity(_) => true
  }

  /** `n < bound`; every comparison with `NaN` is false. */
  predicate LessThan(n: Number, bound: real) {
    match n
    case Finite(x) => x < bound
    case NaN => false
    case Infinity(negative) => negative
  }

  /** `n > bound`; every comparison with `NaN` is false. */
  predicate GreaterThan(n: Number, bound: real) {
    match n
    case Finite(x) => x > bound
    case NaN => false
    case Infinity(negative) => !negative
  }

  /**
    A JavaScript value. Objects and functions carry their own string-keyed
    properties. An array carries its elements, whose own keys are `"length"`
    and the decimal indices, and any further named own properties in `props`
    (keys that are `"length"` or an index are taken from the elements).
    Prototype chains, symbol-keyed properties and the `symbol` and `bigint`
    primitives are not modelled.
   */
  datatype JsValue =
    | Undefined
    | Null
    | Bool(b: bool)
    | Num(n: Number)
    | Str(s: string)
    | Arr(elements: seq<JsValue>, props: map<string, JsValue>)
    | Obj(props: map<string, JsValue>)
    | Func(props: map<string, JsValue>)

  /** The result of the `typeof` operator. */
  function TypeOf(v: JsValue): (t: string)
    ensures t == "object" <==> v.Null? || v.Arr? || v.Obj?
    ensures t == "function" <==> v.Func?
  {
    match v
    case Undefined => "undefined"
    case Null => "object"
    case Bool(_) => "boolean"
    case Num(_) => "number"
    case Str(_) => "string"
    case Arr(_, _) => "object"
    case Obj(_) => "object"
    case Func(_) => "function"
  }

  /** Truthiness of any value: `undefined`, `null`, `false`, falsy numbers and `""` are falsy. */
  predicate Truthy(v: JsValue) {
    match v
    case Undefined => false
    case Null => false
    case Bool(b) => b
    case Num(n) => NumberTruthy(n)
    case Str(s) => s != ""
    case Arr(_, _) => true
    case Obj(_) => true
    case Func(_) => true
  }

  /** The decimal digit `d` as a character. */
  function Digit(d: nat): (c: char)
    requires d < 10
    ensures '0' <= c <= '9'
  {
    ('0' as int + d) as char
  }

  /** The canonical decimal spelling of `n`, which is the property key of array index `n`. */
  function DecimalString(n: nat): (s: string)
    ensures |s| > 0
    ensures forall k :: 0 <= k < |s| ==> '0' <= s[k] <= '9'
  {
    if n < 10 then [Digit(n)] else DecimalString(n / 10) + [Digit(n % 10)]
  }

  /** The largest array index below `n` whose key is `key`, if any. */
  function FindIndex(key: string, n: nat): (r: Option<nat>)
    ensures r.Some? ==> r.value < n && DecimalString(r.value) == key
    ensures r.None? ==> forall i :: 0 <= i < n ==> DecimalString(i) != key
  {
    if n == 0 then None
    else if DecimalString(n - 1) == key then Some(n - 1)
    else FindIndex(key, n - 1)
  }

  /** `key in v` for an object, function or array; the operator throws on primitives, which callers guard against. */
  predicate HasProperty(v: JsValue, key: string) {
    match v
    case Obj(props) => key in props
    case Func(props) => key in props
    case Arr(elements, props) => key == "length" || FindIndex(key, |elements|).Some? || key in props
    case _ => false
  }

  /** `v[key]`: the property's value, or `undefined` when there is none. */
  function Get(v: JsValue, key: string): JsValue {
    match v
    case Obj(props) => if key in props then props[key] else Undefined
    case Func(props) => if key in props then props[key] else Undefined
    case Arr(elements, props) =>
      if key == "length" then Num(Finite(|elements| as real))
      else (
        match FindIndex(key, |elements|)
        case Some(i) => elements[i]
        case None => if key in props then props[key] else Undefined)
    case _ => Undefined
  }

  /**
    For a key that is not `"length"` and does not start with a digit, an array
    behaves like an object: the key is `in` it exactly when it is a named own
    property, and reading it gives that property.
   */
  lemma NamedKeyOfArray(elements: seq<JsValue>, props: map<string, JsValue>, key: string)
    requires key != "length"
    requires |key| > 0 && !('0' <= key[0] <= '9')
    ensures HasProperty(Arr(elements, props), key) <==> key in props
    ensures Get(Arr(elements, props), key) == if key in props then props[key] else Undefined
  {
  }
}
