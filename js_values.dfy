/**
 * The host (JavaScript) values that cross the native boundary: arguments of
 * `send`, `init` and `closePatch`, and the arguments passed to the message
 * callback. Numbers are modelled as reals (no NaN, infinities or rounding).
 */
module JsValues {

  datatype JsValue =
    | Undefined
    | Null
    | Bool(b: bool)
    | Number(n: real)
    | Str(s: string)
    | Array(elems: seq<JsValue>)     // a hole in a sparse array is modelled as Undefined
    | Object(fields: map<string, JsValue>)
    | Function(id: nat)

  /** `IsObject()` of the native APIs: arrays and functions are objects too. */
  predicate IsObject(v: JsValue) {
    v.Object? || v.Array? || v.Function?
  }

  /** `Has(key)` on a host object; arrays and functions carry no named properties here. */
  predicate Has(v: JsValue, key: string) {
    v.Object? && key in v.fields
  }

  /** The named properties a host object carries: an array or a function here carries none. */
  function OwnProperties(v: JsValue): (m: map<string, JsValue>)
    ensures forall k :: k in m <==> Has(v, k)
    ensures v.Object? ==> m == v.fields
  {
    if v.Object? then v.fields else map[]
  }

  /** Truncation of a real toward zero, as a C cast or ECMAScript ToIntegerOrInfinity does it. */
  function Truncate(x: real): (t: int)
    ensures -1.0 < x - t as real < 1.0
    ensures x >= 0.0 ==> 0 <= t && t as real <= x
    ensures x < 0.0 ==> t <= 0 && x <= t as real
  {
    if x >= 0.0 then x.Floor else -((-x).Floor)
  }

  const TWO_32: int := 0x1_0000_0000
  const TWO_31: int := 0x8000_0000

  /** ECMAScript ToInt32 (`Int32Value()`, `Nan::To<int>`) on a finite number: truncate, then wrap modulo 2^32. */
  function ToInt32(x: real): (i: int)
    ensures -TWO_31 <= i < TWO_31
    ensures (i - Truncate(x)) % TWO_32 == 0
    ensures -TWO_31 <= Truncate(x) < TWO_31 ==> i == Truncate(x)
  {
    var m := Truncate(x) % TWO_32;
    if m >= TWO_31 then m - TWO_32 else m
  }
}
