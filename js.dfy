/**
 * JavaScript values as the request handlers see them after `JSON.parse`, and
 * the handful of language operations the handlers apply to them: property
 * access, truthiness, `??`, object rest/spread, `typeof`, template-literal
 * interpolation, and thrown errors.
 */
module Js {

  /** A JavaScript value. Numbers are modelled as integers. */
  datatype Value =
    | Undefined
    | Null
    | Bool(b: bool)
    | Num(n: int)
    | Str(s: string)
    | Arr(elems: seq<Value>)
    | Obj(fields: map<string, Value>)

  /** The result of an operation that may throw an `Error` carrying `message`. */
  datatype Outcome<+T> = Ok(value: T) | Thrown(message: string)
  {
    predicate IsFailure() { Thrown? }

    function PropagateFailure<U>(): Outcome<U>
      requires Thrown?
    {
      Thrown(message)
    }

    function Extract(): T
      requires Ok?
    {
      value
    }
  }

  datatype Option<+T> = None | Some(value: T)

  /** JavaScript truthiness (`if (!v)` takes the branch exactly when this is false). */
  predicate Truthy(v: Value): (t: bool)
    ensures t ==> !Nullish(v)
    ensures v.Str? ==> (t <==> v.s != "")
    ensures v.Arr? || v.Obj? ==> t
  {
    match v
    case Undefined => false
    case Null => false
    case Bool(b) => b
    case Num(n) => n != 0
    case Str(s) => s != ""
    case _ => true
  }

  /** `null` or `undefined`: what `??` and `?.` test for and what destructuring rejects. */
  predicate Nullish(v: Value)
  {
    v.Undefined? || v.Null?
  }

  /** `a ?? b`. */
  function Coalesce(a: Value, b: Value): (r: Value)
    ensures !Nullish(a) ==> r == a
    ensures Nullish(a) ==> r == b
  {
    if Nullish(a) then b else a
  }

  /**
   * The own enumerable properties of a value, as object rest and spread see
   * them. Only plain objects are modelled as having any.
   */
  function OwnFields(v: Value): map<string, Value>
  {
    if v.Obj? then v.fields else map[]
  }

  /**
   * `v?.name`, and also `v.name` and the binding of `name` in `const { name } = v`
   * for a value that is not nullish: a property that is absent reads as `undefined`.
   */
  function Field(v: Value, name: string): (r: Value)
    ensures name in OwnFields(v) ==> r == OwnFields(v)[name]
    ensures name !in OwnFields(v) ==> r == Undefined
  {
    if v.Obj? && name in v.fields then v.fields[name] else Undefined
  }

  /** The `...rest` binding of a destructuring pattern that names the properties in `named`. */
  function Rest(v: Value, named: set<string>): (r: map<string, Value>)
    ensures r.Keys == OwnFields(v).Keys - named
    ensures forall k | k in r :: r[k] == OwnFields(v)[k]
  {
    var m := OwnFields(v);
    map k | k in m && k !in named :: m[k]
  }

  /** `typeof v`. */
  function TypeOf(v: Value): (r: string)
    ensures r == "undefined" <==> v.Undefined?
    ensures r == "string" <==> v.Str?
    ensures r == "number" <==> v.Num?
  {
    match v
    case Undefined => "undefined"
    case Bool(_) => "boolean"
    case Num(_) => "number"
    case Str(_) => "string"
    case _ => "object"
  }

  /** The message Node.js 18 gives the `TypeError` for `const { prop, ... } = name` when the value is nullish. */
  function DestructureMessage(prop: string, name: string, v: Value): string
  {
    "Cannot destructure property '" + prop + "' of '" + name + "' as it is " + TypeOfNullish(v) + "."
  }

  function TypeOfNullish(v: Value): string
  {
    if v.Null? then "null" else "undefined"
  }

  /** `const { prop, ... } = v` under the name `name`: throws on a nullish value, yields `v` otherwise. */
  function Destructure(v: Value, prop: string, name: string): (r: Outcome<Value>)
    ensures r.Ok? <==> !Nullish(v)
    ensures r.Ok? ==> r.value == v
  {
    if Nullish(v) then Thrown(DestructureMessage(prop, name, v)) else Ok(v)
  }

  // ---------------------------------------------------------------------------
  // Template-literal interpolation: the text `${v}` produces.
  // ---------------------------------------------------------------------------

  function DigitChar(d: nat): (c: char)
    requires d < 10
    ensures '0' <= c <= '9'
    ensures c as int - '0' as int == d
  {
    "0123456789"[d]
  }

  function DigitValue(c: char): (d: nat)
    requires '0' <= c <= '9'
    ensures d < 10
  {
    (c as int - '0' as int) as nat
  }

  /** `String(n)` for a non-negative integer: its decimal digits, most significant first. */
  function NatToString(n: nat): (s: string)
    ensures |s| >= 1
    ensures forall i | 0 <= i < |s| :: '0' <= s[i] <= '9'
    ensures s[0] == '0' <==> n == 0
    ensures |s| == 1 || s[0] != '0'
    decreases n
  {
    if n < 10 then [DigitChar(n)] else NatToString(n / 10) + [DigitChar(n % 10)]
  }

  /** Reads a string of decimal digits back as a number. */
  function ParseDigits(s: string): nat
    requires forall i | 0 <= i < |s| :: '0' <= s[i] <= '9'
    decreases |s|
  {
    if s == [] then 0 else ParseDigits(s[..|s| - 1]) * 10 + DigitValue(s[|s| - 1])
  }

  /** Decimal rendering loses nothing: the digits read back as the number. */
  lemma {:induction false} NatToStringRoundTrip(n: nat)
    ensures ParseDigits(NatToString(n)) == n
    decreases n
  {
    if n >= 10 {
      var s := NatToString(n);
      assert s[..|s| - 1] == NatToString(n / 10);
      NatToStringRoundTrip(n / 10);
    }
  }

  /** `String(n)` for an integer. */
  function IntToString(n: int): string
  {
    if n < 0 then "-" + NatToString(-n) else NatToString(n)
  }

  /** The elements of an array joined with ",", as `Array.prototype.join` does. */
  function JoinComma(parts: seq<string>): string
  {
    if parts == [] then ""
    else if |parts| == 1 then parts[0]
    else parts[0] + "," + JoinComma(parts[1..])
  }

  /**
   * `${v}`: the string conversion a template literal applies. An array
   * element that is `null` or `undefined` joins as the empty string.
   */
  function Interp(v: Value): (r: string)
    ensures v.Str? ==> r == v.s
    ensures v.Num? && v.n >= 0 ==> r == NatToString(v.n)
    ensures v.Undefined? ==> r == "undefined"
    decreases v
  {
    match v
    case Undefined => "undefined"
    case Null => "null"
    case Bool(b) => if b then "true" else "false"
    case Num(n) => IntToString(n)
    case Str(s) => s
    case Arr(es) =>
      JoinComma(seq(|es|, i requires 0 <= i < |es| => if Nullish(es[i]) then "" else Interp(es[i])))
    case Obj(_) => "[object Object]"
  }
}
