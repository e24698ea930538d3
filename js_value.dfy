/**
 * The slice of JavaScript value semantics that the application controller relies on:
 * values held in host storage and in the session record, truthiness, `a || b`, reading a
 * property, spreading a value into an object literal, and comparing a number with `>`.
 */
module JsValue {
  import opened Options

  /** A JavaScript value. Numbers are the integers the core stores (epoch milliseconds). */
  datatype Value =
    | Undefined
    | Null
    | Bool(b: bool)
    | Num(n: int)
    | Str(s: string)
    | Obj(fields: map<string, Value>)

  /** JavaScript truthiness: `undefined`, `null`, `false`, `0` and `""` are falsy. */
  predicate Truthy(v: Value) {
    match v
    case Undefined => false
    case Null => false
    case Bool(b) => b
    case Num(n) => n != 0
    case Str(s) => s != ""
    case Obj(_) => true
  }

  /** `a || b`: the first operand when it is truthy, otherwise the second. */
  function Or(a: Value, b: Value): (r: Value)
    ensures Truthy(a) ==> r == a
    ensures !Truthy(a) ==> r == b
    ensures Truthy(r) <==> Truthy(a) || Truthy(b)
  {
    if Truthy(a) then a else b
  }

  /**
   * `v.key` for a key that is not a built-in property of strings, numbers or booleans
   * (the core reads only `user_type`, `nickname`, `avatar`, `id` and `userId`).
   * Reading a property of `undefined` or `null` throws, so neither is accepted.
   */
  function Prop(v: Value, key: string): (r: Value)
    requires !v.Undefined? && !v.Null?
    ensures v.Obj? && key in v.fields ==> r == v.fields[key]
    ensures !(v.Obj? && key in v.fields) ==> r == Undefined
  {
    match v
    case Obj(m) => if key in m then m[key] else Undefined
    case _ => Undefined
  }

  function DigitChar(d: nat): char
    requires d < 10
  {
    "0123456789"[d]
  }

  /** The canonical decimal spelling of `n`, which is how array-like keys are named. */
  function NatToString(n: nat): (r: string)
    ensures |r| >= 1
    decreases n
  {
    if n < 10 then [DigitChar(n)] else NatToString(n / 10) + [DigitChar(n % 10)]
  }

  /** The own enumerable properties `"i"`, ..., `"|s|-1"` of a string, one character each. */
  function CharEntries(s: string, i: nat): map<string, Value>
    requires i <= |s|
    decreases |s| - i
  {
    if i == |s| then map[] else map[NatToString(i) := Str([s[i]])] + CharEntries(s, i + 1)
  }

  /**
   * The properties `{...v}` copies into an object literal: an object's own fields, a
   * string's characters under their indices, and nothing for any other value.
   */
  function Spread(v: Value): (r: map<string, Value>)
    ensures v.Obj? ==> r == v.fields
    ensures !v.Obj? && !v.Str? ==> r == map[]
  {
    match v
    case Obj(m) => m
    case Str(s) => CharEntries(s, 0)
    case _ => map[]
  }

  predicate IsDigit(c: char) {
    '0' <= c <= '9'
  }

  predicate AllDigits(s: string) {
    forall i :: 0 <= i < |s| ==> IsDigit(s[i])
  }

  /** The number a plain decimal digit string denotes. */
  function DigitsValue(s: string): (r: nat)
    requires AllDigits(s)
    ensures |s| == 1 ==> r == (s[0] as int) - ('0' as int)
    decreases |s|
  {
    if s == [] then 0
    else DigitsValue(s[..|s| - 1]) * 10 + ((s[|s| - 1] as int) - ('0' as int))
  }

  /**
   * JavaScript `ToNumber`, with `None` standing for `NaN`. Strings are converted only when
   * they are a non-empty run of decimal digits; every other string, an object and
   * `undefined` give `NaN`.
   */
  function ToNumber(v: Value): (r: Option<int>)
    ensures v.Num? ==> r == Some(v.n)
    ensures v.Undefined? || v.Obj? ==> r == None
  {
    match v
    case Undefined => None
    case Null => Some(0)
    case Bool(b) => Some(if b then 1 else 0)
    case Num(n) => Some(n)
    case Str(s) => if s != "" && AllDigits(s) then Some(DigitsValue(s)) else None
    case Obj(_) => None
  }

  /** `x > v` for a number `x`: false whenever `v` converts to `NaN`. */
  predicate GreaterThan(x: int, v: Value) {
    match ToNumber(v)
    case Some(n) => x > n
    case None => false
  }
}
