/** The slice of JavaScript value semantics the handlers depend on: the values
    `JSON.parse` produces, truthiness, optional-chaining property reads and the
    `String(…)` coercion used by template literals and `new Error(…)`. */
module Js {
  import opened Numerals

  /** A value `JSON.parse` can produce, plus `undefined`. Numbers are integers
      in this model. */
  datatype JsValue =
    | Undefined
    | Null
    | Bool(b: bool)
    | Num(n: int)
    | Str(s: string)
    | Arr(items: seq<JsValue>)
    | Obj(fields: map<string, JsValue>)

  /** What `if (v)`, `!v` and `v || w` test. */
  predicate Truthy(v: JsValue) {
    match v
    case Undefined => false
    case Null => false
    case Bool(b) => b
    case Num(n) => n != 0
    case Str(s) => s != ""
    case Arr(_) => true
    case Obj(_) => true
  }

  /** Reading a property of these throws a `TypeError`. */
  predicate Nullish(v: JsValue) {
    v.Undefined? || v.Null?
  }

  /** `v?.key` for the non-index keys the handlers read: own fields of an
      object, `undefined` for everything else. For a non-nullish `v` this is
      also `v.key`. */
  function Get(v: JsValue, key: string): (r: JsValue)
    ensures r != Undefined ==> v.Obj? && key in v.fields && r == v.fields[key]
    ensures v.Obj? && key in v.fields ==> r == v.fields[key]
  {
    if v.Obj? && key in v.fields then v.fields[key] else Undefined
  }

  /** `v?.[0]`: the first element of an array or the field named `0` of an
      object. A string's first character is not modelled: `.message` of it,
      the only thing read next, is `undefined` either way. */
  function First(v: JsValue): JsValue {
    match v
    case Arr(items) => if items == [] then Undefined else items[0]
    case Obj(_) => Get(v, "0")
    case _ => Undefined
  }

  /** `a || b` */
  function Or(a: JsValue, b: JsValue): (r: JsValue)
    ensures Truthy(r) <==> Truthy(a) || Truthy(b)
  {
    if Truthy(a) then a else b
  }

  /** `String(n)` for an integer. */
  function NumberText(n: int): string {
    if n < 0 then "-" + ToDecimal(-n) else ToDecimal(n)
  }

  /** `String(v)`: what a template literal or `new Error(v)` makes of `v`. */
  function ToJsString(v: JsValue): (r: string)
    ensures v.Str? ==> r == v.s
    ensures r == "" ==> v == Str("") || v.Arr?
    decreases v, 1
  {
    match v
    case Undefined => "undefined"
    case Null => "null"
    case Bool(b) => if b then "true" else "false"
    case Num(n) => NumberText(n)
    case Str(s) => s
    case Arr(items) => JoinItems(items, v)
    case Obj(_) => "[object Object]"
  }

  /** `items.join(",")`, where `null` and `undefined` elements become empty. */
  function JoinItems(items: seq<JsValue>, ghost whole: JsValue): string
    requires forall x | x in items :: x < whole
    decreases whole, 0, |items|
  {
    if items == [] then ""
    else
      assert items[0] in items;
      assert forall x | x in items[1..] :: x in items;
      var head := if Nullish(items[0]) then "" else ToJsString(items[0]);
      if |items| == 1 then head else head + "," + JoinItems(items[1..], whole)
  }

  /** V8's message for reading `key` of `null` or `undefined`. */
  function ReadError(base: JsValue, key: string): (m: string)
    requires Nullish(base)
    ensures m != ""
  {
    "Cannot read properties of " + (if base.Null? then "null" else "undefined")
    + " (reading '" + key + "')"
  }

  /** V8's message for destructuring `key` out of `null` or `undefined`
      produced by an expression such as `await request.json()`. */
  function DestructureError(base: JsValue, key: string): (m: string)
    requires Nullish(base)
    ensures m != ""
  {
    "Cannot destructure property '" + key + "' of '(intermediate value)' as it is "
    + (if base.Null? then "null" else "undefined") + "."
  }

  /** V8's message for calling a method a value does not have. */
  function NotAFunction(callee: string): (m: string)
    ensures m != ""
  {
    callee + " is not a function"
  }
}
