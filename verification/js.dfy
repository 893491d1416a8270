/** The JavaScript values and semantics the core relies on: truthiness and
    the `||` operator, property reads that throw on `null`, template-literal
    interpolation, and thrown exceptions. */
module Js {
  import opened Wrappers

  /** A JavaScript value as it can come out of `JSON.parse` or an object
      literal. JSON cannot produce NaN, so a number is an exact `real`. */
  datatype Value =
    | Undefined
    | Null
    | Bool(b: bool)
    | Num(n: real)
    | Str(s: string)
    | Arr(elems: seq<Value>)
    | Obj(fields: map<string, Value>)

  datatype ErrorKind = PlainError | TypeError | SyntaxError

  /** What a `throw` carries: an `Error` object, or any other value. */
  datatype Exception =
    | Error(kind: ErrorKind, message: string)
    | NonError(thrown: Value)

  /** JavaScript truthiness: `undefined`, `null`, `false`, `0` and `""` are falsy. */
  predicate Truthy(v: Value) {
    match v
    case Undefined => false
    case Null => false
    case Bool(b) => b
    case Num(n) => n != 0.0
    case Str(s) => s != ""
    case Arr(_) => true
    case Obj(_) => true
  }

  /** The expression `a || b`. */
  function Or(a: Value, b: Value): Value {
    if Truthy(a) then a else b
  }

  /** `a || b` keeps a truthy `a` and otherwise falls back to `b`. */
  lemma OrKeepsOrFallsBack(a: Value, b: Value)
    ensures Truthy(a) ==> Or(a, b) == a
    ensures !Truthy(a) ==> Or(a, b) == b
    ensures Truthy(Or(a, b)) <==> Truthy(a) || Truthy(b)
  {
  }

  predicate Nullish(v: Value) {
    v.Undefined? || v.Null?
  }

  /** The property `key` of a value that is not `null` or `undefined`.
      Primitives and arrays carry none of the property names the core reads
      (`subject`, `preheader`, `body`, `wordCount`, `readingTime`,
      `conversionScore`), so reading one from them gives `undefined`. */
  function Field(v: Value, key: string): Value {
    match v
    case Obj(m) => if key in m then m[key] else Undefined
    case _ => Undefined
  }

  /** `v.key`: throws a TypeError on `null` and `undefined`. */
  function Get(v: Value, key: string): (r: Result<Value, Exception>)
    ensures r.Failure? <==> Nullish(v)
    ensures r.Failure? ==> r.error.Error? && r.error.kind == TypeError
    ensures r.Success? ==> r.value == Field(v, key)
  {
    match v
    case Undefined => Failure(Error(TypeError, "Cannot read properties of undefined (reading '" + key + "')"))
    case Null => Failure(Error(TypeError, "Cannot read properties of null (reading '" + key + "')"))
    case _ => Success(Field(v, key))
  }

  /** The type name a schema validator reports for a value it did not expect. */
  function TypeName(v: Value): string {
    match v
    case Undefined => "undefined"
    case Null => "null"
    case Bool(_) => "boolean"
    case Num(_) => "number"
    case Str(_) => "string"
    case Arr(_) => "array"
    case Obj(_) => "object"
  }

  /** `${v}` inside a template literal. Number formatting is the engine's
      and is passed in as `show`. */
  function Text(v: Value, show: real -> string): string
    decreases v, 1
  {
    match v
    case Undefined => "undefined"
    case Null => "null"
    case Bool(b) => if b then "true" else "false"
    case Num(n) => show(n)
    case Str(s) => s
    case Arr(es) => JoinElements(es, show)
    case Obj(_) => "[object Object]"
  }

  /** `Array.prototype.join(",")`: `null` and `undefined` elements print as nothing. */
  function JoinElements(es: seq<Value>, show: real -> string): string
    decreases es, 0
  {
    if |es| == 0 then ""
    else
      var last := es[|es| - 1];
      var lastText := if Nullish(last) then "" else Text(last, show);
      if |es| == 1 then lastText else JoinElements(es[..|es| - 1], show) + "," + lastText
  }
}
