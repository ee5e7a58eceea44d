/** The few JavaScript value rules the controllers and the form depend on:
    `undefined` versus the empty string, truthiness, template interpolation,
    `a || b`, `String.prototype.toLowerCase`, and a call that returns or throws. */
module Js {

  datatype Option<+T> = None | Some(value: T)

  /** A string-valued request field; `None` is `undefined` (the field was not sent). */
  type Field = Option<string>

  /** A request value that is not necessarily a string (`publish`, `length`).
      Numbers are finite; `NaN` is not among them. */
  datatype Json =
    | Undefined
    | Null
    | Bool(b: bool)
    | Number(n: real)
    | Str(s: string)
    | Array(items: seq<Json>)
    | Object(entries: seq<(string, Json)>)

  /** A call into code outside the model: it either returns a value or throws an
      error whose `message` is given. */
  datatype Outcome<+T> = Returned(value: T) | Threw(error: string)

  /** `!x` for a string field: true for `undefined` and for `""`. */
  predicate Falsy(f: Field) {
    f.None? || f.value == ""
  }

  /** `x ? true : false` */
  predicate Truthy(v: Json) {
    match v
    case Undefined => false
    case Null => false
    case Bool(b) => b
    case Number(n) => n != 0.0
    case Str(s) => s != ""
    case Array(_) => true
    case Object(_) => true
  }

  /** `${x}` inside a template literal: `undefined` is spelled out. */
  function Text(f: Field): string {
    if f.None? then "undefined" else f.value
  }

  /** `a || b` on string fields. */
  function Or(a: Field, b: Field): Field {
    if Falsy(a) then b else a
  }

  function LowerChar(c: char): char {
    if 'A' <= c <= 'Z' then (c as int - 'A' as int + 'a' as int) as char else c
  }

  /** `s.toLowerCase()`, on the ASCII letters. */
  function Lower(s: string): (r: string)
    ensures |r| == |s|
    ensures forall i :: 0 <= i < |s| ==> r[i] == LowerChar(s[i])
  {
    if s == [] then [] else [LowerChar(s[0])] + Lower(s[1..])
  }
}
