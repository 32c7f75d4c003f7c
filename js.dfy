/** The parts of JavaScript's semantics that the webhook server relies on:
    absent and null values, truthiness, the `||` operator, template-literal
    rendering, exceptions and String.prototype.toUpperCase. */
module Js {

  datatype Option<+T> = None | Some(value: T)

  /** A JSON field that should hold a string: absent (`undefined`), `null`, or a string. */
  datatype Text = Undefined | Null | Str(s: string)

  /** The exceptions that can escape the request handler. */
  datatype Thrown =
    | TypeError     // a property read on `undefined` or `null`
    | ChannelError  // the chat client rejected the post

  /** How a JavaScript computation ends: with a value, or by throwing. */
  datatype Completion<+T> = Normal(value: T) | Throw(error: Thrown)

  /** JavaScript truthiness of a string-or-absent value: only a non-empty string is truthy. */
  predicate Truthy(t: Text) {
    t.Str? && t.s != ""
  }

  /** `a || b`: the first operand when it is truthy, otherwise the second. */
  function Or(a: Text, b: Text): (r: Text)
    ensures r == a || r == b
    ensures Truthy(r) <==> Truthy(a) || Truthy(b)
  {
    if Truthy(a) then a else b
  }

  /** What a template literal `${t}` renders for the value. */
  function Render(t: Text): string {
    match t
    case Undefined => "undefined"
    case Null => "null"
    case Str(s) => s
  }

  predicate IsAsciiLower(c: char) {
    'a' <= c <= 'z'
  }

  /** Upper-case mapping of one character, restricted to ASCII letters. */
  function UpperChar(c: char): char {
    if IsAsciiLower(c) then (c as int - 32) as char else c
  }

  /** `s.toUpperCase()` for ASCII text: every lower-case letter is replaced
      by its upper-case counterpart, every other character is kept. */
  function ToUpperCase(s: string): (r: string)
    ensures |r| == |s|
    ensures forall i :: 0 <= i < |s| ==> r[i] == UpperChar(s[i])
  {
    if s == [] then [] else [UpperChar(s[0])] + ToUpperCase(s[1..])
  }

  /** Upper-casing twice is upper-casing once. */
  lemma ToUpperCaseIdempotent(s: string)
    ensures ToUpperCase(ToUpperCase(s)) == ToUpperCase(s)
  {
  }
}
