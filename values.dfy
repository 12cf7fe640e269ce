/** Option and Result: the two wrappers the model needs for absent values and error paths. */
module Wrappers {
  datatype Option<+T> = None | Some(value: T)

  datatype Result<+T, +E> = Ok(value: T) | Err(error: E)
}

/**
 * The JavaScript values that flow through the front end: table cells as the
 * backend's JSON delivers them, rows as ordered objects, truthiness, and the
 * coercion of a value to a property key when it indexes an object.
 */
module JsValues {

  /** A cell of a table row, or `undefined` when a row lacks the key asked for. */
  datatype Cell = Undefined | Text(text: string) | Num(num: int) | Bool(b: bool)

  /** One property of a row object; a row keeps its properties in insertion order. */
  datatype Field = Field(key: string, value: Cell)

  type Row = seq<Field>

  /** JavaScript truthiness: the empty string, zero, `false` and `undefined` are falsy. */
  predicate Truthy(c: Cell) {
    match c
    case Undefined => false
    case Text(s) => s != ""
    case Num(n) => n != 0
    case Bool(b) => b
  }

  /** Exactly `undefined`, `""`, `0` and `false` are falsy. */
  lemma FalsyValues(c: Cell)
    ensures !Truthy(c) <==> c in {Undefined, Text(""), Num(0), Bool(false)}
  {
  }

  /** The index of the first field named `key` at or after `from`, or -1 if there is none. */
  function FindKey(row: Row, key: string, from: nat): (i: int)
    requires from <= |row|
    ensures i == -1 || from <= i < |row|
    ensures i >= 0 ==> row[i].key == key && forall j :: from <= j < i ==> row[j].key != key
    ensures i == -1 ==> forall j :: from <= j < |row| ==> row[j].key != key
    decreases |row| - from
  {
    if from == |row| then -1
    else if row[from].key == key then from
    else FindKey(row, key, from + 1)
  }

  /** `row[key]`: the value of the first property named `key`, or `undefined`. */
  function Get(row: Row, key: string): (c: Cell)
    ensures (forall i :: 0 <= i < |row| ==> row[i].key != key) ==> c == Undefined
    ensures forall i :: 0 <= i < |row| && row[i].key == key && (forall j :: 0 <= j < i ==> row[j].key != key) ==>
              c == row[i].value
  {
    var i := FindKey(row, key, 0);
    if i < 0 then Undefined else row[i].value
  }

  /** `Object.keys(row)`: the property names in order. */
  function Keys(row: Row): (ks: seq<string>)
    ensures |ks| == |row|
    ensures forall i :: 0 <= i < |row| ==> ks[i] == row[i].key
  {
    seq(|row|, i requires 0 <= i < |row| => row[i].key)
  }

  /** `xs[i] || ''` for a list of strings: the i-th entry, or the empty string past the end. */
  function At(xs: seq<string>, i: nat): (s: string)
    ensures i < |xs| ==> s == xs[i]
    ensures |xs| <= i ==> s == ""
  {
    if i < |xs| then xs[i] else ""
  }

  /** `s || fallback` for a string. */
  function StringOr(s: string, fallback: string): (r: string)
    ensures s != "" ==> r == s
    ensures s == "" ==> r == fallback
  {
    if s != "" then s else fallback
  }

  function DigitChar(d: nat): char
    requires d < 10
  {
    "0123456789"[d]
  }

  /** Decimal digits of a natural number, as `String(n)` prints it. */
  function NatToString(n: nat): (s: string)
    ensures |s| > 0
    ensures forall k :: 0 <= k < |s| ==> '0' <= s[k] <= '9'
    decreases n
  {
    if n < 10 then [DigitChar(n)] else NatToString(n / 10) + [DigitChar(n % 10)]
  }

  function IntToString(i: int): string {
    if i < 0 then "-" + NatToString(-i) else NatToString(i)
  }

  /** The property key a value becomes when it indexes an object (`obj[value]`). */
  function ToKey(c: Cell): (k: string)
    ensures c.Text? ==> k == c.text
    ensures c.Undefined? ==> k == "undefined"
    ensures c.Bool? ==> k == (if c.b then "true" else "false")
  {
    match c
    case Undefined => "undefined"
    case Text(s) => s
    case Num(n) => IntToString(n)
    case Bool(b) => if b then "true" else "false"
  }
}
