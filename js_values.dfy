/**
 * The JSON-like values the pages read from API responses and store in
 * records, with the three JavaScript conversions the pages rely on:
 * truthiness (`||`, `!`, `&&`), `String(v)` (template literals and
 * `Array.prototype.join`) and the text React renders for a child value.
 */
module JsValues {
  import opened JsStrings

  /** A JSON scalar or array. Numbers are integers; objects nested inside a record are not values here. */
  datatype Value =
    | Str(s: string)
    | Num(n: int)
    | Bool(b: bool)
    | Null
    | Undefined
    | Arr(elems: seq<Value>)

  /** JavaScript truthiness: `""`, `0`, `false`, `null` and `undefined` are falsy; every array is truthy. */
  predicate Truthy(v: Value) {
    match v
    case Str(s) => s != ""
    case Num(n) => n != 0
    case Bool(b) => b
    case Null => false
    case Undefined => false
    case Arr(_) => true
  }

  /** `String(n)` for an integer. */
  function IntToString(n: int): (s: string)
    ensures |s| >= 1
  {
    if n < 0 then "-" + NatToString(-n) else NatToString(n)
  }

  /** `String(v)`, as a template literal `${v}` renders it; an array renders as its elements joined by ",". */
  function ToString(v: Value): string
    decreases v, 1
  {
    match v
    case Str(s) => s
    case Num(n) => IntToString(n)
    case Bool(b) => if b then "true" else "false"
    case Null => "null"
    case Undefined => "undefined"
    case Arr(xs) => JoinValues(xs, ",")
  }

  /** `xs.join(sep)`: each element as by `String`, except that `null` and `undefined` become the empty string. */
  function JoinValues(xs: seq<Value>, sep: string): string
    decreases xs, 0
  {
    if |xs| == 0 then ""
    else
      var head := if xs[0].Null? || xs[0].Undefined? then "" else ToString(xs[0]);
      if |xs| == 1 then head else head + sep + JoinValues(xs[1..], sep)
  }

  /** The text React puts on the page for a child value: booleans, `null` and `undefined` render nothing, an array renders its elements one after the other. */
  function RenderText(v: Value): string
    decreases v, 1
  {
    match v
    case Str(s) => s
    case Num(n) => IntToString(n)
    case Bool(_) => ""
    case Null => ""
    case Undefined => ""
    case Arr(xs) => RenderAll(xs)
  }

  function RenderAll(xs: seq<Value>): string
    decreases xs, 0
  {
    if |xs| == 0 then "" else RenderText(xs[0]) + RenderAll(xs[1..])
  }

  /** The strings of an array that holds only strings. */
  function Strings(xs: seq<Value>): (ss: seq<string>)
    requires forall i :: 0 <= i < |xs| ==> xs[i].Str?
    ensures |ss| == |xs| && forall i :: 0 <= i < |xs| ==> ss[i] == xs[i].s
  {
    seq(|xs|, i requires 0 <= i < |xs| => xs[i].s)
  }

  /** Joining an array of strings is joining the strings themselves. */
  lemma {:induction false} JoinValuesOfStrings(xs: seq<Value>, sep: string)
    requires forall i :: 0 <= i < |xs| ==> xs[i].Str?
    ensures JoinValues(xs, sep) == Join(Strings(xs), sep)
    decreases |xs|
  {
    if |xs| > 1 {
      JoinValuesOfStrings(xs[1..], sep);
      var ss := Strings(xs);
      assert ss[1..] == Strings(xs[1..]);
      assert Join(ss, sep) == ss[0] + sep + Join(ss[1..], sep);
    }
  }
}
