/** JavaScript values as the client library handles them: option values,
    request parameters and the cells of a columnar response. */
module JsValues {
  import opened Formats

  /** A JavaScript value. Integral numbers are `Num`; every other number
      (a fraction, NaN, an infinity) is `NonInteger`, carried by the text
      JavaScript prints for it (such as "1.5" or "NaN"). */
  datatype Value =
    | Undefined
    | Null
    | Bool(b: bool)
    | Num(i: int)
    | NonInteger(text: string)
    | Str(s: string)
    | Arr(elems: seq<Value>)

  /** A plain JavaScript object used as an options or params record. A key
      may be present with the value `Undefined`, which spreads differently
      from an absent key. */
  type Options = map<string, Value>

  /** `obj[key]`: an absent key reads as `undefined`. */
  function Lookup(o: Options, key: string): Value {
    if key in o then o[key] else Undefined
  }

  /** JavaScript truthiness: `undefined`, `null`, `false`, `0`, `NaN` and `""`
      are falsy, everything else (every array included) is truthy. */
  predicate Truthy(v: Value) {
    match v
    case Undefined => false
    case Null => false
    case Bool(b) => b
    case Num(i) => i != 0
    case NonInteger(t) => t != "NaN"
    case Str(s) => s != ""
    case Arr(_) => true
  }

  /** `String(v)`, the conversion a regular expression's `test` applies to
      its argument and a template literal applies to what it interpolates. */
  function ToJsString(v: Value): string
    decreases v, 0
  {
    match v
    case Undefined => "undefined"
    case Null => "null"
    case Bool(b) => if b then "true" else "false"
    case Num(i) => DecimalString(i)
    case NonInteger(t) => t
    case Str(s) => s
    case Arr(es) => JoinStrings(seq(|es|, k requires 0 <= k < |es| => ElementString(es[k])), ",")
  }

  /** How Array.prototype.join prints one element: `null` and `undefined`
      print as the empty string. */
  function ElementString(e: Value): string
    decreases e, 1
  {
    if e.Undefined? || e.Null? then "" else ToJsString(e)
  }

  /** `arr.join(',')` for an array value. */
  function JoinValues(es: seq<Value>): string {
    ToJsString(Arr(es))
  }

  /** A list of strings as a JavaScript array value. */
  function StrArray(xs: seq<string>): (v: Value)
    ensures v.Arr? && |v.elems| == |xs|
    ensures forall k :: 0 <= k < |xs| ==> v.elems[k] == Str(xs[k])
  {
    Arr(seq(|xs|, k requires 0 <= k < |xs| => Str(xs[k])))
  }

  /** Joining an array of strings is joining the strings themselves. */
  lemma JoinStrArray(xs: seq<string>)
    ensures JoinValues(StrArray(xs).elems) == JoinStrings(xs, ",")
  {
    var es := StrArray(xs).elems;
    var printed := seq(|es|, k requires 0 <= k < |es| => ElementString(es[k]));
    forall k | 0 <= k < |xs| ensures printed[k] == xs[k] {
      assert es[k] == Str(xs[k]);
      assert printed[k] == ElementString(es[k]);
      assert ElementString(Str(xs[k])) == ToJsString(Str(xs[k])) == xs[k];
    }
    assert printed == xs;
  }
}
