/** Values shared by every layer: an optional value and the scalar values that are
    bound to query parameters. */
module Common {

  datatype Option<T> = None | Some(value: T)

  /** A value bound to a query parameter or read from a result column.
      Dates are day numbers (days since an arbitrary epoch). */
  datatype Value = Str(s: string) | Int(i: int) | Day(d: int) | Null

  /** Python truthiness of a value: empty text, zero and None are false, dates are true. */
  predicate Truthy(v: Value)
  {
    match v
    case Str(s) => s != ""
    case Int(i) => i != 0
    case Day(_) => true
    case Null => false
  }

  /** The text values of `xs`, in order. */
  function Strs(xs: seq<string>): (r: seq<Value>)
    ensures |r| == |xs|
    ensures forall i :: 0 <= i < |xs| ==> r[i] == Str(xs[i])
  {
    if |xs| == 0 then [] else [Str(xs[0])] + Strs(xs[1..])
  }

  lemma StrsAppend(a: seq<string>, b: seq<string>)
    ensures Strs(a + b) == Strs(a) + Strs(b)
  {
  }

  /** Appending one part after another is appending them all at once. */
  lemma AppendRight<T>(p: seq<T>, a: seq<T>, b: seq<T>, c: seq<T>)
    ensures p + a + b + c == p + (a + (b + c))
  {
  }

  lemma AppendAfter<T>(p: seq<T>, a: seq<T>, b: seq<T>)
    ensures p + a + b == p + (a + b)
  {
  }
}
