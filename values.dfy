/**
 * The dynamically typed values that cross the language-model boundary: what
 * `generate_response` returns and what the classifier hands to its callers.
 * A parsed JSON reply is treated as one of these shapes; Python's `None` is `Null`.
 */
module Values {
  import opened Wrappers

  datatype Value = Null | Str(s: string) | StrList(items: seq<string>)

  /** Python truthiness: `None`, `''` and `[]` are false. */
  predicate Truthy(v: Value) {
    match v
    case Null => false
    case Str(s) => s != []
    case StrList(xs) => xs != []
  }

  /** The one-character strings of `s`, the elements that `for x in s` yields. */
  function Characters(s: string): (cs: seq<string>)
    ensures |cs| == |s|
    ensures forall i :: 0 <= i < |s| ==> cs[i] == [s[i]]
  {
    if s == [] then [] else [[s[0]]] + Characters(s[1..])
  }

  /**
   * `for x in v`: a list yields its items, a string yields its characters one by one,
   * and iterating `None` raises a TypeError (here `None`).
   */
  function Iterate(v: Value): (r: Option<seq<string>>)
    ensures r.None? <==> v.Null?
    ensures v.StrList? ==> r == Some(v.items)
    ensures v.Str? ==> r.Some? && |r.value| == |v.s| && forall i :: 0 <= i < |v.s| ==> r.value[i] == [v.s[i]]
  {
    match v
    case Null => None
    case Str(s) => Some(Characters(s))
    case StrList(xs) => Some(xs)
  }

  /** A value is truthy exactly when iterating it succeeds and yields something. */
  lemma TruthyIffNonEmptyIteration(v: Value)
    ensures Truthy(v) <==> Iterate(v).Some? && Iterate(v).value != []
  {
  }
}
