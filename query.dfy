/** Values of an Express query string, as the route handlers see them. */
module QueryString {
  import opened Text

  /** A value of `req.query`: absent, one string, or the array a repeated parameter gives. */
  datatype QueryValue = Absent | Str(s: string) | Arr(elems: seq<string>)

  /** JavaScript truthiness: only a missing value and the empty string are false; any
      array, even an empty one, is true. */
  predicate Truthy(v: QueryValue) {
    match v
    case Absent => false
    case Str(s) => s != ""
    case Arr(_) => true
  }

  /** `${v}` in a template literal: an array is joined with commas. Absent values never
      reach a template here. */
  function Interpolate(v: QueryValue): (s: string)
    requires Truthy(v)
    ensures v.Str? ==> s == v.s
    ensures v.Arr? && |v.elems| == 1 ==> s == v.elems[0]
  {
    match v
    case Str(s) => s
    case Arr(elems) => JoinComma(elems)
  }

  /** Repeating the parameter searches for the values joined by a comma. */
  lemma RepeatedQueryJoins(a: string, b: string)
    ensures Interpolate(Arr([a, b])) == a + "," + b
  {
    assert [a, b][1..] == [b];
    assert JoinComma([b]) == b;
    assert JoinComma([a, b]) == a + "," + JoinComma([b]);
  }
}
