/** The shapes of JavaScript values that the dashboard reads from the store,
    made explicit: optional fields, values that should be arrays, and the
    `filter(...).length` counts taken over them. */
module Values {

  datatype Option<+T> = None | Some(value: T)

  /** A value the component expects to be an array: `Missing` is `undefined`
      or `null`, `NotList` any other non-array value (a plain object, say). */
  datatype ListValue<T> = Missing | NotList | List(items: seq<T>)

  /** JavaScript truthiness of an optional string field: an absent field and
      the empty string are falsy, every other string is truthy. */
  predicate Truthy(s: Option<string>)
  {
    s.Some? && s.value != ""
  }

  function Min(a: nat, b: nat): nat
  {
    if a <= b then a else b
  }

  /** `xs?.length || 0` for an optional array. */
  function LengthOrZero<T>(xs: Option<seq<T>>): nat
  {
    if xs.Some? then |xs.value| else 0
  }

  /** `xs.slice(0, n)`: the first n elements, or all of them when there are fewer. */
  function Take<T>(xs: seq<T>, n: nat): (r: seq<T>)
    ensures |r| == Min(n, |xs|)
    ensures r <= xs
  {
    xs[..Min(n, |xs|)]
  }

  /** `xs.map(f)`: one result per element, in order. */
  function Map<A, B>(xs: seq<A>, f: A -> B): (r: seq<B>)
    ensures |r| == |xs|
    ensures forall k :: 0 <= k < |xs| ==> r[k] == f(xs[k])
  {
    if xs == [] then [] else [f(xs[0])] + Map(xs[1..], f)
  }

  /** `fields.filter(f => f === value).length`: how many of the fields are
      exactly the string `value` (strict equality, so case-sensitive). */
  function Occurrences(fields: seq<Option<string>>, value: string): (r: nat)
    ensures r <= |fields|
    ensures r == multiset(fields)[Some(value)]
    ensures r == 0 <==> Some(value) !in fields
  {
    if fields == [] then 0
    else
      assert fields == [fields[0]] + fields[1..];
      (if fields[0] == Some(value) then 1 else 0) + Occurrences(fields[1..], value)
  }

  /** Two filters on different strings pick disjoint sets of elements, so
      their counts add up to at most the length. */
  lemma {:induction false} OccurrencesOfTwo(fields: seq<Option<string>>, a: string, b: string)
    requires a != b
    ensures Occurrences(fields, a) + Occurrences(fields, b) <= |fields|
  {
    if fields != [] {
      OccurrencesOfTwo(fields[1..], a, b);
    }
  }

  /** Three filters on pairwise different strings are disjoint: their counts
      add up to at most the length, and to exactly the length when, and only
      when, every field is one of the three strings. */
  lemma {:induction false} OccurrencesOfThree(fields: seq<Option<string>>, a: string, b: string, c: string)
    requires a != b && b != c && a != c
    ensures Occurrences(fields, a) + Occurrences(fields, b) + Occurrences(fields, c) <= |fields|
    ensures Occurrences(fields, a) + Occurrences(fields, b) + Occurrences(fields, c) == |fields|
            <==> forall k :: 0 <= k < |fields| ==> fields[k] in {Some(a), Some(b), Some(c)}
  {
    if fields != [] {
      OccurrencesOfThree(fields[1..], a, b, c);
      assert forall k :: 1 <= k < |fields| ==> fields[k] == fields[1..][k - 1];
    }
  }
}
