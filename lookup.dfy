/**
 * The two array operations behind the enumeration lookups:
 * `Array.prototype.indexOf` and indexing `Object.keys(...)` with its result.
 */
module Lookup {
  import opened Wrappers

  /** Position of the first occurrence of `x` in `xs`, or -1 when there is none. */
  function IndexOf<T(==)>(xs: seq<T>, x: T): (i: int)
    ensures -1 <= i < |xs|
    ensures i == -1 <==> x !in xs
    ensures 0 <= i ==> xs[i] == x && x !in xs[..i]
  {
    if xs == [] then -1
    else if xs[0] == x then 0
    else
      var j := IndexOf(xs[1..], x);
      assert xs[1..][..if j < 0 then 0 else j] == xs[1..if j < 0 then 1 else j + 1];
      if j == -1 then -1 else j + 1
  }

  /**
   * `keys[indexOf(values, x)]`: the key at the position of `x` among the values;
   * reading index -1 of an array gives `undefined`, written None here.
   */
  function KeyOf(keys: seq<string>, values: seq<string>, x: string): (r: Option<string>)
    requires |keys| == |values|
    ensures r.None? <==> x !in values
    ensures r.Some? ==> exists i :: 0 <= i < |values| && values[i] == x && x !in values[..i] && keys[i] == r.value
  {
    var i := IndexOf(values, x);
    if 0 <= i then Some(keys[i]) else None
  }

  /** `Object.keys` of an object whose properties are `entries`, in declaration order. */
  function KeysOf(entries: seq<(string, string)>): (ks: seq<string>)
    ensures |ks| == |entries|
    ensures forall i :: 0 <= i < |entries| ==> ks[i] == entries[i].0
  {
    seq(|entries|, i requires 0 <= i < |entries| => entries[i].0)
  }

  /** `Object.values` of an object whose properties are `entries`, in declaration order. */
  function ValuesOf(entries: seq<(string, string)>): (vs: seq<string>)
    ensures |vs| == |entries|
    ensures forall i :: 0 <= i < |entries| ==> vs[i] == entries[i].1
  {
    seq(|entries|, i requires 0 <= i < |entries| => entries[i].1)
  }

  /** No two positions of `xs` hold the same element. */
  predicate Distinct<T(==)>(xs: seq<T>) {
    forall i, j :: 0 <= i < j < |xs| ==> xs[i] != xs[j]
  }

  /** In a sequence without repetitions, `IndexOf` finds the one position holding `xs[k]`. */
  lemma IndexOfDistinct<T>(xs: seq<T>, k: nat)
    requires Distinct(xs) && k < |xs|
    ensures IndexOf(xs, xs[k]) == k
  {
  }

  /** When every key equals its value, the lookup returns its own argument for members. */
  lemma KeyOfSelf(names: seq<string>, x: string)
    requires x in names
    ensures KeyOf(names, names, x) == Some(x)
  {
  }
}
