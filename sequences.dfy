/** Sequence notions shared by the LINQ-style operations of the model. */
module Sequences {

  /** No element occurs twice. */
  predicate Distinct<T(==)>(s: seq<T>)
  {
    forall i, j :: 0 <= i < j < |s| ==> s[i] != s[j]
  }

  /** `a` is `b` with some elements dropped and the rest kept in order. */
  predicate IsSubsequence<T(==)>(a: seq<T>, b: seq<T>)
    decreases |b|
  {
    if b == [] then a == []
    else (a != [] && a[0] == b[0] && IsSubsequence(a[1..], b[1..])) || IsSubsequence(a, b[1..])
  }

  /** The position of the first occurrence of `x` in `s`. */
  function FirstIndex<T(==)>(s: seq<T>, x: T): (i: nat)
    requires x in s
    ensures i < |s| && s[i] == x
    ensures forall j :: 0 <= j < i ==> s[j] != x
  {
    if s[0] == x then 0
    else
      var k := FirstIndex(s[1..], x);
      assert forall j :: 0 < j <= k ==> s[j] == s[1..][j - 1];
      1 + k
  }

  /** Appending elements does not move a first occurrence. */
  lemma FirstIndexOfPrefix<T>(s: seq<T>, t: seq<T>, x: T)
    requires x in s
    ensures FirstIndex(s + t, x) == FirstIndex(s, x)
  {
    var p, q := FirstIndex(s + t, x), FirstIndex(s, x);
    assert (s + t)[q] == x;
    assert p <= q;
    assert s[p] == (s + t)[p];
  }

  /** LINQ's `a.Except(b)`: the distinct elements of `a` that are not in `b`,
      each at the place of its first occurrence in `a`. */
  function Except<T(==,!new)>(a: seq<T>, b: seq<T>): (r: seq<T>)
    ensures forall x :: x in r <==> x in a && x !in b
    ensures Distinct(r)
    ensures forall i, j :: 0 <= i < j < |r| ==> FirstIndex(a, r[i]) < FirstIndex(a, r[j])
    decreases |a|
  {
    if a == [] then []
    else
      var init, x := a[..|a| - 1], a[|a| - 1];
      assert a == init + [x];
      var prefix := Except(init, b);
      assert forall y :: y in prefix ==> FirstIndex(a, y) == FirstIndex(init, y) by {
        forall y | y in prefix ensures FirstIndex(a, y) == FirstIndex(init, y) {
          FirstIndexOfPrefix(init, [x], y);
        }
      }
      if x in b || x in init then prefix
      else
        assert FirstIndex(a, x) == |init|;
        prefix + [x]
  }
}
