/** Sequence helpers shared by the name and mention modules. */
module Seqs {

  /** No element occurs twice. */
  predicate NoDup<T(==)>(s: seq<T>) {
    forall i, j :: 0 <= i < j < |s| ==> s[i] != s[j]
  }

  /** Position of the first occurrence of `x` in `s`, or -1 (JavaScript's `indexOf`). */
  function IndexOf<T(==)>(s: seq<T>, x: T): (k: int)
    ensures -1 <= k < |s|
    ensures k == -1 <==> x !in s
    ensures 0 <= k ==> s[k] == x && x !in s[..k]
  {
    if s == [] then -1
    else if s[0] == x then 0
    else
      var k := IndexOf(s[1..], x);
      if k == -1 then -1
      else
        assert s[1..][..k] == s[1..k + 1];
        k + 1
  }

  /** Appending an element does not move the first occurrence of anything already present. */
  lemma {:induction false} IndexOfAppend<T>(s: seq<T>, t: T, x: T)
    requires x in s
    ensures IndexOf(s + [t], x) == IndexOf(s, x)
  {
    var k := IndexOf(s, x);
    assert (s + [t])[k] == x;
    assert (s + [t])[..k] == s[..k];
  }

  /** An element appended to a sequence that lacks it is first found at the end. */
  lemma IndexOfAppendNew<T>(s: seq<T>, x: T)
    requires x !in s
    ensures IndexOf(s + [x], x) == |s|
  {
    assert (s + [x])[..|s|] == s;
    assert (s + [x])[|s|] == x;
  }
}
