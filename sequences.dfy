/** Sequence helpers: removing one element (`Array.prototype.splice(i, 1)`) and
    order-preserving selection (what `Array.prototype.filter` returns). */
module Sequences {

  /** `s` with its element at index `i` removed, as `splice(i, 1)` leaves it. */
  function Remove<T>(s: seq<T>, i: int): (r: seq<T>)
    requires 0 <= i < |s|
    ensures |r| == |s| - 1
    ensures forall k :: 0 <= k < i ==> r[k] == s[k]
    ensures forall k :: i <= k < |r| ==> r[k] == s[k + 1]
  {
    s[..i] + s[i + 1..]
  }

  /** Removing an element introduces nothing new. */
  lemma RemoveKeepsMembers<T>(s: seq<T>, i: int)
    requires 0 <= i < |s|
    ensures forall x <- Remove(s, i) :: x in s
  {
    var r := Remove(s, i);
    forall x <- r ensures x in s {
      var k :| 0 <= k < |r| && r[k] == x;
      if k < i { assert s[k] == x; } else { assert s[k + 1] == x; }
    }
  }

  /** Concatenation regroups freely. */
  lemma AppendAssoc<T>(xs: seq<T>, ys: seq<T>, zs: seq<T>)
    ensures xs + ys + zs == xs + (ys + zs)
  {
  }

  /** `a` is `b` with some elements left out and the rest in their original order. */
  predicate Subseq<T(==)>(a: seq<T>, b: seq<T>)
    decreases |b|
  {
    |a| == 0 ||
    (|b| > 0 &&
     ((a[|a| - 1] == b[|b| - 1] && Subseq(a[..|a| - 1], b[..|b| - 1])) ||
      Subseq(a, b[..|b| - 1])))
  }

  lemma SubseqExtend<T>(a: seq<T>, b: seq<T>, x: T, keep: bool)
    requires Subseq(a, b)
    ensures Subseq(if keep then a + [x] else a, b + [x])
  {
    assert (b + [x])[..|b|] == b;
    if keep {
      assert (a + [x])[..|a|] == a;
    }
  }

  lemma {:induction false} SubseqLength<T>(a: seq<T>, b: seq<T>)
    requires Subseq(a, b)
    ensures |a| <= |b|
    decreases |b|
  {
    if |a| > 0 {
      if a[|a| - 1] == b[|b| - 1] && Subseq(a[..|a| - 1], b[..|b| - 1]) {
        SubseqLength(a[..|a| - 1], b[..|b| - 1]);
      } else {
        SubseqLength(a, b[..|b| - 1]);
      }
    }
  }
}
