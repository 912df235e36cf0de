/** List bookkeeping shared by the payment pages and the Vue listener map. */
module Lists {

  /**
   * Prepend, then truncate to the cap: the new item goes in front, and at most `cap`
   * items stay, the first ones, in their order.
   */
  function PushCapped<T>(xs: seq<T>, x: T, cap: nat): (r: seq<T>)
    requires cap >= 1
    ensures |r| == if |xs| + 1 <= cap then |xs| + 1 else cap
    ensures r[0] == x
    ensures forall i :: 1 <= i < |r| ==> r[i] == xs[i - 1]
  {
    var grown := [x] + xs;
    if |grown| > cap then grown[..cap] else grown
  }

  /** Below the cap, a push loses nothing: the old list follows the new item whole. */
  lemma PushCappedBelowCap<T>(xs: seq<T>, x: T, cap: nat)
    requires cap >= 1 && |xs| < cap
    ensures PushCapped(xs, x, cap) == [x] + xs
  {
    var r := PushCapped(xs, x, cap);
    assert forall i :: 0 <= i < |r| ==> r[i] == ([x] + xs)[i];
  }

  /** At the cap, a push drops exactly the oldest item. */
  lemma PushCappedAtCap<T>(xs: seq<T>, x: T, cap: nat)
    requires cap >= 1 && |xs| == cap
    ensures PushCapped(xs, x, cap) == [x] + xs[..cap - 1]
  {
    var r := PushCapped(xs, x, cap);
    assert forall i :: 0 <= i < |r| ==> r[i] == ([x] + xs[..cap - 1])[i];
  }

  /** `a` is `b` with some items left out, the rest in their order. */
  predicate IsSubsequence<T(==)>(a: seq<T>, b: seq<T>)
    decreases |b|
  {
    a == [] || (b != [] && ((a[0] == b[0] && IsSubsequence(a[1..], b[1..])) || IsSubsequence(a, b[1..])))
  }

  /** Every list is a subsequence of itself. */
  lemma {:induction false} SubsequenceRefl<T>(a: seq<T>)
    ensures IsSubsequence(a, a)
    decreases |a|
  {
    if a != [] {
      SubsequenceRefl(a[1..]);
    }
  }
}
