/** A sequence with a maximum length whose oldest element is evicted on overflow:
    the behaviour of Python's `collections.deque(maxlen=cap)` under `append`. */
module Bounded {

  /** The newest `n` elements of `s`, in their original order. */
  function LastN<T>(s: seq<T>, n: nat): (r: seq<T>)
    ensures |r| == if |s| < n then |s| else n
  {
    if |s| <= n then s else s[|s| - n..]
  }

  /** Appending to a full deque drops its leftmost element first. */
  function Push<T>(s: seq<T>, x: T, cap: nat): (r: seq<T>)
    requires 0 < cap && |s| <= cap
    ensures |r| <= cap
    ensures |r| > 0 && r[|r| - 1] == x
    ensures r == LastN(s + [x], cap)
    ensures |s| < cap ==> r == s + [x]
  {
    if |s| == cap then s[1..] + [x] else s + [x]
  }

  /** Appending the elements of `xs` one after another. */
  function Feed<T>(s: seq<T>, xs: seq<T>, cap: nat): (r: seq<T>)
    requires 0 < cap && |s| <= cap
    ensures |r| <= cap
    decreases |xs|
  {
    if xs == [] then s else Feed(Push(s, xs[0], cap), xs[1..], cap)
  }

  /** Trimming to the newest `n` before appending more changes nothing once the
      result is trimmed again. */
  lemma LastNAbsorbs<T>(a: seq<T>, b: seq<T>, n: nat)
    ensures LastN(LastN(a, n) + b, n) == LastN(a + b, n)
  {
  }

  /** One element pushed into a window of the newest `n`, then more: the same window as
      pushing them all at once. */
  lemma LastNAfterOne<T>(a: seq<T>, x: T, b: seq<T>, n: nat)
    ensures LastN(LastN(a + [x], n) + b, n) == LastN(a + ([x] + b), n)
  {
    LastNAbsorbs(a + [x], b, n);
    assert a + [x] + b == a + ([x] + b);
  }

  lemma SplitHead<T>(s: seq<T>, xs: seq<T>)
    requires xs != []
    ensures s + [xs[0]] + xs[1..] == s + xs
  {
  }

  /** Whatever was appended, the deque holds exactly the newest `cap` elements of
      everything it has seen, in arrival order. */
  lemma {:induction false} FeedKeepsNewest<T>(s: seq<T>, xs: seq<T>, cap: nat)
    requires 0 < cap && |s| <= cap
    ensures Feed(s, xs, cap) == LastN(s + xs, cap)
    decreases |xs|
  {
    if xs == [] {
      assert s + xs == s;
    } else {
      var s' := Push(s, xs[0], cap);
      calc {
        Feed(s, xs, cap);
        Feed(s', xs[1..], cap);
        { FeedKeepsNewest(s', xs[1..], cap); }
        LastN(LastN(s + [xs[0]], cap) + xs[1..], cap);
        { LastNAbsorbs(s + [xs[0]], xs[1..], cap); }
        LastN(s + [xs[0]] + xs[1..], cap);
        { SplitHead(s, xs); }
        LastN(s + xs, cap);
      }
    }
  }
}
