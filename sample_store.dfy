/**
 * The monitor's sample buffers: `collections.deque(maxlen=5000)`. Appending
 * to a full deque drops its oldest element, so a buffer always holds the
 * newest `Capacity` values appended to it.
 */
module SampleStore {
  import opened Series

  /** `maxlen` of each buffer. */
  const Capacity: nat := 5000

  /** The newest (at most `Capacity`) elements of `s`. */
  function Newest<T>(s: seq<T>): (r: seq<T>)
  {
    if |s| <= Capacity then s else s[|s| - Capacity..]
  }

  /** `deque.append` on a deque with `maxlen=Capacity`. */
  function Push<T>(s: seq<T>, x: T): (r: seq<T>)
    requires |s| <= Capacity
    ensures |r| == if |s| < Capacity then |s| + 1 else Capacity
    ensures r[|r| - 1] == x
    ensures |s| < Capacity ==> r == s + [x]
    ensures |s| == Capacity ==> r == s[1..] + [x]
  {
    var t := s + [x];
    if |t| <= Capacity then t else t[1..]
  }

  /** Appending the values `xs` one after another. */
  function PushAll<T>(s: seq<T>, xs: seq<T>): (r: seq<T>)
    requires |s| <= Capacity
    ensures |r| <= Capacity
    decreases |xs|
  {
    if xs == [] then s else PushAll(Push(s, xs[0]), xs[1..])
  }

  /**
   * Whatever is appended, the buffer holds exactly the newest `Capacity`
   * values of everything it was ever given, oldest first: eviction is FIFO.
   */
  lemma {:induction false} PushAllKeepsNewest<T>(s: seq<T>, xs: seq<T>)
    requires |s| <= Capacity
    ensures PushAll(s, xs) == Newest(s + xs)
    decreases |xs|
  {
    if xs == [] {
      assert s + xs == s;
    } else {
      var s' := Push(s, xs[0]);
      PushAllKeepsNewest(s', xs[1..]);
      if |s| < Capacity {
        assert s' + xs[1..] == s + xs;
      } else {
        var u := s + xs;
        assert s' + xs[1..] == u[1..];
        NewestDropsFirst(u);
      }
    }
  }

  /** Beyond capacity, the oldest element is not among the newest. */
  lemma NewestDropsFirst<T>(u: seq<T>)
    requires |u| > Capacity
    ensures Newest(u[1..]) == Newest(u)
  {
    assert u[1..][|u| - 1 - Capacity..] == u[|u| - Capacity..];
  }

  /** Appending a value no smaller than the last keeps a time column in order. */
  lemma PushKeepsOrder(s: seq<real>, x: real)
    requires |s| <= Capacity
    requires NonDecreasing(s)
    requires s == [] || s[|s| - 1] <= x
    ensures NonDecreasing(Push(s, x))
  {
  }
}
