/** The bounded rolling buffer and the `slice(-n)` window used by both session stores. */
module Window {
  import opened Basics

  /** The `k` most recent elements of `s`: all of `s` when it is shorter. */
  function Last<T>(s: seq<T>, k: nat): (r: seq<T>)
    ensures |r| == MinInt(k, |s|)
    ensures r == s[|s| - |r|..]
  {
    s[|s| - MinInt(k, |s|)..]
  }

  /**
   * `const b = [...buffer, x]; if (b.length > cap) b.shift();`
   * The new element always goes in; at most one oldest element is evicted.
   */
  function Pushed<T>(buffer: seq<T>, x: T, cap: nat): (r: seq<T>)
  {
    var grown := buffer + [x];
    if |grown| > cap then grown[1..] else grown
  }

  /** Within capacity, a push keeps exactly the `cap` most recent elements and never exceeds `cap`. */
  lemma PushedIsWindow<T>(buffer: seq<T>, x: T, cap: nat)
    requires |buffer| <= cap
    ensures Pushed(buffer, x, cap) == Last(buffer + [x], cap)
    ensures |Pushed(buffer, x, cap)| == MinInt(|buffer| + 1, cap) <= cap
    ensures cap >= 1 ==> Pushed(buffer, x, cap)[|Pushed(buffer, x, cap)| - 1] == x
  {
  }

  /** On a full (or over-full) buffer a push evicts exactly one element, so the length stays put. */
  lemma PushedEvictsOne<T>(buffer: seq<T>, x: T, cap: nat)
    requires 1 <= |buffer| && cap <= |buffer|
    ensures Pushed(buffer, x, cap) == buffer[1..] + [x]
    ensures |Pushed(buffer, x, cap)| == |buffer|
  {
  }

  /** Pushing onto the window of a history extends the window of the longer history. */
  lemma PushedOntoLast<T>(s: seq<T>, x: T, cap: nat)
    ensures Pushed(Last(s, cap), x, cap) == Last(s + [x], cap)
  {
    var w := Last(s, cap);
    if |s| >= cap {
      if cap > 0 {
        assert (w + [x])[1..] == (s + [x])[|s| + 1 - cap..];
      }
    } else {
      assert w == s;
    }
  }

  /** The buffer after a run of `addFrame` calls, one per element of `xs`. */
  function PushAll<T>(buffer: seq<T>, xs: seq<T>, cap: nat): seq<T>
    decreases |xs|
  {
    if xs == [] then buffer else PushAll(Pushed(buffer, xs[0], cap), xs[1..], cap)
  }

  /** Window of a history stays the window of the longer history, however many pushes follow. */
  lemma {:induction false} PushAllOntoLast<T>(s: seq<T>, xs: seq<T>, cap: nat)
    ensures PushAll(Last(s, cap), xs, cap) == Last(s + xs, cap)
    decreases |xs|
  {
    if xs == [] {
      assert s + xs == s;
    } else {
      PushedOntoLast(s, xs[0], cap);
      PushAllOntoLast(s + [xs[0]], xs[1..], cap);
      assert s + [xs[0]] + xs[1..] == s + xs;
    }
  }

  /**
   * After any sequence of pushes onto a buffer within capacity, the buffer holds exactly the
   * `min(total, cap)` most recent elements in arrival order, and never more than `cap`.
   */
  lemma PushAllIsWindow<T>(buffer: seq<T>, xs: seq<T>, cap: nat)
    requires |buffer| <= cap
    ensures PushAll(buffer, xs, cap) == Last(buffer + xs, cap)
    ensures |PushAll(buffer, xs, cap)| == MinInt(|buffer| + |xs|, cap) <= cap
  {
    assert Last(buffer, cap) == buffer;
    PushAllOntoLast(buffer, xs, cap);
  }

  /** `s.slice(-n)` as JavaScript computes it: the start index `-n` counts from the end when negative. */
  function SliceLast<T>(s: seq<T>, n: int): (r: seq<T>)
    ensures n >= 1 ==> r == Last(s, n)
    ensures n == 0 ==> r == s
    ensures n < 0 ==> r == s[MinInt(-n, |s|)..]
  {
    var start := -n;
    var from := if start < 0 then MaxInt(|s| + start, 0) else MinInt(start, |s|);
    s[from..]
  }
}
