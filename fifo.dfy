/**
 * The drop-oldest bounded FIFO used twice in the service: the enricher's
 * `recent_transcripts` window (append, then `pop(0)` past `max_history`) and the
 * streamer's inbound block queue (`put_nowait`, and on `queue.Full` one
 * `get_nowait` before putting again). For a queue within its bound both are
 * "append, then drop the oldest if the bound is exceeded".
 */
module Fifo {

  function Min(a: int, b: int): int { if a <= b then a else b }

  /** Append `x`; when that exceeds `cap` the oldest element leaves. */
  function PushBounded<T>(q: seq<T>, x: T, cap: nat): (r: seq<T>)
    ensures |r| == if |q| + 1 > cap then |q| else |q| + 1
    ensures |q| <= cap ==> |r| == Min(|q| + 1, cap)
    ensures |q| < cap ==> r == q + [x]
    ensures r == (q + [x])[|q| + 1 - |r|..]
    ensures cap > 0 ==> r != [] && r[|r| - 1] == x
  {
    var a := q + [x];
    if |a| > cap then a[1..] else a
  }

  /** The queue after a run of pushes. */
  function PushAll<T>(q: seq<T>, xs: seq<T>, cap: nat): seq<T>
    decreases |xs|
  {
    if xs == [] then q else PushAll(PushBounded(q, xs[0], cap), xs[1..], cap)
  }

  /** Starting within the bound, the queue always holds the newest `cap` of everything pushed. */
  lemma {:induction false} PushAllKeepsNewest<T>(q: seq<T>, xs: seq<T>, cap: nat)
    requires |q| <= cap
    ensures var all := q + xs;
      PushAll(q, xs, cap) == all[|all| - Min(|all|, cap)..]
    decreases |xs|
  {
    if xs != [] {
      PushAllKeepsNewest(PushBounded(q, xs[0], cap), xs[1..], cap);
      PushKeepsNewest(q, xs, cap);
    }
  }

  /** One push does not change the newest `cap` elements of what is pushed in total. */
  lemma PushKeepsNewest<T>(q: seq<T>, xs: seq<T>, cap: nat)
    requires |q| <= cap && xs != []
    ensures var all, all' := q + xs, PushBounded(q, xs[0], cap) + xs[1..];
      all'[|all'| - Min(|all'|, cap)..] == all[|all| - Min(|all|, cap)..]
  {
    var q' := PushBounded(q, xs[0], cap);
    var d := |q| + 1 - |q'|;
    DropThenAppend(q + [xs[0]], xs[1..], d);
    AppendFront(q, xs);
    SuffixOfSuffix(q + xs, d, Min(|q' + xs[1..]|, cap));
  }

  lemma DropThenAppend<T>(a: seq<T>, b: seq<T>, d: nat)
    requires d <= |a|
    ensures a[d..] + b == (a + b)[d..]
  {
  }

  lemma AppendFront<T>(q: seq<T>, xs: seq<T>)
    requires xs != []
    ensures (q + [xs[0]]) + xs[1..] == q + xs
  {
    assert xs == [xs[0]] + xs[1..];
  }

  lemma SuffixOfSuffix<T>(all: seq<T>, d: nat, n: nat)
    requires d <= |all| && n <= |all| - d
    ensures all[d..][|all| - d - n..] == all[|all| - n..]
  {
  }

  lemma AppendAssoc<T>(a: seq<T>, b: seq<T>, c: seq<T>)
    ensures (a + b) + c == a + (b + c)
  {
  }
}
