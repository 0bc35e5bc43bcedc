/** The two bounded FIFO buffers the step appends to: the tick log, trimmed with
    `slice(-maxHistory)`, and the plot series, trimmed with one `shift()`. */
module Telemetry {

  /** `state.maxHistory`; never reassigned. */
  const MaxHistory: nat := 120

  /** `state.maxGraphPoints`; never reassigned. */
  const MaxGraphPoints: nat := 180

  /** The newest `cap` elements of `s`, in order (`s.slice(-cap)` for positive `cap`). */
  function KeepNewest<T>(s: seq<T>, cap: nat): seq<T> {
    if |s| > cap then s[|s| - cap..] else s
  }

  /** The kept part is a suffix of the input, as long as the capacity allows. */
  lemma KeepNewestFacts<T>(s: seq<T>, cap: nat)
    ensures |KeepNewest(s, cap)| == if |s| > cap then cap else |s|
    ensures KeepNewest(s, cap) == s[|s| - |KeepNewest(s, cap)|..]
  {
  }

  /** Appending and trimming once more loses nothing an earlier trim kept:
      trimming is compatible with appending further entries. */
  lemma {:induction false} KeepNewestAppend<T>(a: seq<T>, b: seq<T>, cap: nat)
    ensures KeepNewest(KeepNewest(a, cap) + b, cap) == KeepNewest(a + b, cap)
  {
    if |a| > cap {
      var s := a + b;
      var t := a[|a| - cap..] + b;
      assert t == s[|a| - cap..];
      assert t[|t| - cap..] == s[|a| - cap..][|t| - cap..];
      assert |a| - cap + (|t| - cap) == |s| - cap;
    }
  }

  /** One more entry, then a further batch, trimmed twice, is the same as the
      whole batch trimmed once. */
  lemma KeepNewestThen<T>(h: seq<T>, e: T, tail: seq<T>, cap: nat)
    ensures KeepNewest(KeepNewest(h + [e], cap) + tail, cap) == KeepNewest(h + ([e] + tail), cap)
  {
    KeepNewestAppend(h + [e], tail, cap);
    assert h + [e] + tail == h + ([e] + tail);
  }

  /** Appending one entry to the log, as at demo.js:449-452. */
  function PushHistory<T>(h: seq<T>, e: T): seq<T> {
    KeepNewest(h + [e], MaxHistory)
  }

  /** The log grows by one until it holds `MaxHistory` lines, always ends with
      the new line, and is the newest part of the old log plus that line. */
  lemma PushHistoryFacts<T>(h: seq<T>, e: T)
    ensures |PushHistory(h, e)| == if |h| < MaxHistory then |h| + 1 else MaxHistory
    ensures PushHistory(h, e)[|PushHistory(h, e)| - 1] == e
    ensures PushHistory(h, e) == (h + [e])[|h| + 1 - |PushHistory(h, e)|..]
  {
  }

  /** Appending one sample to the plot series, as at demo.js:454-457: at most
      one element is evicted per push. */
  function PushGraph<T>(g: seq<T>, x: T): seq<T> {
    var s := g + [x];
    if |s| > MaxGraphPoints then s[1..] else s
  }

  /** Below capacity the sample is appended; at or above it the oldest sample
      is dropped, so an over-full series never shrinks back. */
  lemma PushGraphFacts<T>(g: seq<T>, x: T)
    ensures |g| < MaxGraphPoints ==> PushGraph(g, x) == g + [x]
    ensures |g| >= MaxGraphPoints ==> |PushGraph(g, x)| == |g| && PushGraph(g, x) == (g + [x])[1..]
    ensures PushGraph(g, x)[|PushGraph(g, x)| - 1] == x
  {
  }

  /** On a buffer within capacity the one-shift eviction is the same as keeping
      the newest `MaxGraphPoints` samples. */
  lemma PushGraphKeepsNewest<T>(g: seq<T>, x: T)
    requires |g| <= MaxGraphPoints
    ensures PushGraph(g, x) == KeepNewest(g + [x], MaxGraphPoints)
    ensures |PushGraph(g, x)| <= MaxGraphPoints
  {
  }
}
