/** The bounded history window behind the chart: `[...prev, sample].slice(-50)`
    (src/components/FaceTracker.tsx:42 and :98). Generic in the element type. */
module HistoryBuffer {

  /** How many samples the window keeps. */
  const CAPACITY: nat := 50

  function Min(a: int, b: int): (m: int) {
    if a <= b then a else b
  }

  /** `s.slice(start)` on a JavaScript array: a negative start counts back from the
      end and is clamped to 0, a start past the end gives the empty array. */
  function SliceFrom<T>(s: seq<T>, start: int): (r: seq<T>) {
    var from := if start < 0 then (if |s| + start < 0 then 0 else |s| + start)
                else (if start > |s| then |s| else start);
    s[from..]
  }

  /** What `slice(start)` keeps: always a suffix of `s`; a negative start keeps the last
      `-start` elements (all of `s` when it is shorter), a non-negative one drops the first
      `start` (all of them when `start` is past the end). */
  lemma SliceFromIsSuffix<T>(s: seq<T>, start: int)
    ensures |SliceFrom(s, start)| <= |s| && SliceFrom(s, start) == s[|s| - |SliceFrom(s, start)|..]
    ensures start < 0 ==> |SliceFrom(s, start)| == Min(-start, |s|)
    ensures 0 <= start ==> |SliceFrom(s, start)| == |s| - Min(start, |s|)
  {
  }

  /** Reference definition of a window: the last `n` elements of `s` (all of `s` when
      it is shorter), in their original order. */
  function LastN<T>(s: seq<T>, n: nat): (r: seq<T>)
    ensures |r| == Min(n, |s|)
    ensures r == s[|s| - |r|..]
  {
    if |s| <= n then s else s[|s| - n..]
  }

  /** One buffer update: append the sample, then keep the last CAPACITY entries.
      The length grows by one up to the capacity; the result is a suffix of the old
      buffer followed by the new sample, so the survivors keep their order and a full
      buffer loses only its front. */
  function AppendBounded<T>(prev: seq<T>, x: T): (r: seq<T>)
    ensures |r| == Min(CAPACITY, |prev| + 1)
    ensures |prev| >= CAPACITY ==> r == prev[|prev| + 1 - CAPACITY..] + [x]
    ensures |prev| < CAPACITY ==> r == prev + [x]
    ensures |prev| == CAPACITY ==> r == prev[1..] + [x]
  {
    var all := prev + [x];
    var from := |all| - Min(CAPACITY, |all|);
    assert SliceFrom(all, -(CAPACITY as int)) == all[from..];
    assert all[from..] == prev[from..] + [x];
    SliceFrom(all, -(CAPACITY as int))
  }

  /** Appending to the window of a stream is the window of the longer stream. */
  lemma AppendBoundedWindow<T>(s: seq<T>, x: T)
    ensures AppendBounded(LastN(s, CAPACITY), x) == LastN(s + [x], CAPACITY)
  {
    var w := LastN(s, CAPACITY);
    if |s| < CAPACITY {
      assert w == s;
      assert LastN(s + [x], CAPACITY) == s + [x];
    } else {
      assert w == s[|s| - CAPACITY..];
      assert w[1..] == s[|s| + 1 - CAPACITY..];
      assert (s + [x])[|s| + 1 - CAPACITY..] == s[|s| + 1 - CAPACITY..] + [x];
    }
  }

  /** The buffer after appending `samples` one at a time, starting from the empty
      buffer a freshly mounted component holds. */
  function Replay<T>(samples: seq<T>): (r: seq<T>)
    ensures |r| == Min(|samples|, CAPACITY)
    decreases |samples|
  {
    if samples == [] then []
    else AppendBounded(Replay(samples[..|samples| - 1]), samples[|samples| - 1])
  }

  /** After any number of appends from empty, the buffer holds exactly the most recent
      CAPACITY samples (all of them, when fewer), in arrival order. */
  lemma {:induction false} ReplayIsLastWindow<T>(samples: seq<T>)
    ensures Replay(samples) == LastN(samples, CAPACITY)
    decreases |samples|
  {
    if samples != [] {
      var front := samples[..|samples| - 1];
      var last := samples[|samples| - 1];
      assert front + [last] == samples;
      calc {
        Replay(samples);
        AppendBounded(Replay(front), last);
        { ReplayIsLastWindow(front); }
        AppendBounded(LastN(front, CAPACITY), last);
        { AppendBoundedWindow(front, last); }
        LastN(samples, CAPACITY);
      }
    }
  }

  /** Position `i` of the buffer holds sample number `|samples| - |buffer| + i`. */
  lemma ReplayAt<T>(samples: seq<T>, i: nat)
    requires i < Min(|samples|, CAPACITY)
    ensures Replay(samples)[i] == samples[|samples| - Min(|samples|, CAPACITY) + i]
  {
    ReplayIsLastWindow(samples);
    LastNAt(samples, CAPACITY, i);
  }

  /** Position `i` of a window is element `|s| - |window| + i` of the stream. */
  lemma LastNAt<T>(s: seq<T>, n: nat, i: nat)
    requires i < Min(n, |s|)
    ensures LastN(s, n)[i] == s[|s| - Min(n, |s|) + i]
  {
    var w := LastN(s, n);
    var d := |s| - |w|;
    assert w == s[d..];
    assert w[i] == s[d + i];
  }

  /** Sixty appends from empty: the buffer is full and its front is the eleventh sample
      (the first ten were evicted). */
  lemma SixtyAppends<T>(samples: seq<T>)
    requires |samples| == 60
    ensures |Replay(samples)| == CAPACITY
    ensures Replay(samples)[0] == samples[10]
    ensures Replay(samples)[CAPACITY - 1] == samples[59]
  {
    ReplayAt(samples, 0);
    ReplayAt(samples, CAPACITY - 1);
  }
}
