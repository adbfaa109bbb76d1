/**
 * Sliding-window smoothing of the first two channels. Each channel keeps a
 * FIFO queue of absolute readings; when the queue length equals the window
 * the oldest entry is dropped before the newest is appended.
 */
module Smoother {
  import opened Signal

  /** One queue update: drop the front when the queue length equals `window`, then append `v`. */
  function Push(q: seq<real>, window: real, v: real): seq<real>
    requires q != [] || window != 0.0
  {
    (if |q| as real == window then q[1..] else q) + [v]
  }

  /** The queue after pushing every value of `vals`, oldest first, into an empty queue. */
  function Queue(vals: seq<real>, window: real): seq<real>
    requires vals == [] || window != 0.0
  {
    if vals == [] then [] else Push(Queue(vals[..|vals| - 1], window), window, vals[|vals| - 1])
  }

  /** The queue after k + 1 values is one push away from the queue after k. */
  lemma QueueExtend(vals: seq<real>, window: real, k: nat)
    requires k < |vals| && window != 0.0
    ensures Queue(vals[..k + 1], window) == Push(Queue(vals[..k], window), window, vals[k])
  {
    assert vals[..k + 1][..k] == vals[..k];
  }

  /**
   * FIFO discipline, for any window: the queue is always the most recent part
   * of the input, oldest first.
   */
  lemma {:induction false} QueueIsLatest(vals: seq<real>, window: real)
    requires vals == [] || window != 0.0
    ensures |Queue(vals, window)| <= |vals|
    ensures Queue(vals, window) == vals[|vals| - |Queue(vals, window)|..]
  {
    if vals != [] {
      var n := |vals| - 1;
      QueueIsLatest(vals[..n], window);
      assert vals[..n] + [vals[n]] == vals;
      PushKeepsLatest(vals[..n], Queue(vals[..n], window), window, vals[n]);
    }
  }

  /** One push keeps a suffix of the values pushed so far a suffix. */
  lemma PushKeepsLatest(past: seq<real>, q: seq<real>, window: real, v: real)
    requires q != [] || window != 0.0
    requires |q| <= |past| && q == past[|past| - |q|..]
    ensures |Push(q, window, v)| <= |past| + 1
    ensures Push(q, window, v) == (past + [v])[|past| + 1 - |Push(q, window, v)|..]
  {
    var kept := if |q| as real == window then q[1..] else q;
    assert kept == past[|past| - |kept|..];
  }

  /** The queue length depends only on how many values were pushed. */
  lemma {:induction false} QueueLengthByCount(a: seq<real>, b: seq<real>, window: real)
    requires |a| == |b|
    requires a == [] || window != 0.0
    ensures |Queue(a, window)| == |Queue(b, window)|
  {
    if a != [] {
      QueueLengthByCount(a[..|a| - 1], b[..|b| - 1], window);
    }
  }

  /**
   * With a whole window W >= 1, the queue holds exactly the last min(n, W)
   * values: all of them during warm-up, then the W most recent.
   */
  lemma {:induction false} WholeWindowLength(vals: seq<real>, w: nat)
    requires w >= 1
    ensures |Queue(vals, w as real)| == Min(|vals|, w)
  {
    if vals != [] {
      WholeWindowLength(vals[..|vals| - 1], w);
    }
  }

  /** The window contents for a whole window W: the last min(n, W) values. */
  lemma WholeWindowHoldsLatest(vals: seq<real>, w: nat)
    requires w >= 1
    ensures Queue(vals, w as real) == vals[|vals| - Min(|vals|, w)..]
    ensures |Queue(vals, w as real)| <= w
  {
    QueueIsLatest(vals, w as real);
    WholeWindowLength(vals, w);
  }

  /**
   * A window that is not a natural number is never equal to a queue length,
   * so nothing is ever evicted and the queue keeps every value.
   */
  lemma {:induction false} FractionalWindowKeepsAll(vals: seq<real>, window: real)
    requires window < 0.0 || window.Floor as real != window
    ensures Queue(vals, window) == vals
  {
    if vals != [] {
      var n := |vals| - 1;
      FractionalWindowKeepsAll(vals[..n], window);
      assert vals[..n] + [vals[n]] == vals;
    }
  }

  /** Every queue built from non-negative values sums to a non-negative value. */
  lemma QueueSumNonNegative(vals: seq<real>, window: real)
    requires vals == [] || window != 0.0
    requires NonNegative(vals)
    ensures Sum(Queue(vals, window)) >= 0.0
  {
    QueueIsLatest(vals, window);
    SumNonNegative(Queue(vals, window));
  }

  /** Output of `sliding_rms` for one channel once the values `mags` were pushed. */
  function MeanOutput(mags: seq<real>, window: real): real
    requires window != 0.0
  {
    Sum(Queue(mags, window)) / window
  }

  /** With a positive window every output of `sliding_rms` is non-negative. */
  lemma MeanOutputNonNegative(mags: seq<real>, window: real)
    requires window > 0.0 && NonNegative(mags)
    ensures MeanOutput(mags, window) >= 0.0
  {
    QueueSumNonNegative(mags, window);
    var total := Sum(Queue(mags, window));
    assert total / window >= 0.0;
  }

  /**
   * Warm-up of `sliding_rms` with a whole window W: while at most W values
   * were pushed, the output is the sum of all of them divided by W, not by
   * their count.
   */
  lemma {:induction false} MeanOutputDuringWarmUp(mags: seq<real>, w: nat)
    requires w >= 1 && |mags| <= w
    ensures MeanOutput(mags, w as real) == Sum(mags) / w as real
  {
    WholeWindowHoldsLatest(mags, w);
    assert mags[|mags| - Min(|mags|, w)..] == mags;
  }

  /**
   * One step of both queues: each takes one push, and both are evicted on the
   * length of the first, which is the same as evicting each on its own length.
   */
  lemma PushBoth(a: seq<real>, b: seq<real>, window: real, k: nat, qa: seq<real>, qb: seq<real>)
    requires |a| == |b| && k < |a| && window != 0.0
    requires qa == Queue(a[..k], window) && qb == Queue(b[..k], window)
    ensures |qa| as real == window ==>
              Queue(a[..k + 1], window) == qa[1..] + [a[k]] && Queue(b[..k + 1], window) == qb[1..] + [b[k]]
    ensures |qa| as real != window ==>
              Queue(a[..k + 1], window) == qa + [a[k]] && Queue(b[..k + 1], window) == qb + [b[k]]
  {
    QueueExtend(a, window, k);
    QueueExtend(b, window, k);
    QueueLengthByCount(a[..k], b[..k], window);
  }

  /** Rows of `sliding_rms` outputs over absolute values are non-negative. */
  lemma MeanRowsNonNegative(m0: seq<real>, m1: seq<real>, window: real, rows: Recording)
    requires |m0| == |m1| == |rows| && window > 0.0
    requires NonNegative(m0) && NonNegative(m1)
    requires forall j :: 0 <= j < |rows| ==>
               rows[j] == [MeanOutput(m0[..j + 1], window), MeanOutput(m1[..j + 1], window)]
    ensures forall j :: 0 <= j < |rows| ==> rows[j][0] >= 0.0 && rows[j][1] >= 0.0
  {
    forall j | 0 <= j < |rows|
      ensures rows[j][0] >= 0.0 && rows[j][1] >= 0.0
    {
      MeanOutputNonNegative(m0[..j + 1], window);
      MeanOutputNonNegative(m1[..j + 1], window);
    }
  }

  /** Rows of plain queue sums over absolute values are non-negative. */
  lemma SumRowsNonNegative(m0: seq<real>, m1: seq<real>, window: real, rows: Recording)
    requires |m0| == |m1| == |rows| && (rows == [] || window != 0.0)
    requires NonNegative(m0) && NonNegative(m1)
    requires forall j :: 0 <= j < |rows| ==>
               rows[j] == [Sum(Queue(m0[..j + 1], window)), Sum(Queue(m1[..j + 1], window))]
    ensures forall j :: 0 <= j < |rows| ==> rows[j][0] >= 0.0 && rows[j][1] >= 0.0
  {
    forall j | 0 <= j < |rows|
      ensures rows[j][0] >= 0.0 && rows[j][1] >= 0.0
    {
      QueueSumNonNegative(m0[..j + 1], window);
      QueueSumNonNegative(m1[..j + 1], window);
    }
  }

  /**
   * `sliding_rms`: for every sample, the sum of each channel's queue divided by
   * the fixed `window` (not by the queue's current length).
   */
  method SlidingRms(data: Recording, window: real) returns (smoothed: Recording)
    requires HasChannels(data, 2)
    requires |data| > 0 ==> window != 0.0
    ensures |smoothed| == |data|
    ensures forall k :: 0 <= k < |data| ==>
              smoothed[k] == [MeanOutput(Magnitudes(data, 0)[..k + 1], window),
                              MeanOutput(Magnitudes(data, 1)[..k + 1], window)]
    ensures window > 0.0 ==> forall k :: 0 <= k < |data| ==> smoothed[k][0] >= 0.0 && smoothed[k][1] >= 0.0
  {
    var m0, m1 := Magnitudes(data, 0), Magnitudes(data, 1);
    var q0: seq<real> := [];
    var q1: seq<real> := [];
    smoothed := [];
    for k := 0 to |data|
      invariant |smoothed| == k
      invariant q0 == Queue(m0[..k], window) && q1 == Queue(m1[..k], window)
      invariant forall j :: 0 <= j < k ==>
                  smoothed[j] == [MeanOutput(m0[..j + 1], window), MeanOutput(m1[..j + 1], window)]
    {
      var d := data[k];
      PushBoth(m0, m1, window, k, q0, q1);
      if |q0| as real == window {
        q0 := q0[1..];
        q1 := q1[1..];
      }
      q0 := q0 + [Abs(d[0])];
      q1 := q1 + [Abs(d[1])];
      assert q0 == Queue(m0[..k + 1], window) && q1 == Queue(m1[..k + 1], window);
      ghost var done := smoothed;
      smoothed := smoothed + [[Sum(q0) / window, Sum(q1) / window]];
      forall j | 0 <= j < k + 1
        ensures smoothed[j] == [MeanOutput(m0[..j + 1], window), MeanOutput(m1[..j + 1], window)]
      {
        if j < k {
          assert smoothed[j] == done[j];
        }
      }
    }
    if window > 0.0 {
      MeanRowsNonNegative(m0, m1, window, smoothed);
    }
  }

  /** Python 3's `round` on a real: nearest integer, ties to the even neighbour. */
  function RoundHalfEven(r: real): (n: int)
    ensures -0.5 <= r - n as real <= 0.5
    ensures (r - n as real == 0.5 || n as real - r == 0.5) ==> n % 2 == 0
  {
    var f := r.Floor;
    var frac := r - f as real;
    if frac < 0.5 then f
    else if frac > 0.5 then f + 1
    else if f % 2 == 0 then f
    else f + 1
  }

  /** Linear weights i * 2 / n for i in [0, n): they range over [0, 2). */
  method LinearWeights(n: nat) returns (weights: array<real>)
    ensures weights.Length == n
    ensures forall i :: 0 <= i < n ==> weights[i] == (i * 2) as real / n as real
    ensures forall i :: 0 <= i < n ==> 0.0 <= weights[i] < 2.0
  {
    weights := new real[n](_ => 0.0);
    for i := 0 to n
      invariant forall j :: 0 <= j < i ==> weights[j] == (j * 2) as real / n as real
      invariant forall j :: 0 <= j < i ==> 0.0 <= weights[j] < 2.0
    {
      weights[i] := (i * 2) as real / n as real;
      assert (i * 2) as real < 2.0 * n as real;
    }
  }

  /**
   * `sliding_rms_weighted`: the window is rounded to an integer W, the same
   * FIFO discipline applies, and the output is the plain sum of each queue.
   * The linear weights are computed and then never used.
   */
  method SlidingRmsWeighted(data: Recording, window: real) returns (smoothed: Recording)
    requires HasChannels(data, 2)
    requires RoundHalfEven(window) >= 0
    requires |data| > 0 ==> RoundHalfEven(window) > 0
    ensures |smoothed| == |data|
    ensures forall k :: 0 <= k < |data| ==>
              smoothed[k] == [Sum(Queue(Magnitudes(data, 0)[..k + 1], RoundHalfEven(window) as real)),
                              Sum(Queue(Magnitudes(data, 1)[..k + 1], RoundHalfEven(window) as real))]
    ensures forall k :: 0 <= k < |data| ==> smoothed[k][0] >= 0.0 && smoothed[k][1] >= 0.0
  {
    var w := RoundHalfEven(window);
    var weights := LinearWeights(w);
    smoothed := QueueSums(data, w);
  }

  /**
   * The sample loop of `sliding_rms_weighted` under the rounded window W: for
   * every sample, the plain sum of each channel's queue.
   */
  method QueueSums(data: Recording, w: nat) returns (smoothed: Recording)
    requires HasChannels(data, 2)
    requires |data| > 0 ==> w > 0
    ensures |smoothed| == |data|
    ensures forall k :: 0 <= k < |data| ==>
              smoothed[k] == [Sum(Queue(Magnitudes(data, 0)[..k + 1], w as real)),
                              Sum(Queue(Magnitudes(data, 1)[..k + 1], w as real))]
    ensures forall k :: 0 <= k < |data| ==> smoothed[k][0] >= 0.0 && smoothed[k][1] >= 0.0
  {
    var m0, m1 := Magnitudes(data, 0), Magnitudes(data, 1);
    var q0: seq<real> := [];
    var q1: seq<real> := [];
    smoothed := [];
    for k := 0 to |data|
      invariant |smoothed| == k
      invariant q0 == Queue(m0[..k], w as real) && q1 == Queue(m1[..k], w as real)
      invariant forall j :: 0 <= j < k ==>
                  smoothed[j] == [Sum(Queue(m0[..j + 1], w as real)), Sum(Queue(m1[..j + 1], w as real))]
    {
      var d := data[k];
      PushBoth(m0, m1, w as real, k, q0, q1);
      if |q0| == w {
        q0 := q0[1..];
        q1 := q1[1..];
      }
      q0 := q0 + [Abs(d[0])];
      q1 := q1 + [Abs(d[1])];
      assert q0 == Queue(m0[..k + 1], w as real) && q1 == Queue(m1[..k + 1], w as real);
      ghost var done := smoothed;
      smoothed := smoothed + [[Sum(q0), Sum(q1)]];
      forall j | 0 <= j < k + 1
        ensures smoothed[j] == [Sum(Queue(m0[..j + 1], w as real)), Sum(Queue(m1[..j + 1], w as real))]
      {
        if j < k {
          assert smoothed[j] == done[j];
        }
      }
    }
    SumRowsNonNegative(m0, m1, w as real, smoothed);
  }
}
