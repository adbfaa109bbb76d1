/** Shared vocabulary of the EMG pipeline: samples, recordings, channel columns and sums. */
module Signal {

  /** One recording instant: one real-valued reading per channel. */
  type Sample = seq<real>

  /** A recording: samples in temporal order. */
  type Recording = seq<Sample>

  function Abs(r: real): real
  {
    if r < 0.0 then -r else r
  }

  function Min(a: int, b: int): int
  {
    if a <= b then a else b
  }

  /** Every sample of `data` carries at least `channels` readings. */
  predicate HasChannels(data: Recording, channels: nat)
  {
    forall k :: 0 <= k < |data| ==> channels <= |data[k]|
  }

  /** The readings of channel `c`, in temporal order. */
  function Column(data: Recording, c: nat): seq<real>
    requires HasChannels(data, c + 1)
  {
    seq(|data|, k requires 0 <= k < |data| => data[k][c])
  }

  /** The absolute readings of channel `c`, in temporal order. */
  function Magnitudes(data: Recording, c: nat): seq<real>
    requires HasChannels(data, c + 1)
  {
    seq(|data|, k requires 0 <= k < |data| => Abs(data[k][c]))
  }

  /** Left-to-right sum, as Python's `sum` over a list. */
  function Sum(s: seq<real>): real
  {
    if s == [] then 0.0 else Sum(s[..|s| - 1]) + s[|s| - 1]
  }

  predicate NonNegative(s: seq<real>)
  {
    forall i :: 0 <= i < |s| ==> s[i] >= 0.0
  }

  /** A sum of non-negative values is non-negative. */
  lemma {:induction false} SumNonNegative(s: seq<real>)
    requires NonNegative(s)
    ensures Sum(s) >= 0.0
  {
    if s != [] {
      SumNonNegative(s[..|s| - 1]);
    }
  }

  /** A sum of zeros is zero. */
  lemma {:induction false} SumOfZeros(s: seq<real>)
    requires forall i :: 0 <= i < |s| ==> s[i] == 0.0
    ensures Sum(s) == 0.0
  {
    if s != [] {
      SumOfZeros(s[..|s| - 1]);
    }
  }
}
