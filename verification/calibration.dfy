/**
 * Calibration and normalization against the three calibration vectors
 * `rest_avg`, `flex_max` and `ext_max`. In the program these are process-wide
 * arrays of one entry per channel, created as zeros, added to by `calibrate`
 * and read by `normalize`; here they are the arrays of a `Profile` object.
 */
module Calibration {
  import opened Signal
  import opened Normalization

  /** Length of each calibration phase, in seconds. */
  const PhaseSeconds: nat := 5

  /**
   * Python's `data[lo:hi]` for non-negative bounds: both bounds are clamped to
   * the length, and an inverted range is empty. A short recording therefore
   * yields a short or empty slice, never an error.
   */
  function Slice(data: Recording, lo: nat, hi: nat): (s: Recording)
    ensures |s| == if Min(lo, |data|) <= Min(hi, |data|) then Min(hi, |data|) - Min(lo, |data|) else 0
    ensures forall k :: 0 <= k < |s| ==> lo + k < Min(hi, |data|) && s[k] == data[lo + k]
  {
    var a, b := Min(lo, |data|), Min(hi, |data|);
    if a <= b then data[a..b] else []
  }

  /**
   * What one phase adds to a calibration vector entry: |d[c]| / samples for
   * every sample d of the block, accumulated in temporal order.
   */
  function Share(block: Recording, c: nat, samples: nat): real
    requires HasChannels(block, c + 1)
    requires block == [] || samples > 0
  {
    if block == [] then 0.0
    else Share(block[..|block| - 1], c, samples) + Abs(block[|block| - 1][c]) / samples as real
  }

  /** The first `count` samples of `data` (or all, if fewer) carry at least `channels` readings. */
  predicate PrefixHasChannels(data: Recording, count: nat, channels: nat)
  {
    forall k :: 0 <= k < Min(|data|, count) ==> channels <= |data[k]|
  }

  /** Every slice inside the well-formed prefix is well formed. */
  lemma SliceHasChannels(data: Recording, lo: nat, hi: nat, count: nat, channels: nat)
    requires hi <= count && PrefixHasChannels(data, count, channels)
    ensures HasChannels(Slice(data, lo, hi), channels)
  {
    var s := Slice(data, lo, hi);
    forall k | 0 <= k < |s|
      ensures channels <= |s[k]|
    {
      assert s[k] == data[lo + k] && lo + k < Min(|data|, count);
    }
  }

  /**
   * Calibration phase `phase` (0 rest, 1 flex, 2 extension) of `samples`
   * entries: the block it reads and the share it adds to entry `c`.
   */
  function PhaseShare(data: Recording, phase: nat, samples: nat, c: nat): real
    requires phase < 3 && PrefixHasChannels(data, 3 * samples, c + 1)
  {
    SliceHasChannels(data, phase * samples, (phase + 1) * samples, 3 * samples, c + 1);
    Share(Slice(data, phase * samples, (phase + 1) * samples), c, samples)
  }

  /**
   * The per-sample accumulation equals the block's sum of magnitudes divided
   * by `samples`; for a full block of `samples` entries that is the mean
   * magnitude of the block.
   */
  lemma {:induction false} ShareIsScaledSum(block: Recording, c: nat, samples: nat)
    requires HasChannels(block, c + 1) && samples > 0
    ensures Share(block, c, samples) == Sum(Magnitudes(block, c)) / samples as real
  {
    if block != [] {
      var n := |block| - 1;
      var mags := Magnitudes(block, c);
      assert mags[..n] == Magnitudes(block[..n], c);
      ShareIsScaledSum(block[..n], c, samples);
      DivisionDistributes(Sum(mags[..n]), mags[n], samples as real);
    }
  }

  lemma DivisionDistributes(a: real, b: real, d: real)
    requires d != 0.0
    ensures a / d + b / d == (a + b) / d
  {
  }

  /** A phase never lowers a calibration entry. */
  lemma {:induction false} ShareNonNegative(block: Recording, c: nat, samples: nat)
    requires HasChannels(block, c + 1) && (block == [] || samples > 0)
    ensures Share(block, c, samples) >= 0.0
  {
    if block != [] {
      ShareNonNegative(block[..|block| - 1], c, samples);
    }
  }

  /** A phase recorded in silence contributes nothing. */
  lemma {:induction false} SilentShareIsZero(block: Recording, c: nat, samples: nat)
    requires HasChannels(block, c + 1) && (block == [] || samples > 0)
    requires forall k :: 0 <= k < |block| ==> block[k][c] == 0.0
    ensures Share(block, c, samples) == 0.0
  {
    if block != [] {
      SilentShareIsZero(block[..|block| - 1], c, samples);
    }
  }

  /**
   * The three phase blocks are consecutive and together form the slice of the
   * first 3 * samples entries; with enough data each holds exactly `samples`.
   */
  lemma PhasesPartitionPrefix(data: Recording, samples: nat)
    ensures Slice(data, 0, samples) + Slice(data, samples, 2 * samples)
              + Slice(data, 2 * samples, 3 * samples) == Slice(data, 0, 3 * samples)
    ensures |data| >= 3 * samples ==>
              && |Slice(data, 0, samples)| == samples
              && |Slice(data, samples, 2 * samples)| == samples
              && |Slice(data, 2 * samples, 3 * samples)| == samples
  {
    var n := |data|;
    var a, b, c := Min(samples, n), Min(2 * samples, n), Min(3 * samples, n);
    assert data[..a] + data[a..b] + data[b..c] == data[..c];
  }

  /**
   * With zeroed vectors and at least 3 * samples entries, what a phase adds is
   * the mean magnitude of its channel over exactly its block of `samples`
   * consecutive entries, and it is non-negative.
   */
  lemma PhaseShareIsBlockMean(data: Recording, phase: nat, samples: nat, c: nat)
    requires phase < 3 && samples > 0 && |data| >= 3 * samples
    requires PrefixHasChannels(data, 3 * samples, c + 1)
    ensures HasChannels(data[phase * samples..(phase + 1) * samples], c + 1)
    ensures var block := data[phase * samples..(phase + 1) * samples];
            |block| == samples &&
            PhaseShare(data, phase, samples, c) == Sum(Magnitudes(block, c)) / |block| as real
    ensures PhaseShare(data, phase, samples, c) >= 0.0
  {
    var lo, hi := phase * samples, (phase + 1) * samples;
    assert hi <= 3 * samples;
    var block := Slice(data, lo, hi);
    assert block == data[lo..hi];
    SliceHasChannels(data, lo, hi, 3 * samples, c + 1);
    ShareIsScaledSum(block, c, samples);
    ShareNonNegative(block, c, samples);
  }

  /** One call of a phase closure: target[i] += |d[i]| / samples for every channel i. */
  method AddMagnitudes(target: array<real>, d: Sample, samples: nat)
    requires target.Length <= |d| && samples > 0
    modifies target
    ensures forall i :: 0 <= i < target.Length ==>
              target[i] == old(target[i]) + Abs(d[i]) / samples as real
  {
    for i := 0 to target.Length
      invariant forall j :: 0 <= j < i ==> target[j] == old(target[j]) + Abs(d[j]) / samples as real
      invariant forall j :: i <= j < target.Length ==> target[j] == old(target[j])
    {
      target[i] := target[i] + Abs(d[i]) / samples as real;
    }
  }

  /** One phase loop: the closure applied to every sample of the block, in order. */
  method AccumulateBlock(target: array<real>, block: Recording, samples: nat)
    requires HasChannels(block, target.Length)
    requires block == [] || samples > 0
    modifies target
    ensures forall i :: 0 <= i < target.Length ==>
              target[i] == old(target[i]) + Share(block, i, samples)
  {
    for k := 0 to |block|
      invariant forall i :: 0 <= i < target.Length ==>
                  target[i] == old(target[i]) + Share(block[..k], i, samples)
    {
      assert block[..k + 1][..k] == block[..k];
      AddMagnitudes(target, block[k], samples);
    }
    assert block[..|block|] == block;
  }

  /** The three calibration vectors, one entry per channel. */
  class Profile {
    const channels: nat
    const restAvg: array<real>
    const flexMax: array<real>
    const extMax: array<real>

    ghost predicate Valid()
    {
      && restAvg.Length == channels && flexMax.Length == channels && extMax.Length == channels
      && restAvg != flexMax && restAvg != extMax && flexMax != extMax
    }

    /** The vectors as the program creates them: all zeros. */
    constructor (channels: nat)
      ensures Valid() && this.channels == channels
      ensures fresh(restAvg) && fresh(flexMax) && fresh(extMax)
      ensures forall i :: 0 <= i < channels ==> restAvg[i] == 0.0 && flexMax[i] == 0.0 && extMax[i] == 0.0
    {
      this.channels := channels;
      restAvg := new real[channels](_ => 0.0);
      flexMax := new real[channels](_ => 0.0);
      extMax := new real[channels](_ => 0.0);
    }

    /**
     * `calibrate` with sample rate `hz`: with samples = 5 * hz, the entries
     * [0, samples) add their share to `restAvg`, [samples, 2 * samples) to
     * `flexMax` and [2 * samples, 3 * samples) to `extMax`. Nothing is reset
     * first, so a second call adds the same shares again.
     */
    method Calibrate(data: Recording, hz: nat)
      requires Valid()
      requires PrefixHasChannels(data, 3 * (PhaseSeconds * hz), channels)
      modifies restAvg, flexMax, extMax
      ensures Valid()
      ensures forall i :: 0 <= i < channels ==>
                && restAvg[i] == old(restAvg[i]) + PhaseShare(data, 0, PhaseSeconds * hz, i)
                && flexMax[i] == old(flexMax[i]) + PhaseShare(data, 1, PhaseSeconds * hz, i)
                && extMax[i] == old(extMax[i]) + PhaseShare(data, 2, PhaseSeconds * hz, i)
    {
      var samples := PhaseSeconds * hz;
      SliceHasChannels(data, 0, samples, 3 * samples, channels);
      SliceHasChannels(data, samples, 2 * samples, 3 * samples, channels);
      SliceHasChannels(data, 2 * samples, 3 * samples, 3 * samples, channels);
      AccumulateBlock(restAvg, Slice(data, 0, samples), samples);
      AccumulateBlock(flexMax, Slice(data, samples, 2 * samples), samples);
      AccumulateBlock(extMax, Slice(data, 2 * samples, 3 * samples), samples);
    }

    /**
     * `normalize`: channel 0 rescaled between `restAvg[0]` and `flexMax[0]`,
     * channel 1 between `restAvg[1]` and `extMax[1]`, each clamped to [0, 1].
     */
    method Normalize(data: Recording) returns (flex: seq<real>, ext: seq<real>)
      requires Valid()
      requires HasChannels(data, 2)
      requires |data| > 0 ==> channels >= 2 && flexMax[0] != restAvg[0] && extMax[1] != restAvg[1]
      ensures |flex| == |data| && |ext| == |data|
      ensures forall k :: 0 <= k < |data| ==>
                && flex[k] == Scaled(data[k][0], restAvg[0], flexMax[0])
                && ext[k] == Scaled(data[k][1], restAvg[1], extMax[1])
      ensures forall k :: 0 <= k < |data| ==> 0.0 <= flex[k] <= 1.0 && 0.0 <= ext[k] <= 1.0
    {
      flex, ext := [], [];
      for k := 0 to |data|
        invariant |flex| == k && |ext| == k
        invariant forall j :: 0 <= j < k ==>
                    && flex[j] == Scaled(data[j][0], restAvg[0], flexMax[0])
                    && ext[j] == Scaled(data[j][1], restAvg[1], extMax[1])
      {
        var d := data[k];
        var fNorm := (d[0] - restAvg[0]) / (flexMax[0] - restAvg[0]);
        var eNorm := (d[1] - restAvg[1]) / (extMax[1] - restAvg[1]);
        flex := flex + [Clamp(fNorm)];
        ext := ext + [Clamp(eNorm)];
      }
    }
  }
}
