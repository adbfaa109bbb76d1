/**
 * The causal bandpass envelope filter: per channel, a first-order high-pass
 * stage (offset rejection) feeding a first-order low-pass stage (envelope
 * smoothing). Every channel keeps its own state, starts from zero and is
 * never reset during a recording.
 */
module Filter {
  import opened Signal

  /** Gain of the high-pass stage. */
  const HighPassGain: real := 0.8642

  /** Gain of the low-pass stage; the previous output keeps weight 1 - LowPassGain. */
  const LowPassGain: real := 0.611

  /**
   * State of one channel: `x` the high-pass output, `e` the low-pass output
   * (the emitted envelope), `od` the previous raw reading.
   */
  datatype ChannelState = ChannelState(x: real, e: real, od: real)

  /** The state every channel starts from. */
  const Zero := ChannelState(0.0, 0.0, 0.0)

  /** One reading `d` passing through the cascade. */
  function Step(s: ChannelState, d: real): ChannelState
  {
    var x := HighPassGain * (s.x + d - s.od);
    ChannelState(x, LowPassGain * x + s.e * (1.0 - LowPassGain), d)
  }

  /** State of a channel after it has seen the readings `ds`, in order. */
  function StateAfter(ds: seq<real>): ChannelState
  {
    if ds == [] then Zero else Step(StateAfter(ds[..|ds| - 1]), ds[|ds| - 1])
  }

  /** The state after k + 1 readings is one step from the state after k. */
  lemma StateAfterExtend(ds: seq<real>, k: nat)
    requires k < |ds|
    ensures StateAfter(ds[..k + 1]) == Step(StateAfter(ds[..k]), ds[k])
  {
    assert ds[..k + 1][..k] == ds[..k];
  }

  /** State of channel `c` after the first `k` samples of `data`. */
  function ChannelStateAt(data: Recording, c: nat, k: nat): ChannelState
    requires HasChannels(data, c + 1) && k <= |data|
  {
    StateAfter(Column(data, c)[..k])
  }

  /** Sample k moves channel c one step on, from its own reading only. */
  lemma ChannelStateAtNext(data: Recording, c: nat, k: nat)
    requires HasChannels(data, c + 1) && k < |data|
    ensures ChannelStateAt(data, c, k + 1) == Step(ChannelStateAt(data, c, k), data[k][c])
  {
    StateAfterExtend(Column(data, c), k);
  }

  /**
   * The inner loop of `bandpass`: every channel i takes one step on reading
   * d[i], updating its entries of the state arrays in place.
   */
  method StepChannels(x: array<real>, e: array<real>, od: array<real>, d: Sample)
    requires x.Length == e.Length == od.Length <= |d|
    requires x != e && x != od && e != od
    modifies x, e, od
    ensures forall c :: 0 <= c < x.Length ==>
              ChannelState(x[c], e[c], od[c]) == Step(ChannelState(old(x[c]), old(e[c]), old(od[c])), d[c])
  {
    for i := 0 to x.Length
      invariant forall c :: 0 <= c < i ==>
                  ChannelState(x[c], e[c], od[c]) == Step(ChannelState(old(x[c]), old(e[c]), old(od[c])), d[c])
      invariant forall c :: i <= c < x.Length ==> x[c] == old(x[c]) && e[c] == old(e[c]) && od[c] == old(od[c])
    {
      x[i] := HighPassGain * (x[i] + d[i] - od[i]);
      e[i] := LowPassGain * x[i] + e[i] * (1.0 - LowPassGain);
      od[i] := d[i];
    }
  }

  /**
   * The filter over a whole recording: one output vector per input sample, in
   * order, each with `channels` entries; entry c of output k is the envelope of
   * channel c after the readings 0..k of that channel alone.
   */
  method Bandpass(data: Recording, channels: nat) returns (filtered: Recording)
    requires HasChannels(data, channels)
    ensures |filtered| == |data|
    ensures forall k :: 0 <= k < |data| ==> |filtered[k]| == channels
    ensures forall k, c :: 0 <= k < |data| && 0 <= c < channels ==>
              filtered[k][c] == ChannelStateAt(data, c, k + 1).e
    ensures (forall k, c :: 0 <= k < |data| && 0 <= c < channels ==> data[k][c] == 0.0) ==>
              forall k, c :: 0 <= k < |data| && 0 <= c < channels ==> filtered[k][c] == 0.0
  {
    var x := new real[channels](_ => 0.0);
    var e := new real[channels](_ => 0.0);
    var od := new real[channels](_ => 0.0);
    filtered := [];
    for k := 0 to |data|
      invariant |filtered| == k
      invariant forall j :: 0 <= j < k ==> |filtered[j]| == channels
      invariant forall j, c :: 0 <= j < k && 0 <= c < channels ==>
                  filtered[j][c] == ChannelStateAt(data, c, j + 1).e
      invariant forall c :: 0 <= c < channels ==>
                  ChannelState(x[c], e[c], od[c]) == ChannelStateAt(data, c, k)
    {
      StepChannels(x, e, od, data[k]);
      forall c | 0 <= c < channels
        ensures ChannelState(x[c], e[c], od[c]) == ChannelStateAt(data, c, k + 1)
      {
        ChannelStateAtNext(data, c, k);
      }
      ghost var done := filtered;
      filtered := filtered + [e[..]];
      forall j, c | 0 <= j < k + 1 && 0 <= c < channels
        ensures filtered[j][c] == ChannelStateAt(data, c, j + 1).e
      {
        if j < k {
          assert filtered[j] == done[j];
        }
      }
    }
    if forall k, c :: 0 <= k < |data| && 0 <= c < channels ==> data[k][c] == 0.0 {
      forall k, c | 0 <= k < |data| && 0 <= c < channels
        ensures filtered[k][c] == 0.0
      {
        SilenceStaysZero(Column(data, c)[..k + 1]);
      }
    }
  }

  /** A silent channel stays in the zero state, so it emits only zeros. */
  lemma {:induction false} SilenceStaysZero(ds: seq<real>)
    requires forall i :: 0 <= i < |ds| ==> ds[i] == 0.0
    ensures StateAfter(ds) == Zero
  {
    if ds != [] {
      SilenceStaysZero(ds[..|ds| - 1]);
    }
  }

  function Power(b: real, n: nat): real
  {
    if n == 0 then 1.0 else b * Power(b, n - 1)
  }

  /**
   * Offset rejection: under a constant reading v the high-pass output after n
   * readings is HighPassGain^n * v, and the stored previous reading is v.
   */
  lemma ConstantInputDecays(ds: seq<real>, v: real)
    requires ds != []
    requires forall i :: 0 <= i < |ds| ==> ds[i] == v
    ensures StateAfter(ds).x == Power(HighPassGain, |ds|) * v
    ensures StateAfter(ds).od == v
  {
    ConstantStateAfter(ds, v);
    ConstantHighPass(v, |ds|);
  }

  /** The decay factor shrinks strictly with every reading and stays positive. */
  lemma {:induction false} DecayFactorShrinks(n: nat)
    ensures 0.0 < Power(HighPassGain, n + 1) < Power(HighPassGain, n) <= 1.0
  {
    if n > 0 {
      DecayFactorShrinks(n - 1);
    }
  }

  /**
   * The state after n readings that all equal v; by `ConstantStateAfter` it
   * is the state any constant input of length n leads to.
   */
  function ConstantState(v: real, n: nat): ChannelState
  {
    if n == 0 then Zero else Step(ConstantState(v, n - 1), v)
  }

  /** A constant input reaches `ConstantState`. */
  lemma {:induction false} ConstantStateAfter(ds: seq<real>, v: real)
    requires forall i :: 0 <= i < |ds| ==> ds[i] == v
    ensures StateAfter(ds) == ConstantState(v, |ds|)
  {
    if ds != [] {
      ConstantStateAfter(ds[..|ds| - 1], v);
    }
  }

  /** The high-pass part of `ConstantState`: a^n * v once a reading was seen. */
  lemma {:induction false} ConstantHighPass(v: real, n: nat)
    requires n > 0
    ensures ConstantState(v, n).x == Power(HighPassGain, n) * v
    ensures ConstantState(v, n).od == v
  {
    if n > 1 {
      ConstantHighPass(v, n - 1);
      HighPassStep(ConstantState(v, n - 1).x, Power(HighPassGain, n - 1), v);
    }
  }

  /** The inductive step of `ConstantHighPass`, over plain unknowns. */
  lemma HighPassStep(x: real, p: real, v: real)
    requires x == p * v
    ensures HighPassGain * (x + v - v) == (HighPassGain * p) * v
  {
  }

  /**
   * The emitted envelope under a constant reading v, in closed form: with
   * a = HighPassGain and b = 1 - LowPassGain, after n readings
   * e * (a - b) == LowPassGain * a * (a^n - b^n) * v.
   */
  lemma {:induction false} ConstantEnvelope(v: real, n: nat)
    ensures ConstantState(v, n).e * (HighPassGain - (1.0 - LowPassGain))
              == LowPassGain * HighPassGain * (Power(HighPassGain, n) - Power(1.0 - LowPassGain, n)) * v
  {
    if n > 0 {
      ConstantEnvelope(v, n - 1);
      ConstantHighPass(v, n);
      var before, after := ConstantState(v, n - 1), ConstantState(v, n);
      EnvelopeStep(before.e, after.e, after.x, Power(HighPassGain, n - 1), Power(1.0 - LowPassGain, n - 1),
                   Power(HighPassGain, n), Power(1.0 - LowPassGain, n), v);
    }
  }

  /**
   * The inductive step of `ConstantEnvelope`, over plain unknowns: `e0`, `pa`
   * and `pb` before the reading, `e`, `x`, `qa` and `qb` after it.
   */
  lemma EnvelopeStep(e0: real, e: real, x: real, pa: real, pb: real, qa: real, qb: real, v: real)
    requires e0 * (HighPassGain - (1.0 - LowPassGain)) == LowPassGain * HighPassGain * (pa - pb) * v
    requires e == LowPassGain * x + e0 * (1.0 - LowPassGain)
    requires qa == HighPassGain * pa && qb == (1.0 - LowPassGain) * pb && x == qa * v
    ensures e * (HighPassGain - (1.0 - LowPassGain)) == LowPassGain * HighPassGain * (qa - qb) * v
  {
    var av, bv := pa * v, pb * v;
    assert e0 * 0.4752 == 0.5280262 * av - 0.5280262 * bv;
    assert x == 0.8642 * av;
    assert (qa - qb) * v == 0.8642 * av - 0.389 * bv;
  }

  /** A smaller non-negative base gives a smaller power. */
  lemma {:induction false} PowerMonotoneInBase(b: real, a: real, n: nat)
    requires 0.0 <= b <= a
    ensures 0.0 <= Power(b, n) <= Power(a, n)
  {
    if n > 0 {
      PowerMonotoneInBase(b, a, n - 1);
      var pb, pa := Power(b, n - 1), Power(a, n - 1);
      assert b * pb <= a * pb <= a * pa;
    }
  }

  /**
   * Under a constant reading v the envelope is bounded by a multiple of the
   * decay factor: abs(e) * (a - b) <= LowPassGain * a * a^n * abs(v).
   */
  lemma EnvelopeDecays(v: real, n: nat)
    ensures Abs(ConstantState(v, n).e) * (HighPassGain - (1.0 - LowPassGain))
              <= LowPassGain * HighPassGain * Power(HighPassGain, n) * Abs(v)
  {
    ConstantEnvelope(v, n);
    PowerMonotoneInBase(1.0 - LowPassGain, HighPassGain, n);
    EnvelopeBound(ConstantState(v, n).e, Power(HighPassGain, n), Power(1.0 - LowPassGain, n), v);
  }

  /** The bound of `EnvelopeDecays`, over plain unknowns. */
  lemma EnvelopeBound(e: real, pa: real, pb: real, v: real)
    requires 0.0 <= pb <= pa
    requires e * (HighPassGain - (1.0 - LowPassGain)) == LowPassGain * HighPassGain * (pa - pb) * v
    ensures Abs(e) * (HighPassGain - (1.0 - LowPassGain)) <= LowPassGain * HighPassGain * pa * Abs(v)
  {
    var d := pa - pb;
    assert e * 0.4752 == 0.5280262 * (d * v);
    if v >= 0.0 {
      assert 0.0 <= d * v <= pa * v;
      assert Abs(e) * 0.4752 == 0.5280262 * (d * v);
    } else {
      assert 0.0 <= d * (-v) <= pa * (-v);
      assert Abs(e) * 0.4752 == 0.5280262 * (d * (-v));
    }
  }

  /** Bernoulli's bound for the decay factor: a^n * (a + n * (1 - a)) <= a. */
  lemma {:induction false} DecayBernoulli(n: nat)
    ensures Power(HighPassGain, n) * (HighPassGain + n as real * (1.0 - HighPassGain)) <= HighPassGain
  {
    if n > 0 {
      DecayBernoulli(n - 1);
      DecayFactorShrinks(n - 1);
      BernoulliStep(Power(HighPassGain, n - 1), (n - 1) as real);
    }
  }

  /** The inductive step of `DecayBernoulli`, over plain unknowns. */
  lemma BernoulliStep(p: real, m: real)
    requires 0.0 < p <= 1.0 && m >= 0.0
    requires p * (HighPassGain + m * (1.0 - HighPassGain)) <= HighPassGain
    ensures HighPassGain * p * (HighPassGain + (m + 1.0) * (1.0 - HighPassGain)) <= HighPassGain
  {
    var q := p * (0.8642 + m * 0.1358);
    assert 0.8642 * q <= 0.8642 * 0.8642;
    assert 0.8642 * p * 0.1358 <= 0.8642 * 0.1358;
    assert 0.8642 * p * (0.8642 + (m + 1.0) * 0.1358) == 0.8642 * q + 0.8642 * p * 0.1358;
  }

  /**
   * The decay factor falls below any eps > 0: from n * eps * (1 - a) >= 1 on,
   * a^n < eps. With `EnvelopeDecays`, a constant offset is rejected entirely.
   */
  lemma DecayFactorVanishes(eps: real, n: nat)
    requires eps > 0.0 && n as real * eps * (1.0 - HighPassGain) >= 1.0
    ensures Power(HighPassGain, n) < eps
  {
    DecayBernoulli(n);
    DecayFactorShrinks(n);
    VanishingStep(Power(HighPassGain, n), n as real, eps);
  }

  /** The arithmetic of `DecayFactorVanishes`, over plain unknowns. */
  lemma VanishingStep(p: real, m: real, eps: real)
    requires 0.0 < p && eps > 0.0 && m * eps * (1.0 - HighPassGain) >= 1.0
    requires p * (HighPassGain + m * (1.0 - HighPassGain)) <= HighPassGain
    ensures p < eps
  {
    var t := 0.8642 + m * 0.1358;
    var me := m * eps;
    assert me * 0.1358 >= 1.0;
    assert t * eps == 0.8642 * eps + me * 0.1358;
    var te := t * eps;
    assert te > 1.0;
    var pt := p * t;
    assert pt <= 0.8642;
    assert pt * eps <= 0.8642 * eps;
    assert p * te == pt * eps;
    assert p * te > p;
  }

  function AddStates(s: ChannelState, t: ChannelState): ChannelState
  {
    ChannelState(s.x + t.x, s.e + t.e, s.od + t.od)
  }

  /** Pointwise sum of two equally long channels. */
  function AddSignals(a: seq<real>, b: seq<real>): (r: seq<real>)
    requires |a| == |b|
    ensures |r| == |a|
    ensures forall i :: 0 <= i < |a| ==> r[i] == a[i] + b[i]
  {
    seq(|a|, i requires 0 <= i < |a| => a[i] + b[i])
  }

  /**
   * The cascade is linear: filtering the sum of two channels gives the sum of
   * their states.
   */
  lemma {:induction false} Superposition(a: seq<real>, b: seq<real>)
    requires |a| == |b|
    ensures StateAfter(AddSignals(a, b)) == AddStates(StateAfter(a), StateAfter(b))
  {
    if a != [] {
      var n := |a| - 1;
      assert AddSignals(a, b)[..n] == AddSignals(a[..n], b[..n]);
      Superposition(a[..n], b[..n]);
    }
  }
}
