/** The stateful dynamic-range compressor: a one-pole attack/release envelope
    over a single gain-reduction scalar that is updated once per sample, in
    sample order, and carried from one block to the next. */
module Compressor {
  import opened Stages

  /** The compressor's tunables after conversion to linear terms:
      `threshold` is 10**(threshold_db/20), `attackCoeff` and `releaseCoeff`
      are exp(-1/(sample_rate * seconds)). */
  datatype Settings = Settings(threshold: real, ratio: real, attackCoeff: real, releaseCoeff: real)

  /** What the per-sample recurrence needs to be defined: a positive threshold
      (so every sample above it is non-zero) and a ratio that actually
      compresses (a ratio of at most 1 bypasses the whole stage). */
  predicate Defined(p: Settings) {
    p.threshold > 0.0 && p.ratio > 1.0
  }

  /** Coefficients in [0, 1), as exp(-1/t) gives for every t > 0. */
  predicate Engaged(p: Settings) {
    Defined(p) && 0.0 <= p.attackCoeff < 1.0 && 0.0 <= p.releaseCoeff < 1.0
  }

  /** The result of compressing a block: the output samples and the gain
      reduction left in the envelope after the last sample. */
  datatype Run = Run(output: seq<real>, gain: real)

  /** The static curve: the gain that would bring a sample of magnitude
      `level` above the threshold down to threshold + (level - threshold) / ratio. */
  function TargetGain(level: real, p: Settings): real
    requires Defined(p) && level > p.threshold
  {
    (p.threshold + (level - p.threshold) / p.ratio) / level
  }

  /** The target gain is a proper reduction: it lies in (0, 1), and the
      compressed level lies strictly between the threshold and the input. */
  lemma TargetGainRange(level: real, p: Settings)
    requires Defined(p) && level > p.threshold
    ensures 0.0 < TargetGain(level, p) < 1.0
    ensures p.threshold < level * TargetGain(level, p) < level
  {
    var excess := level - p.threshold;
    var out := p.threshold + excess / p.ratio;
    QuotientBelow(excess, p.ratio);
    assert p.threshold < out < level;
    QuotientBelow(out, level);
    assert level * (out / level) == out;
  }

  /** Dividing a positive amount by something greater than one shrinks it but
      keeps it positive; dividing by a larger positive number gives less than 1. */
  lemma QuotientBelow(x: real, d: real)
    requires x > 0.0 && d > 0.0
    ensures 0.0 < x / d
    ensures d > 1.0 ==> x / d < x
    ensures x < d ==> x / d < 1.0
  {
    var q := x / d;
    assert q * d == x;
    SignOfProduct(d, q);
    assert 0.0 < q;
    if d > 1.0 {
      assert x - q == q * (d - 1.0);
      SignOfProduct(q, d - 1.0);
    }
    if x < d {
      assert d - x == d * (1.0 - q);
      SignOfProduct(d, 1.0 - q);
    }
  }

  /** One-pole smoothing of the envelope towards `target`. */
  function Smooth(coeff: real, g: real, target: real): real {
    coeff * g + (1.0 - coeff) * target
  }

  /** The envelope update for one sample: attack towards the target gain when
      the sample is above the threshold, release towards 1 otherwise. */
  function Step(g: real, x: real, p: Settings): real
    requires Defined(p)
  {
    if Abs(x) > p.threshold then Smooth(p.attackCoeff, g, TargetGain(Abs(x), p))
    else Smooth(p.releaseCoeff, g, 1.0)
  }

  /** The envelope fold for a per-sample update `step`: each sample first
      moves the envelope, then is scaled by the envelope's new value. The
      structural facts proved about it hold whatever the update is. */
  function Fold(s: seq<real>, g: real, step: (real, real) -> real): (r: Run)
    ensures |r.output| == |s|
    decreases |s|
  {
    if s == [] then Run([], g)
    else
      var prev := Fold(s[..|s| - 1], g, step);
      var g' := step(prev.gain, s[|s| - 1]);
      Run(prev.output + [s[|s| - 1] * g'], g')
  }

  /** The compressor's per-sample envelope update as a function value. */
  function Envelope(p: Settings): (real, real) -> real
    requires Defined(p)
  {
    (g, x) => Step(g, x, p)
  }

  /** Compression of a block starting from envelope value `g`: the samples in
      order, each updating the envelope and then scaled by it. */
  function Compress(s: seq<real>, g: real, p: Settings): (r: Run)
    requires Defined(p)
    ensures |r.output| == |s|
  {
    Fold(s, g, Envelope(p))
  }

  /** One unfolding of the fold: the last sample is scaled by the envelope
      value after the step that sample caused. */
  lemma {:induction false} FoldLast(s: seq<real>, g: real, step: (real, real) -> real)
    requires |s| > 0
    ensures Fold(s, g, step).gain == step(Fold(s[..|s| - 1], g, step).gain, s[|s| - 1])
    ensures Fold(s, g, step).output ==
              Fold(s[..|s| - 1], g, step).output + [Fold(s, g, step).output[|s| - 1]]
    ensures Fold(s, g, step).output[|s| - 1] == s[|s| - 1] * Fold(s, g, step).gain
  {
    var r := Fold(s, g, step);
    var prev := Fold(s[..|s| - 1], g, step);
    assert r.output == r.output[..|s| - 1] + [r.output[|s| - 1]];
    assert r.output[..|s| - 1] == prev.output;
  }

  /** The fold over the first i + 1 samples is the fold over the first i
      samples followed by one step for sample i. */
  lemma {:induction false} FoldPrefixStep(s: seq<real>, i: int, g: real, step: (real, real) -> real,
                                          g': real, y: real)
    requires 0 <= i < |s|
    requires g' == step(Fold(s[..i], g, step).gain, s[i])
    requires y == s[i] * g'
    ensures Fold(s[..i + 1], g, step) == Run(Fold(s[..i], g, step).output + [y], g')
  {
    var head := s[..i + 1];
    assert head[..i] == s[..i] && head[i] == s[i];
    FoldLast(head, g, step);
    var r := Fold(head, g, step);
    assert r.gain == g';
    assert r.output[i] == y;
    assert r.output == Fold(s[..i], g, step).output + [y];
  }

  /** Continuity across block boundaries: folding block `a` and then block `b`
      from the envelope `a` left behind gives the same samples and the same
      final envelope as folding `a + b` in one go. */
  lemma {:induction false} FoldConcat(a: seq<real>, b: seq<real>, g: real, step: (real, real) -> real)
    ensures Fold(a + b, g, step) ==
              Run(Fold(a, g, step).output + Fold(b, Fold(a, g, step).gain, step).output,
                  Fold(b, Fold(a, g, step).gain, step).gain)
    decreases |b|
  {
    var ra := Fold(a, g, step);
    if b == [] {
      assert a + b == a;
    } else {
      var b' := b[..|b| - 1];
      FoldConcat(a, b', g, step);
      var whole := Fold(a + b, g, step);
      var rb := Fold(b, ra.gain, step);
      var rb' := Fold(b', ra.gain, step);
      FoldLast(a + b, g, step);
      assert (a + b)[..|a + b| - 1] == a + b';
      assert (a + b)[|a + b| - 1] == b[|b| - 1];
      FoldLast(b, ra.gain, step);
      assert whole.gain == rb.gain;
      assert whole.output == (ra.output + rb'.output) + [whole.output[|a + b| - 1]];
      assert rb.output == rb'.output + [rb.output[|b| - 1]];
      assert whole.output[|a + b| - 1] == rb.output[|b| - 1];
    }
  }

  /** Output sample i is input sample i scaled by the envelope value reached
      right after sample i. */
  lemma {:induction false} FoldAt(s: seq<real>, g: real, step: (real, real) -> real, i: int)
    requires 0 <= i < |s|
    ensures Fold(s, g, step).output[i] == s[i] * Fold(s[..i + 1], g, step).gain
  {
    var head := s[..i + 1];
    assert s == head + s[i + 1..];
    FoldConcat(head, s[i + 1..], g, step);
    var rh := Fold(head, g, step);
    assert Fold(s, g, step).output[i] == rh.output[i];
    FoldLast(head, g, step);
    assert head[i] == s[i];
  }

  /** An update that keeps an envelope in (0, 1] there. */
  ghost predicate KeepsUnit(step: (real, real) -> real) {
    forall e, x :: 0.0 < e <= 1.0 ==> 0.0 < step(e, x) <= 1.0
  }

  /** Starting in (0, 1], the envelope is still in (0, 1] after any block. */
  lemma {:induction false} FoldGainInUnit(s: seq<real>, g: real, step: (real, real) -> real)
    requires KeepsUnit(step) && 0.0 < g <= 1.0
    ensures 0.0 < Fold(s, g, step).gain <= 1.0
    decreases |s|
  {
    if s != [] {
      FoldGainInUnit(s[..|s| - 1], g, step);
    }
  }

  /** Silence in, silence out (the envelope still moves). */
  lemma {:induction false} FoldSilence(s: seq<real>, g: real, step: (real, real) -> real)
    requires forall i :: 0 <= i < |s| ==> s[i] == 0.0
    ensures forall i :: 0 <= i < |s| ==> Fold(s, g, step).output[i] == 0.0
    decreases |s|
  {
    if s != [] {
      FoldSilence(s[..|s| - 1], g, step);
    }
  }

  /** Smoothing with a coefficient in [0, 1) lands between the old value and
      the target, and strictly moves off the old value towards a larger target. */
  lemma SmoothBetween(coeff: real, g: real, target: real)
    requires 0.0 <= coeff < 1.0
    ensures g <= target ==> g <= Smooth(coeff, g, target) <= target
    ensures target <= g ==> target <= Smooth(coeff, g, target) <= g
    ensures g < target ==> g < Smooth(coeff, g, target)
    ensures target < g ==> Smooth(coeff, g, target) < g
  {
    var s := Smooth(coeff, g, target);
    assert s - target == coeff * (g - target);
    assert s - g == (1.0 - coeff) * (target - g);
    SignOfProduct(coeff, g - target);
    SignOfProduct(1.0 - coeff, target - g);
  }

  lemma SignOfProduct(c: real, d: real)
    requires c >= 0.0
    ensures d <= 0.0 ==> c * d <= 0.0
    ensures d >= 0.0 ==> c * d >= 0.0
    ensures c > 0.0 && d > 0.0 ==> c * d > 0.0
  {
  }

  /** One envelope update keeps the gain reduction in (0, 1]. */
  lemma StepInUnit(g: real, x: real, p: Settings)
    requires Engaged(p) && 0.0 < g <= 1.0
    ensures 0.0 < Step(g, x, p) <= 1.0
  {
    if Abs(x) > p.threshold {
      var t := TargetGain(Abs(x), p);
      TargetGainRange(Abs(x), p);
      SmoothBetween(p.attackCoeff, g, t);
    } else {
      SmoothBetween(p.releaseCoeff, g, 1.0);
    }
  }

  /** Release never decreases the gain reduction and strictly raises it while
      it is below 1; attack moves it strictly towards the target and never
      past it. */
  lemma StepDirection(g: real, x: real, p: Settings)
    requires Engaged(p) && g <= 1.0
    ensures Abs(x) <= p.threshold ==> g <= Step(g, x, p) <= 1.0
    ensures Abs(x) <= p.threshold && g < 1.0 ==> g < Step(g, x, p)
    ensures Abs(x) > p.threshold && TargetGain(Abs(x), p) <= g ==>
              TargetGain(Abs(x), p) <= Step(g, x, p) <= g
    ensures Abs(x) > p.threshold && TargetGain(Abs(x), p) < g ==> Step(g, x, p) < g
    ensures Abs(x) > p.threshold && g <= TargetGain(Abs(x), p) ==>
              g <= Step(g, x, p) <= TargetGain(Abs(x), p)
    ensures Abs(x) > p.threshold && g < TargetGain(Abs(x), p) ==> g < Step(g, x, p)
  {
    if Abs(x) > p.threshold {
      SmoothBetween(p.attackCoeff, g, TargetGain(Abs(x), p));
    } else {
      SmoothBetween(p.releaseCoeff, g, 1.0);
    }
  }

  /** The rate of approach: each update shrinks the distance to its goal by
      the smoothing coefficient, the attack towards the target gain and the
      release towards 1. */
  lemma StepContracts(g: real, x: real, p: Settings)
    requires Defined(p)
    ensures Abs(x) > p.threshold ==>
              Step(g, x, p) - TargetGain(Abs(x), p) == p.attackCoeff * (g - TargetGain(Abs(x), p))
    ensures Abs(x) <= p.threshold ==> Step(g, x, p) - 1.0 == p.releaseCoeff * (g - 1.0)
  {
  }

  /** The settled state for a sample above the threshold: at the target gain
      the attack update leaves the envelope where it is, and the sample comes
      out at threshold + (level - threshold) / ratio, the static curve taken
      on linear amplitudes. */
  lemma SettledLevel(x: real, p: Settings)
    requires Defined(p) && Abs(x) > p.threshold
    ensures Step(TargetGain(Abs(x), p), x, p) == TargetGain(Abs(x), p)
    ensures Abs(x * TargetGain(Abs(x), p)) == p.threshold + (Abs(x) - p.threshold) / p.ratio
  {
    var level, t := Abs(x), TargetGain(Abs(x), p);
    var out := p.threshold + (level - p.threshold) / p.ratio;
    TargetGainRange(level, p);
    assert level * t == out;
    if x < 0.0 {
      assert x * t == -(level * t);
    } else {
      assert x * t == level * t;
    }
  }

  /** c to the power n. */
  function Power(c: real, n: nat): real {
    if n == 0 then 1.0 else c * Power(c, n - 1)
  }

  /** At every sample of `s`, `step` shrinks the distance to `target` by the
      factor `c`. */
  ghost predicate ContractsOn(step: (real, real) -> real, s: seq<real>, target: real, c: real) {
    forall i, e :: 0 <= i < |s| ==> step(e, s[i]) - target == c * (e - target)
  }

  /** For a coefficient in [0, 1), c^n lies in [0, 1] and is below 1 after
      at least one sample, so the remaining distance only shrinks. */
  lemma {:induction false} PowerInUnit(c: real, n: nat)
    requires 0.0 <= c < 1.0
    ensures 0.0 <= Power(c, n) <= 1.0
    ensures n > 0 ==> Power(c, n) < 1.0
  {
    if n > 0 {
      PowerInUnit(c, n - 1);
      SignOfProduct(c, Power(c, n - 1));
      assert c * Power(c, n - 1) <= 1.0 * Power(c, n - 1);
    }
  }

  /** `gain` is `start` moved towards `target` so that c^n of the starting
      distance remains. */
  predicate Approached(gain: real, start: real, target: real, c: real, n: nat) {
    gain - target == Power(c, n) * (start - target)
  }

  /** An update that shrinks the distance to `target` by the factor `c` at
      every sample of the block shrinks it by c^n over n samples. */
  lemma {:induction false} FoldApproach(s: seq<real>, g: real, step: (real, real) -> real,
                                        target: real, c: real)
    requires ContractsOn(step, s, target, c)
    ensures Approached(Fold(s, g, step).gain, g, target, c, |s|)
    decreases |s|
  {
    if s != [] {
      var init := s[..|s| - 1];
      FoldApproach(init, g, step, target, c);
      var prev := Fold(init, g, step).gain;
      var pw := Power(c, |init|);
      assert step(prev, s[|s| - 1]) - target == c * (prev - target);
      assert c * (pw * (g - target)) == (c * pw) * (g - target);
    }
  }

  /** On a block held at one level above the threshold, every attack update
      shrinks the distance to that level's target gain by attackCoeff. */
  lemma HeldLevelContracts(s: seq<real>, p: Settings, level: real)
    requires Defined(p) && level > p.threshold
    requires forall i :: 0 <= i < |s| ==> Abs(s[i]) == level
    ensures ContractsOn(Envelope(p), s, TargetGain(level, p), p.attackCoeff)
  {
    forall i, e | 0 <= i < |s|
      ensures Envelope(p)(e, s[i]) - TargetGain(level, p) == p.attackCoeff * (e - TargetGain(level, p))
    {
      StepContracts(e, s[i], p);
    }
  }

  /** While the input is held at one level above the threshold, the envelope
      closes in on the target gain geometrically: after n samples its distance
      to the target is attackCoeff^n times the distance it started at. */
  lemma HeldLevelApproach(s: seq<real>, g: real, p: Settings, level: real)
    requires Defined(p) && level > p.threshold
    requires forall i :: 0 <= i < |s| ==> Abs(s[i]) == level
    ensures Approached(Compress(s, g, p).gain, g, TargetGain(level, p), p.attackCoeff, |s|)
  {
    HeldLevelContracts(s, p, level);
    FoldApproach(s, g, Envelope(p), TargetGain(level, p), p.attackCoeff);
  }

  /** The compressor's envelope update keeps the gain reduction in (0, 1]. */
  lemma EnvelopeKeepsUnit(p: Settings)
    requires Engaged(p)
    ensures KeepsUnit(Envelope(p))
  {
    forall e, x | 0.0 < e <= 1.0
      ensures 0.0 < Envelope(p)(e, x) <= 1.0
    {
      StepInUnit(e, x, p);
    }
  }

  /** The envelope invariant: starting in (0, 1], the gain reduction stays in
      (0, 1] after every block. */
  lemma CompressGainInUnit(s: seq<real>, g: real, p: Settings)
    requires Engaged(p) && 0.0 < g <= 1.0
    ensures 0.0 < Compress(s, g, p).gain <= 1.0
  {
    EnvelopeKeepsUnit(p);
    FoldGainInUnit(s, g, Envelope(p));
  }

  /** `y` is no louder than `x` and has the same sign. */
  predicate NoLouder(x: real, y: real) {
    Abs(y) <= Abs(x) && Sign(y) == Sign(x)
  }

  /** Scaling by a gain in (0, 1] never makes a sample louder and keeps its sign. */
  lemma ScaledByUnitGain(x: real, g: real, y: real)
    requires 0.0 < g <= 1.0 && y == x * g
    ensures NoLouder(x, y)
  {
    if x < 0.0 {
      assert x * g >= x * 1.0;
    } else if x > 0.0 {
      assert x * g <= x * 1.0;
    }
  }

  /** Under an update that keeps the envelope in (0, 1], output sample `i` is
      input sample `i` times the envelope reached there, which lies in (0, 1]. */
  lemma FoldGainAt(s: seq<real>, g: real, step: (real, real) -> real, i: int) returns (gi: real)
    requires KeepsUnit(step) && 0.0 < g <= 1.0 && 0 <= i < |s|
    ensures Fold(s, g, step).output[i] == s[i] * gi && 0.0 < gi <= 1.0
  {
    gi := Fold(s[..i + 1], g, step).gain;
    FoldAt(s, g, step, i);
    FoldGainInUnit(s[..i + 1], g, step);
  }

  /** Under an update that keeps the envelope in (0, 1], output sample `i` is
      no louder than input sample `i` and has its sign. */
  lemma FoldSampleQuieter(s: seq<real>, g: real, step: (real, real) -> real, i: int)
    requires KeepsUnit(step) && 0.0 < g <= 1.0 && 0 <= i < |s|
    ensures NoLouder(s[i], Fold(s, g, step).output[i])
  {
    var gi := FoldGainAt(s, g, step, i);
    ScaledByUnitGain(s[i], gi, Fold(s, g, step).output[i]);
  }

  /** Under an update that keeps the envelope in (0, 1], no sample comes out
      louder than it went in, and none changes sign. */
  lemma FoldNeverLouder(s: seq<real>, g: real, step: (real, real) -> real)
    requires KeepsUnit(step) && 0.0 < g <= 1.0
    ensures forall i :: 0 <= i < |s| ==> NoLouder(s[i], Fold(s, g, step).output[i])
  {
    forall i | 0 <= i < |s|
      ensures NoLouder(s[i], Fold(s, g, step).output[i])
    {
      FoldSampleQuieter(s, g, step, i);
    }
  }

  /** The compressor never makes a sample louder and never flips its sign. */
  lemma CompressNeverLouder(s: seq<real>, g: real, p: Settings)
    requires Engaged(p) && 0.0 < g <= 1.0
    ensures forall i :: 0 <= i < |s| ==>
              Abs(Compress(s, g, p).output[i]) <= Abs(s[i]) &&
              Sign(Compress(s, g, p).output[i]) == Sign(s[i])
  {
    EnvelopeKeepsUnit(p);
    FoldNeverLouder(s, g, Envelope(p));
  }

  /** Continuity of the compressor across block boundaries. */
  lemma CompressConcat(a: seq<real>, b: seq<real>, g: real, p: Settings)
    requires Defined(p)
    ensures Compress(a + b, g, p) ==
              Run(Compress(a, g, p).output + Compress(b, Compress(a, g, p).gain, p).output,
                  Compress(b, Compress(a, g, p).gain, p).gain)
  {
    FoldConcat(a, b, g, Envelope(p));
  }

  /** Silence in, silence out through the compressor. */
  lemma CompressSilence(s: seq<real>, g: real, p: Settings)
    requires Defined(p)
    requires forall i :: 0 <= i < |s| ==> s[i] == 0.0
    ensures forall i :: 0 <= i < |s| ==> Compress(s, g, p).output[i] == 0.0
  {
    FoldSilence(s, g, Envelope(p));
  }
}
