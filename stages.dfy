/** The stateless per-sample shaping rules of the enhancement chain (gain,
    noise gate, brick-wall limiter, safety clamp), each lifted to a whole
    block of mono samples. Samples are real numbers: float32 rounding and
    NaN are not modelled. */
module Stages {

  /** Magnitude of a sample (`abs` / `np.abs`). */
  function Abs(x: real): real {
    if x < 0.0 then -x else x
  }

  /** `np.sign`: -1, 0 or 1. */
  function Sign(x: real): real {
    if x < 0.0 then -1.0 else if x > 0.0 then 1.0 else 0.0
  }

  /** Multiplication of every sample by a linear gain factor (`audio_data *= k`). */
  function Scale(s: seq<real>, k: real): (r: seq<real>)
    ensures |r| == |s|
  {
    seq(|s|, i requires 0 <= i < |s| => s[i] * k)
  }

  function GateSample(x: real, threshold: real): real {
    if Abs(x) < threshold then 0.0 else x
  }

  /** Noise gate: a sample quieter than the threshold is silenced, any other
      sample passes unchanged. */
  function Gate(s: seq<real>, threshold: real): (r: seq<real>)
    ensures |r| == |s|
    ensures forall i :: 0 <= i < |s| && Abs(s[i]) < threshold ==> r[i] == 0.0
    ensures forall i :: 0 <= i < |s| && threshold <= Abs(s[i]) ==> r[i] == s[i]
    ensures forall i :: 0 <= i < |r| ==> r[i] == 0.0 || threshold <= Abs(r[i])
  {
    seq(|s|, i requires 0 <= i < |s| => GateSample(s[i], threshold))
  }

  function LimitSample(x: real, threshold: real): real {
    if Abs(x) > threshold then Sign(x) * threshold else x
  }

  /** Brick-wall limiter: a sample louder than the ceiling is replaced by the
      ceiling with the sample's sign; every other sample is untouched. */
  function Limit(s: seq<real>, threshold: real): (r: seq<real>)
    requires threshold > 0.0
    ensures |r| == |s|
    ensures forall i :: 0 <= i < |r| ==> Abs(r[i]) <= threshold
    ensures forall i :: 0 <= i < |s| && Abs(s[i]) > threshold ==>
              Abs(r[i]) == threshold && Sign(r[i]) == Sign(s[i])
    ensures forall i :: 0 <= i < |s| && Abs(s[i]) <= threshold ==> r[i] == s[i]
  {
    seq(|s|, i requires 0 <= i < |s| => LimitSample(s[i], threshold))
  }

  function ClampSample(x: real): real {
    if x < -1.0 then -1.0 else if x > 1.0 then 1.0 else x
  }

  /** `np.clip(data, -1.0, 1.0)`: every sample ends up in [-1, 1]; samples
      already in range are untouched, the others go to the nearer bound. */
  function Clamp(s: seq<real>): (r: seq<real>)
    ensures |r| == |s|
    ensures forall i :: 0 <= i < |r| ==> -1.0 <= r[i] <= 1.0
    ensures forall i :: 0 <= i < |s| && -1.0 <= s[i] <= 1.0 ==> r[i] == s[i]
    ensures forall i :: 0 <= i < |s| && s[i] > 1.0 ==> r[i] == 1.0
    ensures forall i :: 0 <= i < |s| && s[i] < -1.0 ==> r[i] == -1.0
  {
    seq(|s|, i requires 0 <= i < |s| => ClampSample(s[i]))
  }

  /** Gating twice is gating once: the gate leaves nothing for a second pass. */
  lemma GateIdempotent(s: seq<real>, threshold: real)
    ensures Gate(Gate(s, threshold), threshold) == Gate(s, threshold)
  {
  }

  /** Limiting twice is limiting once: already-limited input passes through. */
  lemma LimitIdempotent(s: seq<real>, threshold: real)
    requires threshold > 0.0
    ensures Limit(Limit(s, threshold), threshold) == Limit(s, threshold)
  {
  }

  /** The per-sample stages act on each sample alone, so a block may be split
      anywhere without changing the result. */
  lemma PointwiseConcat(a: seq<real>, b: seq<real>, k: real, gate: real, ceiling: real)
    requires ceiling > 0.0
    ensures Scale(a + b, k) == Scale(a, k) + Scale(b, k)
    ensures Gate(a + b, gate) == Gate(a, gate) + Gate(b, gate)
    ensures Limit(a + b, ceiling) == Limit(a, ceiling) + Limit(b, ceiling)
    ensures Clamp(a + b) == Clamp(a) + Clamp(b)
  {
    assert forall i :: 0 <= i < |a| ==> (a + b)[i] == a[i];
    assert forall i :: |a| <= i < |a| + |b| ==> (a + b)[i] == b[i - |a|];
    ScaleConcat(a, b, k);
  }

  lemma ScaleConcat(a: seq<real>, b: seq<real>, k: real)
    ensures Scale(a + b, k) == Scale(a, k) + Scale(b, k)
  {
    var l, r := Scale(a + b, k), Scale(a, k) + Scale(b, k);
    forall i | 0 <= i < |a| + |b|
      ensures l[i] == r[i]
    {
      if i < |a| {
        assert (a + b)[i] == a[i] && r[i] == Scale(a, k)[i];
      } else {
        assert (a + b)[i] == b[i - |a|] && r[i] == Scale(b, k)[i - |a|];
      }
    }
  }

  /** Silence passes every per-sample stage as silence. */
  lemma PointwiseSilence(s: seq<real>, k: real, gate: real, ceiling: real)
    requires ceiling > 0.0
    requires forall i :: 0 <= i < |s| ==> s[i] == 0.0
    ensures forall i :: 0 <= i < |s| ==> Scale(s, k)[i] == 0.0
    ensures forall i :: 0 <= i < |s| ==> Gate(s, gate)[i] == 0.0
    ensures forall i :: 0 <= i < |s| ==> Limit(s, ceiling)[i] == 0.0
    ensures forall i :: 0 <= i < |s| ==> Clamp(s)[i] == 0.0
  {
  }
}
