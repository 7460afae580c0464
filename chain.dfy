/** The fixed-order enhancement chain applied to one block: input gain, noise
    gate, optional band-pass, optional compressor, makeup gain, output gain,
    optional limiter, and the final clamp to [-1, 1]. `Process` is the
    specification the imperative `AudioPipeline.ProcessFrame` is proved
    against. */
module Chain {
  import opened Stages
  import Compressor
  import BandPass

  /** A gain stage: its setting in dB and the linear factor 10**(db/20). */
  datatype Gain = Gain(db: real, factor: real)

  /** The tunables `process_frame` reads, after their dB and time-constant
      conversions. `bandPassB`/`bandPassA` are the Butterworth coefficients for
      the configured cut-offs and sample rate. */
  datatype Config = Config(
    inputGain: Gain,
    noiseGateThreshold: real,
    speechFocusEnabled: bool,
    bandPassB: seq<real>,
    bandPassA: seq<real>,
    compressorEnabled: bool,
    compressor: Compressor.Settings,
    makeupGain: Gain,
    outputGain: Gain,
    limiterEnabled: bool,
    limiterThreshold: real)

  /** What the conversions guarantee: 10**x and exp(-1/t) are positive, and
      exp(-1/t) < 1 for t > 0; butter normalises a[0] to 1. */
  predicate Valid(c: Config) {
    && c.inputGain.factor > 0.0
    && c.makeupGain.factor > 0.0
    && c.outputGain.factor > 0.0
    && BandPass.Coefficients(c.bandPassB, c.bandPassA)
    && c.compressor.threshold > 0.0
    && 0.0 <= c.compressor.attackCoeff < 1.0
    && 0.0 <= c.compressor.releaseCoeff < 1.0
    && c.limiterThreshold > 0.0
  }

  /** A gain stage is skipped when its setting is 0 dB. */
  function ApplyGain(s: seq<real>, g: Gain): (r: seq<real>)
    ensures |r| == |s|
    ensures g.db == 0.0 ==> r == s
  {
    if g.db != 0.0 then Scale(s, g.factor) else s
  }

  /** The gate stage runs only for a positive threshold. */
  function GateStage(s: seq<real>, threshold: real): (r: seq<real>)
    ensures |r| == |s|
    ensures threshold <= 0.0 ==> r == s
  {
    if threshold > 0.0 then Gate(s, threshold) else s
  }

  /** `_dynamic_range_compressor_stateful`: a ratio of at most 1 returns the
      block untouched and leaves the envelope alone. */
  function CompressorStage(s: seq<real>, g: real, p: Compressor.Settings): (r: Compressor.Run)
    requires p.threshold > 0.0
    ensures |r.output| == |s|
  {
    if p.ratio <= 1.0 then Compressor.Run(s, g) else Compressor.Compress(s, g, p)
  }

  /** Stages 1 and 2: input gain, then the noise gate. */
  function InputStages(c: Config, s: seq<real>): (r: seq<real>)
    ensures |r| == |s|
  {
    GateStage(ApplyGain(s, c.inputGain), c.noiseGateThreshold)
  }

  /** Stage 3: the band-pass, only with speech focus on. */
  function FilterStage(c: Config, s: seq<real>): (r: seq<real>)
    requires Valid(c)
    ensures |r| == |s|
  {
    if c.speechFocusEnabled then BandPass.Filter(c.bandPassB, c.bandPassA, s) else s
  }

  /** Stage 4: the compressor, only when enabled. */
  function DynamicsStage(c: Config, g: real, s: seq<real>): (r: Compressor.Run)
    requires Valid(c)
    ensures |r.output| == |s|
  {
    if c.compressorEnabled then CompressorStage(s, g, c.compressor) else Compressor.Run(s, g)
  }

  /** Stages 5 to 7 and the safety clamp: makeup gain, output gain, the
      limiter when enabled, and the clamp to [-1, 1]. */
  function OutputStages(c: Config, s: seq<real>): (r: seq<real>)
    requires Valid(c)
    ensures |r| == |s|
  {
    var s6 := ApplyGain(ApplyGain(s, c.makeupGain), c.outputGain);
    Clamp(if c.limiterEnabled then Limit(s6, c.limiterThreshold) else s6)
  }

  /** A processed block together with the compressor envelope it leaves for
      the next block. */
  type Processed = Compressor.Run

  /** One block through the whole chain from envelope value `g`: the output
      block and the envelope value after it. */
  function Process(c: Config, g: real, s: seq<real>): (r: Processed)
    requires Valid(c)
    ensures |r.output| == |s|
    ensures forall i :: 0 <= i < |r.output| ==> -1.0 <= r.output[i] <= 1.0
  {
    var r4 := DynamicsStage(c, g, FilterStage(c, InputStages(c, s)));
    Compressor.Run(OutputStages(c, r4.output), r4.gain)
  }

  /** The envelope invariant survives whole blocks: from (0, 1], the gain
      reduction after a block is again in (0, 1]. */
  lemma ProcessKeepsEnvelope(c: Config, g: real, s: seq<real>)
    requires Valid(c) && 0.0 < g <= 1.0
    ensures 0.0 < Process(c, g, s).gain <= 1.0
  {
    var s1 := ApplyGain(s, c.inputGain);
    var s2 := GateStage(s1, c.noiseGateThreshold);
    var s3 := if c.speechFocusEnabled then BandPass.Filter(c.bandPassB, c.bandPassA, s2) else s2;
    if c.compressorEnabled && c.compressor.ratio > 1.0 {
      Compressor.CompressGainInUnit(s3, g, c.compressor);
    }
  }

  /** With the compressor off, or at a ratio of at most 1, the envelope is not
      touched. */
  lemma ProcessBypassesEnvelope(c: Config, g: real, s: seq<real>)
    requires Valid(c)
    requires !c.compressorEnabled || c.compressor.ratio <= 1.0
    ensures Process(c, g, s).gain == g
  {
  }

  /** With the limiter on, no output sample is louder than its ceiling. */
  lemma ProcessUnderCeiling(c: Config, g: real, s: seq<real>)
    requires Valid(c) && c.limiterEnabled
    ensures forall i :: 0 <= i < |s| ==> Abs(Process(c, g, s).output[i]) <= c.limiterThreshold
  {
  }

  /** Silence in, silence out, whatever the configuration. */
  lemma ProcessSilence(c: Config, g: real, s: seq<real>)
    requires Valid(c)
    requires forall i :: 0 <= i < |s| ==> s[i] == 0.0
    ensures forall i :: 0 <= i < |s| ==> Process(c, g, s).output[i] == 0.0
  {
    var s1 := ApplyGain(s, c.inputGain);
    PointwiseSilence(s, c.inputGain.factor, c.noiseGateThreshold, c.limiterThreshold);
    var s2 := GateStage(s1, c.noiseGateThreshold);
    PointwiseSilence(s1, c.inputGain.factor, c.noiseGateThreshold, c.limiterThreshold);
    var s3 := if c.speechFocusEnabled then BandPass.Filter(c.bandPassB, c.bandPassA, s2) else s2;
    if c.speechFocusEnabled {
      BandPass.FilterSilence(c.bandPassB, c.bandPassA, s2);
    }
    var r4 := if c.compressorEnabled then CompressorStage(s3, g, c.compressor) else Compressor.Run(s3, g);
    if c.compressorEnabled && c.compressor.ratio > 1.0 {
      Compressor.CompressSilence(s3, g, c.compressor);
    }
    var s5 := ApplyGain(r4.output, c.makeupGain);
    PointwiseSilence(r4.output, c.makeupGain.factor, c.noiseGateThreshold, c.limiterThreshold);
    var s6 := ApplyGain(s5, c.outputGain);
    PointwiseSilence(s5, c.outputGain.factor, c.noiseGateThreshold, c.limiterThreshold);
    var s7 := if c.limiterEnabled then Limit(s6, c.limiterThreshold) else s6;
    PointwiseSilence(s6, c.outputGain.factor, c.noiseGateThreshold, c.limiterThreshold);
    PointwiseSilence(s7, c.outputGain.factor, c.noiseGateThreshold, c.limiterThreshold);
  }

  /** With every optional stage off and every gain at 0 dB, a block whose
      samples are in [-1, 1] and not below the gate threshold comes out
      unchanged and the envelope is untouched. */
  lemma ProcessTransparent(c: Config, g: real, s: seq<real>)
    requires Valid(c)
    requires c.inputGain.db == 0.0 && c.makeupGain.db == 0.0 && c.outputGain.db == 0.0
    requires !c.speechFocusEnabled && !c.compressorEnabled && !c.limiterEnabled
    requires forall i :: 0 <= i < |s| ==> -1.0 <= s[i] <= 1.0 && c.noiseGateThreshold <= Abs(s[i])
    ensures Process(c, g, s) == Compressor.Run(s, g)
  {
    assert GateStage(s, c.noiseGateThreshold) == s;
  }

  /** Block-size independence: with speech focus off every stage is either
      per-sample or carries its state forward, so processing `a` and then `b`
      from the envelope `a` left behind is processing `a + b` in one go. */
  lemma ProcessConcat(c: Config, g: real, a: seq<real>, b: seq<real>)
    requires Valid(c) && !c.speechFocusEnabled
    ensures Process(c, g, a + b) ==
              Compressor.Run(Process(c, g, a).output + Process(c, Process(c, g, a).gain, b).output,
                             Process(c, Process(c, g, a).gain, b).gain)
  {
    var k1, k5, k6 := c.inputGain.factor, c.makeupGain.factor, c.outputGain.factor;
    var gt, lt := c.noiseGateThreshold, c.limiterThreshold;
    PointwiseConcat(a, b, k1, gt, lt);
    var a1, b1 := ApplyGain(a, c.inputGain), ApplyGain(b, c.inputGain);
    assert ApplyGain(a + b, c.inputGain) == a1 + b1;
    PointwiseConcat(a1, b1, k1, gt, lt);
    var a2, b2 := GateStage(a1, gt), GateStage(b1, gt);
    assert GateStage(a1 + b1, gt) == a2 + b2;
    var ra := if c.compressorEnabled then CompressorStage(a2, g, c.compressor) else Compressor.Run(a2, g);
    var rb := if c.compressorEnabled then CompressorStage(b2, ra.gain, c.compressor) else Compressor.Run(b2, ra.gain);
    var rab := if c.compressorEnabled then CompressorStage(a2 + b2, g, c.compressor) else Compressor.Run(a2 + b2, g);
    if c.compressorEnabled && c.compressor.ratio > 1.0 {
      Compressor.CompressConcat(a2, b2, g, c.compressor);
    }
    assert rab == Compressor.Run(ra.output + rb.output, rb.gain);
    PointwiseConcat(ra.output, rb.output, k5, gt, lt);
    var a5, b5 := ApplyGain(ra.output, c.makeupGain), ApplyGain(rb.output, c.makeupGain);
    assert ApplyGain(rab.output, c.makeupGain) == a5 + b5;
    PointwiseConcat(a5, b5, k6, gt, lt);
    var a6, b6 := ApplyGain(a5, c.outputGain), ApplyGain(b5, c.outputGain);
    assert ApplyGain(a5 + b5, c.outputGain) == a6 + b6;
    PointwiseConcat(a6, b6, k6, gt, lt);
    var a7 := if c.limiterEnabled then Limit(a6, lt) else a6;
    var b7 := if c.limiterEnabled then Limit(b6, lt) else b6;
    assert (if c.limiterEnabled then Limit(a6 + b6, lt) else a6 + b6) == a7 + b7;
    PointwiseConcat(a7, b7, k6, gt, lt);
  }
}
