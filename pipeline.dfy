/** `AudioPipeline`: the object the audio callback runs on. It holds the
    tunables, the compressor's persistent gain reduction, and the recording
    state: the flag, the queue of processed blocks the callback fills, and the
    blocks the writer thread has already appended to the recording file. */
module Pipeline {
  import opened Stages
  import Compressor
  import BandPass
  import Chain

  const DefaultRecordingFilename: string := "recordings/captured.wav"

  /** `audio_data *= k`, in place. */
  method ScaleInPlace(a: array<real>, k: real)
    modifies a
    ensures a[..] == Scale(old(a[..]), k)
  {
    forall i | 0 <= i < a.Length {
      a[i] := a[i] * k;
    }
    assert forall i :: 0 <= i < a.Length ==> a[..][i] == Scale(old(a[..]), k)[i];
  }

  /** `audio_data[np.abs(audio_data) < threshold] = 0.0`: a masked write. */
  method GateInPlace(a: array<real>, threshold: real)
    modifies a
    ensures a[..] == Gate(old(a[..]), threshold)
  {
    forall i | 0 <= i < a.Length && Abs(a[i]) < threshold {
      a[i] := 0.0;
    }
  }

  /** `np.clip(audio_data, -1.0, 1.0, out=audio_data)`. */
  method ClampInPlace(a: array<real>)
    modifies a
    ensures a[..] == Clamp(old(a[..]))
  {
    forall i | 0 <= i < a.Length {
      a[i] := ClampSample(a[i]);
    }
  }

  class AudioPipeline {
    var config: Chain.Config
    /** `_compressor_gain_reduction`: the envelope carried across blocks. */
    var gainReduction: real
    var isRecording: bool
    var recordingFilename: string
    /** Processed blocks waiting for the writer thread, oldest first. */
    var recordingQueue: seq<seq<real>>
    /** Blocks the writer thread has appended to the recording file. */
    var recordedFrames: seq<seq<real>>
    /** Every block enqueued since recording last started. */
    ghost var enqueued: seq<seq<real>>

    /** The invariant that holds at every step, including while the writer
        thread is still draining the queue after the flag went down: nothing
        enqueued is lost or reordered between the queue and the file. */
    ghost predicate Consistent()
      reads this
    {
      && Chain.Valid(config)
      && 0.0 < gainReduction <= 1.0
      && recordedFrames + recordingQueue == enqueued
    }

    /** Between operations, in addition, a stopped pipeline has nothing pending. */
    ghost predicate Valid()
      reads this
    {
      Consistent() && (!isRecording ==> recordingQueue == [])
    }

    constructor (config: Chain.Config)
      requires Chain.Valid(config)
      ensures Valid()
      ensures this.config == config && gainReduction == 1.0
      ensures !isRecording && recordingFilename == DefaultRecordingFilename
      ensures recordingQueue == [] && recordedFrames == []
    {
      this.config := config;
      gainReduction := 1.0;
      isRecording := false;
      recordingFilename := DefaultRecordingFilename;
      recordingQueue := [];
      recordedFrames := [];
      enqueued := [];
    }

    /** A control surface writing the tunables. The envelope is not reset. */
    method Reconfigure(c: Chain.Config)
      requires Valid() && Chain.Valid(c)
      modifies this`config
      ensures Valid() && config == c
    {
      config := c;
    }

    /** `_band_pass_filter`: a fresh block, the filter run over `data`. */
    method BandPassFilter(data: array<real>) returns (y: array<real>)
      requires BandPass.Coefficients(config.bandPassB, config.bandPassA)
      ensures fresh(y)
      ensures y[..] == BandPass.Filter(config.bandPassB, config.bandPassA, data[..])
    {
      var filtered := BandPass.Filter(config.bandPassB, config.bandPassA, data[..]);
      y := new real[|filtered|](i requires 0 <= i < |filtered| => filtered[i]);
      assert y[..] == filtered;
    }

    /** `_dynamic_range_compressor_stateful`: a ratio of at most 1 hands back
        the same block and leaves the envelope alone; otherwise the envelope
        is updated once per sample, in order, and each sample is scaled by it. */
    method CompressorStateful(data: array<real>) returns (out: array<real>)
      requires Valid()
      modifies this`gainReduction
      ensures Valid()
      ensures config.compressor.ratio <= 1.0 ==> out == data
      ensures config.compressor.ratio > 1.0 ==> fresh(out)
      ensures out[..] == Chain.CompressorStage(old(data[..]), old(gainReduction), config.compressor).output
      ensures gainReduction == Chain.CompressorStage(old(data[..]), old(gainReduction), config.compressor).gain
    {
      var p := config.compressor;
      if p.ratio <= 1.0 {
        return data;
      }
      out := new real[data.Length];  // np.zeros_like: real arrays start at 0.0
      ghost var g0 := gainReduction;
      CompressLoop(data, out, p, Compressor.Envelope(p));
      Compressor.CompressGainInUnit(data[..], g0, p);
    }

    /** The `for i, sample in enumerate(data)` loop of
        `_dynamic_range_compressor_stateful`: the envelope field is updated
        once per sample, in order, and `out[i]` receives the sample scaled by
        the updated envelope. The ghost `step` is the envelope update seen as
        a function value; the proof of the loop needs nothing of it beyond
        its agreement with `Compressor.Step`. */
    method CompressLoop(data: array<real>, out: array<real>, p: Compressor.Settings,
                        ghost step: (real, real) -> real)
      requires Compressor.Defined(p)
      requires forall g, x {:trigger Compressor.Step(g, x, p)} :: step(g, x) == Compressor.Step(g, x, p)
      requires data != out && out.Length == data.Length
      modifies this`gainReduction, out
      ensures out[..] == Compressor.Fold(data[..], old(gainReduction), step).output
      ensures gainReduction == Compressor.Fold(data[..], old(gainReduction), step).gain
    {
      ghost var g0 := gainReduction;
      ghost var s := data[..];
      var i := 0;
      while i < data.Length
        invariant 0 <= i <= data.Length
        invariant out[..i] == Compressor.Fold(s[..i], g0, step).output
        invariant gainReduction == Compressor.Fold(s[..i], g0, step).gain
      {
        var sample := data[i];
        gainReduction := EnvelopeStep(gainReduction, sample, p);
        ghost var done := out[..i];
        out[i] := sample * gainReduction;
        Compressor.FoldPrefixStep(s, i, g0, step, gainReduction, out[i]);
        assert out[..i + 1] == done + [out[i]];
        i := i + 1;
      }
      assert s[..i] == s;
    }

    /** The body of the per-sample loop in `_dynamic_range_compressor_stateful`:
        the attack or release update of the envelope for one sample. */
    static method EnvelopeStep(g: real, sample: real, p: Compressor.Settings) returns (g': real)
      requires Compressor.Defined(p)
      ensures g' == Compressor.Step(g, sample, p)
    {
      if Abs(sample) > p.threshold {
        var targetGain := (p.threshold + (Abs(sample) - p.threshold) / p.ratio) / Abs(sample);
        g' := p.attackCoeff * g + (1.0 - p.attackCoeff) * targetGain;
      } else {
        g' := p.releaseCoeff * g + (1.0 - p.releaseCoeff) * 1.0;
      }
    }

    /** `_limiter`: samples louder than the ceiling are overwritten in place
        with the signed ceiling; the same block is handed back. */
    static method Limiter(data: array<real>, thresholdLinear: real) returns (out: array<real>)
      requires thresholdLinear > 0.0
      modifies data
      ensures out == data
      ensures data[..] == Limit(old(data[..]), thresholdLinear)
    {
      forall i | 0 <= i < data.Length && Abs(data[i]) > thresholdLinear {
        data[i] := Sign(data[i]) * thresholdLinear;
      }
      out := data;
    }

    /** Steps 1 and 2 of `process_frame`, in place on the working copy: the
        input gain unless it is 0 dB, then the gate for a positive threshold. */
    static method InputStagesInPlace(audio: array<real>, c: Chain.Config)
      modifies audio
      ensures audio[..] == Chain.InputStages(c, old(audio[..]))
    {
      if c.inputGain.db != 0.0 {
        ScaleInPlace(audio, c.inputGain.factor);
      }
      if c.noiseGateThreshold > 0.0 {
        GateInPlace(audio, c.noiseGateThreshold);
      }
    }

    /** Steps 5 to 7 of `process_frame` and the final clip, in place on the
        working copy: makeup gain, output gain, the limiter when enabled. */
    static method OutputStagesInPlace(audio: array<real>, c: Chain.Config)
      requires Chain.Valid(c)
      modifies audio
      ensures audio[..] == Chain.OutputStages(c, old(audio[..]))
    {
      if c.makeupGain.db != 0.0 {
        ScaleInPlace(audio, c.makeupGain.factor);
      }
      if c.outputGain.db != 0.0 {
        ScaleInPlace(audio, c.outputGain.factor);
      }
      if c.limiterEnabled {
        var limited := Limiter(audio, c.limiterThreshold);
        // the limiter hands back the array it was given
        assert limited == audio;
      }
      ClampInPlace(audio);
    }

    /** `process_frame`: a copy of the block goes through the stages in their
        fixed order; the result is the chain's specification applied to the
        input and the envelope as it was. */
    method ProcessFrame(data: array<real>) returns (out: array<real>)
      requires Valid()
      modifies this`gainReduction
      ensures Valid() && fresh(out)
      ensures out[..] == Chain.Process(config, old(gainReduction), old(data[..])).output
      ensures gainReduction == Chain.Process(config, old(gainReduction), old(data[..])).gain
    {
      var c := config;
      ghost var g := gainReduction;
      ghost var s := data[..];
      var audio := new real[data.Length];  // data.astype(np.float32) copies
      forall i | 0 <= i < data.Length {
        audio[i] := data[i];
      }
      assert audio[..] == s;

      InputStagesInPlace(audio, c);
      ghost var s2 := Chain.InputStages(c, s);

      if c.speechFocusEnabled {
        audio := BandPassFilter(audio);
      }
      ghost var s3 := Chain.FilterStage(c, s2);
      assert audio[..] == s3 && fresh(audio);

      if c.compressorEnabled {
        audio := CompressorStateful(audio);
      }
      ghost var r4 := Chain.DynamicsStage(c, g, s3);
      assert audio[..] == r4.output && gainReduction == r4.gain && fresh(audio);

      OutputStagesInPlace(audio, c);
      out := audio;
    }

    /** `_audio_callback`: the processed block is written to the output
        buffer and, only while recording, a copy is enqueued for the writer. */
    method AudioCallback(indata: array<real>, outdata: array<real>)
      requires Valid() && indata.Length == outdata.Length
      modifies this`gainReduction, this`recordingQueue, this`enqueued, outdata
      ensures Valid()
      ensures outdata[..] == Chain.Process(config, old(gainReduction), old(indata[..])).output
      ensures gainReduction == Chain.Process(config, old(gainReduction), old(indata[..])).gain
      ensures isRecording ==>
                recordingQueue == old(recordingQueue) + [outdata[..]] &&
                enqueued == old(enqueued) + [outdata[..]]
      ensures !isRecording ==> recordingQueue == old(recordingQueue) && enqueued == old(enqueued)
    {
      var processed := ProcessFrame(indata);
      forall i | 0 <= i < outdata.Length {
        outdata[i] := processed[i];
      }
      assert outdata[..] == processed[..];
      if isRecording {
        recordingQueue := recordingQueue + [processed[..]];
        enqueued := enqueued + [processed[..]];
      }
    }

    /** `start_recording`: a no-op while already recording; otherwise it
        records the target name, raises the flag and starts a writer that
        opens the file afresh. */
    method StartRecording(filename: string)
      requires Valid()
      modifies this`isRecording, this`recordingFilename, this`recordedFrames, this`enqueued
      ensures Valid() && isRecording
      ensures old(isRecording) ==> unchanged(this)
      ensures !old(isRecording) ==>
                recordingFilename == filename && recordedFrames == [] && recordingQueue == []
    {
      if isRecording {
        return;
      }
      recordingFilename := filename;
      isRecording := true;
      recordedFrames := [];
      enqueued := [];
    }

    /** One pass of the writer thread's loop: the oldest pending block, if
        any, is taken off the queue and appended to the file. */
    method WriterStep()
      requires Consistent()
      modifies this`recordingQueue, this`recordedFrames
      ensures Consistent()
      ensures old(recordingQueue) == [] ==> unchanged(this)
      ensures old(recordingQueue) != [] ==>
                recordedFrames == old(recordedFrames) + [old(recordingQueue)[0]] &&
                recordingQueue == old(recordingQueue)[1..]
    {
      if recordingQueue != [] {
        var block := recordingQueue[0];
        assert recordingQueue == [block] + recordingQueue[1..];
        recordedFrames := recordedFrames + [block];
        recordingQueue := recordingQueue[1..];
      }
    }

    /** The writer thread once the flag is down: it keeps writing until the
        queue is empty, then finishes. */
    method DrainRecordingQueue()
      requires Consistent() && !isRecording
      modifies this`recordingQueue, this`recordedFrames
      ensures Valid() && recordingQueue == []
      ensures recordedFrames == old(recordedFrames) + old(recordingQueue)
    {
      while recordingQueue != []
        invariant Consistent()
        invariant recordedFrames + recordingQueue == old(recordedFrames) + old(recordingQueue)
        decreases |recordingQueue|
      {
        WriterStep();
      }
      assert recordedFrames + [] == recordedFrames;
    }

    /** `stop_recording`: a no-op when not recording; otherwise the flag goes
        down and the call waits for the writer, so that every block enqueued
        since the start is in the file, in order. */
    method StopRecording()
      requires Valid()
      modifies this`isRecording, this`recordingQueue, this`recordedFrames
      ensures Valid() && !isRecording && recordingQueue == []
      ensures !old(isRecording) ==> unchanged(this)
      ensures old(isRecording) ==>
                recordedFrames == old(recordedFrames) + old(recordingQueue) &&
                recordedFrames == enqueued
    {
      if !isRecording {
        return;
      }
      isRecording := false;
      DrainRecordingQueue();
    }
  }
}
