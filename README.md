# Audio enhancement pipeline: a Dafny model

This project models the real-time core of a "super hearing" audio pipeline:
- `AudioPipeline.process_frame`: the fixed-order chain applied to every block of mono samples. The stages are input gain, noise gate, optional band-pass, optional stateful compressor, makeup gain, output gain, optional brick-wall limiter, and a final clamp to [-1, 1].
- The recording flag of `AudioPipeline`, with the queue of processed blocks that the audio callback fills and the writer thread drains.
- The small `AudioRecorder` state machine, which collects frame bytes and describes the WAV file it saves.

Files:
- `stages.dfy` (`Stages`) holds the stateless per-sample rules: gain, gate, limiter and clamp, each lifted to a block.
- `compressor.dfy` (`Compressor`) holds the compressor. It is a left fold over the samples with one gain-reduction scalar, and it carries that scalar across blocks.
- `bandpass.dfy` (`BandPass`) holds the band-pass. It is modelled as `lfilter(b, a, x)` in direct form, over Butterworth coefficients that the model takes as data.
- `chain.dfy` (`Chain`) holds the configuration and `Process`, the specification of one block through the whole chain.
- `pipeline.dfy` (`Pipeline`) holds the imperative `AudioPipeline` class:
  - the stages work in place on arrays;
  - the compressor loop updates the `gainReduction` field sample by sample;
  - `process_frame` is proved equal to `Chain.Process`;
  - the recording flag, the queue and the writer thread's drain are modelled as state.
- `recorder.dfy` (`Recorder`) holds the `AudioRecorder` class, its file naming, and `b''.join` of the frames.

Samples are real numbers. The transcendental conversions are parameters: the linear factor `10**(dB/20)`, `exp(-1/t)` for the attack and release coefficients, and the `butter` design. `Chain.Valid` states the ranges those conversions give for positive attack and release times and a positive sample rate: positive gain factors and thresholds, coefficients in [0, 1), and a non-zero leading denominator coefficient. The code does not check those times; see `Chain.Valid` under "## Left out".

In five places the intended behaviour of the system and what the code does differ. The model follows the code:
- **Band-pass state.** A band-pass that keeps its delay line across blocks is intended. The code calls `lfilter` without an initial state, so every block starts from rest. `BandPass.FilterForgetsAcrossBlocks` exhibits the difference. Because of it, `Chain.ProcessConcat` (block-size independence) holds only with speech focus off.
- **Gain stages at 0 dB.** Applying every gain stage unconditionally, as a no-op at 0 dB, is intended. The code skips them (`if ... != 0`). The two agree on the result, and `Chain.ApplyGain` follows the code.
- **Recorder start.** `AudioRecorder.start_recording` has no guard, so a second start while recording discards the frames so far and names a new file. The pipeline's own `start_recording` is a no-op while recording.
- **Queue bound.** A bounded recording queue is intended. The code uses an unbounded `queue.Queue`, which the model represents as a sequence.
- **Compression curve.** A compressor that brings a level L above the threshold T to T + (L - T)/R in decibels is intended. The code applies that formula to linear amplitudes (audio_pipeline.py:116, 121), and the model follows it: `Compressor.SettledLevel` proves that the settled output level is T + (L - T)/R on linear amplitudes. For example, a threshold of -20 dB (0.1), a ratio of 2 and a held level of 1.0 settle at 0.1 + 0.9/2 = 0.55, about -5.2 dB, where the decibel curve gives -10 dB.

## Model

| member | source | states |
|---|---|---|
| Stages.Scale | audio_pipeline.py:70-98 | the definition of the gain multiply (`audio_data *= k`, lines 71, 93 and 98); it keeps the block length, and `Stages.ScaleConcat`, `Stages.PointwiseConcat` and `Stages.PointwiseSilence` carry its other promises |
| Stages.Gate | audio_pipeline.py:74-75 | a sample quieter than the threshold becomes exactly 0, every other sample is unchanged, length is kept, and every output is 0 or at least the threshold |
| Stages.Limit | audio_pipeline.py:130-135 | every output has magnitude at most the ceiling; a louder sample becomes the ceiling with its own sign; every other sample is untouched |
| Stages.Clamp | audio_pipeline.py:106 | every output lies in [-1, 1]; in-range samples are unchanged; samples above 1 become 1 and samples below -1 become -1 |
| Stages.GateIdempotent | audio_pipeline.py:74-75 | gating an already gated block changes nothing |
| Stages.LimitIdempotent | audio_pipeline.py:130-135 | limiting an already limited block changes nothing |
| Stages.ScaleConcat | audio_pipeline.py:70-71 | scaling `a + b` equals scaling `a` and `b` separately and concatenating |
| Stages.PointwiseConcat | audio_pipeline.py:70-135 | scaling, gating, limiting and clamping `a + b` equals doing it to `a` and to `b` separately |
| Stages.PointwiseSilence | audio_pipeline.py:70-106 | an all-zero block stays all zero through scaling, gating, limiting and clamping |
| Compressor.TargetGain | audio_pipeline.py:121 | the definition of the static curve's target gain; its promises are carried by `Compressor.TargetGainRange` and `Compressor.SettledLevel` |
| Compressor.TargetGainRange | audio_pipeline.py:120-121 | for a sample above the threshold, the target gain is in (0, 1) and the compressed level lies strictly between the threshold and the sample's level |
| Compressor.Fold | audio_pipeline.py:119-126 | the envelope fold: each sample first moves the envelope and is then scaled by it; the output has as many samples as the input |
| Compressor.Compress | audio_pipeline.py:117-128 | the compressed block has as many samples as the input |
| Compressor.FoldLast | audio_pipeline.py:119-126 | the unfolding lemma for one loop pass: the last sample's step updates the envelope left by the rest of the block, and the last output is that sample times the new envelope |
| Compressor.FoldPrefixStep | audio_pipeline.py:119-126 | one loop iteration extends the fold over the first i samples to the first i + 1 samples |
| Compressor.FoldConcat | audio_pipeline.py:110-128 | for any per-sample update, folding `a` and then `b` from the envelope `a` left behind equals folding `a + b`, both the samples and the final envelope |
| Compressor.FoldAt | audio_pipeline.py:126 | output sample i is input sample i times the envelope reached right after sample i |
| Compressor.FoldGainInUnit | audio_pipeline.py:119-126 | for an update that keeps the envelope in (0, 1], the envelope is still in (0, 1] after any block |
| Compressor.FoldSilence | audio_pipeline.py:119-126 | an all-zero block folds to an all-zero block, whatever the envelope does |
| Compressor.EnvelopeKeepsUnit | audio_pipeline.py:120-124 | the compressor's attack/release update keeps an envelope in (0, 1] there |
| Compressor.ScaledByUnitGain | audio_pipeline.py:126 | a sample scaled by a gain in (0, 1] is no louder and keeps its sign |
| Compressor.FoldGainAt | audio_pipeline.py:119-126 | output sample i is input sample i times an envelope value in (0, 1] |
| Compressor.FoldSampleQuieter | audio_pipeline.py:119-126 | for an update that keeps the envelope in (0, 1], output sample i is no louder than input sample i and has its sign |
| Compressor.FoldNeverLouder | audio_pipeline.py:119-126 | for an update that keeps the envelope in (0, 1], no output sample of the block is louder than its input sample, and none changes sign |
| Compressor.Step | audio_pipeline.py:120-124 | the definition of the per-sample attack/release update; its promises are carried by `Compressor.StepInUnit`, `Compressor.StepDirection` and `Compressor.StepContracts` |
| Compressor.StepInUnit | audio_pipeline.py:120-124 | one attack or release update keeps the gain reduction in (0, 1] |
| Compressor.StepDirection | audio_pipeline.py:122-124 | the release update never decreases the gain reduction, stays at most 1 and strictly raises a gain below 1; the attack update moves strictly towards the target gain whenever it is not there, and never past it |
| Compressor.StepContracts | audio_pipeline.py:120-124 | each update shrinks the distance to its goal by its coefficient: attack towards the target gain by attackCoeff, release towards 1 by releaseCoeff |
| Compressor.SettledLevel | audio_pipeline.py:120-126 | at the target gain the attack update is at rest, and the sample comes out at threshold + (level - threshold) / ratio in linear amplitude |
| Compressor.PowerInUnit | audio_pipeline.py:122 | a coefficient in [0, 1) raised to the n-th power lies in [0, 1], and is below 1 after at least one sample |
| Compressor.FoldApproach | audio_pipeline.py:119-126 | for an update that shrinks the distance to a target by c at each sample, after n samples c^n of the starting distance remains |
| Compressor.HeldLevelContracts | audio_pipeline.py:120-122 | on a block held at one level above the threshold, every update is an attack that shrinks the distance to that level's target gain by attackCoeff |
| Compressor.HeldLevelApproach | audio_pipeline.py:119-126 | on a block held at one level above the threshold, the gain reduction after n samples is attackCoeff^n of its starting distance away from the target gain |
| Compressor.CompressGainInUnit | audio_pipeline.py:119-126 | starting in (0, 1], the gain reduction is still in (0, 1] after any block |
| Compressor.CompressNeverLouder | audio_pipeline.py:119-126 | no output sample is louder than its input sample, and none changes sign |
| Compressor.CompressConcat | audio_pipeline.py:110-128 | compressing `a` and then `b` from the envelope `a` left behind gives the same outputs and final envelope as compressing `a + b` |
| Compressor.CompressSilence | audio_pipeline.py:119-126 | an all-zero block compresses to an all-zero block |
| BandPass.Filter | audio_pipeline.py:137-144 | the filtered block has as many samples as the input |
| BandPass.FilterCausal | audio_pipeline.py:143 | the first k filtered samples depend only on the first k input samples |
| BandPass.FilterSilence | audio_pipeline.py:143 | silence filters to silence, because the filter starts from rest |
| BandPass.FilterForgetsAcrossBlocks | audio_pipeline.py:143 | for a one-sample delay, filtering two blocks separately loses the impulse that filtering their concatenation delivers |
| Chain.ApplyGain | audio_pipeline.py:70-98 | the definition of a gain stage (lines 70-71, 92-93 and 97-98): it keeps the block length, and at 0 dB the stage is skipped and the block is returned as it is |
| Chain.GateStage | audio_pipeline.py:74-75 | the definition of the gate stage: it keeps the block length, and with a threshold of at most 0 the gate is skipped and the block is returned as it is |
| Chain.CompressorStage | audio_pipeline.py:112 | the compressor stage preserves block length |
| Chain.InputStages | audio_pipeline.py:68-75 | input gain followed by the gate keeps the block length |
| Chain.FilterStage | audio_pipeline.py:77-84 | the optional band-pass keeps the block length |
| Chain.DynamicsStage | audio_pipeline.py:86-88 | the optional compressor keeps the block length |
| Chain.OutputStages | audio_pipeline.py:90-106 | makeup gain, output gain, the optional limiter and the clamp keep the block length |
| Chain.Process | audio_pipeline.py:62-108 | the processed block has the input's length, and every output sample is in [-1, 1] whatever stages are enabled |
| Chain.ProcessKeepsEnvelope | audio_pipeline.py:86-88 | the gain reduction stays in (0, 1] from one block to the next |
| Chain.ProcessBypassesEnvelope | audio_pipeline.py:86-112 | with the compressor disabled or the ratio at most 1, the gain reduction is not modified |
| Chain.ProcessUnderCeiling | audio_pipeline.py:102-106 | with the limiter on, every output sample is within the limiter ceiling |
| Chain.ProcessSilence | audio_pipeline.py:62-108 | an all-zero block produces an all-zero block for every configuration |
| Chain.ProcessTransparent | audio_pipeline.py:62-108 | with every optional stage off and every gain at 0 dB, a block in [-1, 1] that the gate passes is returned unchanged and the envelope is untouched |
| Chain.ProcessConcat | audio_pipeline.py:62-128 | with speech focus off, processing `a` and then `b` equals processing `a + b`, both the samples and the final gain reduction |
| Pipeline.ScaleInPlace | audio_pipeline.py:71 | the array afterwards is the old block scaled by the factor |
| Pipeline.GateInPlace | audio_pipeline.py:75 | the masked write leaves the gated block in the array |
| Pipeline.ClampInPlace | audio_pipeline.py:106 | `np.clip(..., out=...)` leaves the clamped block in the array |
| Pipeline.AudioPipeline.constructor | audio_pipeline.py:13-48 | the gain reduction starts at 1.0, recording is off, the default file name is set and nothing is queued |
| Pipeline.AudioPipeline.Reconfigure | audio_pipeline.py:23-42 | a new configuration is installed and the envelope is kept |
| Pipeline.AudioPipeline.BandPassFilter | audio_pipeline.py:137-144 | a fresh array holding the filter's output for the block |
| Pipeline.AudioPipeline.CompressorStateful | audio_pipeline.py:110-128 | with a ratio of at most 1, the same array is returned and the envelope is unchanged; otherwise, a fresh array holding the compressed block; the field ends at the fold's final envelope, and the gain-reduction invariant is kept |
| Pipeline.AudioPipeline.CompressLoop | audio_pipeline.py:119-126 | after the loop, the output array holds the fold of the input block and the field holds the fold's final envelope |
| Pipeline.AudioPipeline.EnvelopeStep | audio_pipeline.py:120-124 | the loop body's update equals the attack or release step of the envelope |
| Pipeline.AudioPipeline.Limiter | audio_pipeline.py:130-135 | the same array is returned, overwritten in place with the limited block |
| Pipeline.AudioPipeline.InputStagesInPlace | audio_pipeline.py:68-75 | the working copy afterwards holds the input-gain and gate stages applied to its old contents |
| Pipeline.AudioPipeline.OutputStagesInPlace | audio_pipeline.py:90-106 | the working copy afterwards holds makeup gain, output gain, the optional limiter and the clamp applied to its old contents |
| Pipeline.AudioPipeline.ProcessFrame | audio_pipeline.py:62-108 | returns a fresh block equal to `Chain.Process` of the input and the old envelope, and leaves the field at the envelope that `Chain.Process` yields |
| Pipeline.AudioPipeline.AudioCallback | audio_pipeline.py:50-60 | the output buffer receives the processed block; it is enqueued, at the end, exactly when recording is on |
| Pipeline.AudioPipeline.StartRecording | audio_pipeline.py:175-183 | a no-op while recording; otherwise sets the file name, raises the flag and starts a fresh file with nothing queued |
| Pipeline.AudioPipeline.WriterStep | audio_pipeline.py:195-198 | the oldest queued block, if there is one, moves to the end of the file, and nothing enqueued is lost |
| Pipeline.AudioPipeline.DrainRecordingQueue | audio_pipeline.py:195-201 | with the flag down, the writer empties the queue, appending every pending block to the file in order |
| Pipeline.AudioPipeline.StopRecording | audio_pipeline.py:185-190 | a no-op when not recording; otherwise lowers the flag and waits for the writer, after which the file holds every block enqueued since the start, in order |
| Recorder.JoinPath | modules/recorder.py:16 | an absolute name replaces the directory; otherwise the path starts with the directory and ends with the name, with a single '/' inserted exactly when the directory is non-empty and does not end in one |
| Recorder.RecordingName | modules/recorder.py:15-16 | the file name is `recording_`, then the timestamp, then `.wav` |
| Recorder.RecordingPath | modules/recorder.py:15-16 | the definition of the recording's path: it starts with the output directory and ends with the timestamped name; `Recorder.RecordingPathInjective` carries its other promise |
| Recorder.RecordingPathInjective | modules/recorder.py:15-16 | in one directory, different timestamps name different files |
| Recorder.Flatten | modules/recorder.py:31 | the definition of `b''.join(frames)`; its promises are carried by `Recorder.FlattenLength` and `Recorder.FlattenSnoc` |
| Recorder.FlattenLength | modules/recorder.py:31 | the joined payload is as long as all the frames together |
| Recorder.FlattenSnoc | modules/recorder.py:31-37 | appending a frame appends exactly its bytes to the payload |
| Recorder.AudioRecorder.constructor | modules/recorder.py:6-11 | no frames, not recording, no file name |
| Recorder.AudioRecorder.StartRecording | modules/recorder.py:13-19 | recording on, frames emptied, and the file name is the timestamped name inside the output directory |
| Recorder.AudioRecorder.Write | modules/recorder.py:35-37 | while recording, appends exactly the frame at the end, and the payload grows by its bytes; otherwise frames are unchanged |
| Recorder.AudioRecorder.StopRecording | modules/recorder.py:21-33 | a no-op that saves nothing when not recording; otherwise, recording goes off with the frames unchanged; a file is saved only if there are frames, with the recorder's channels and rate, 16-bit samples, and the frames' bytes joined in write order |

## Left out

- Audio I/O: the sounddevice stream in `start`/`stop` (audio_pipeline.py:146-173) and the callback's `status` printing.
- Threads: the lock around the callback, the writer thread's scheduling, and the `queue.get(timeout=1)` polling. The writer is modelled as a step operation (`WriterStep`) plus the drain that `stop_recording`'s join waits for. Interleavings of the callback with the writer are not modelled. One consequence: `stop_recording` (audio_pipeline.py:185-190) does not take `self.lock`, so the callback can read `is_recording` as true at line 59, the flag can then go down, and the writer can find the queue empty and leave its loop (line 195) before the `put` at line 60 lands. That block then stays in the queue, and the next recording's writer writes it first, into the new file. `Pipeline.AudioPipeline.Valid` requires an empty queue whenever the flag is down (`!isRecording ==> recordingQueue == []`), so the model rules that state out and does not capture this race.
- Files: the sound-file and WAV writing, and `os.makedirs`. The model returns or records the payload that would be written. The recorder's three console messages (modules/recorder.py:19, 26, 33) are left out. Paths are joined as POSIX `os.path.join` does (`Recorder.JoinPath`). A failing `os.makedirs` is not modelled: `AudioPipeline.start_recording` with a bare file name such as `"x.wav"` raises at audio_pipeline.py:180 after line 178 has already replaced `recording_filename`, with the flag left down, while `Pipeline.AudioPipeline.StartRecording` always raises the flag; likewise `AudioRecorder.start_recording` raises at modules/recorder.py:14 for an empty output directory, while `Recorder.AudioRecorder.StartRecording` always starts.
- Clock: `datetime.now()` in the recorder. The formatted timestamp is a parameter.
- Chain.Valid: the model assumes positive attack and release times and a positive sample rate, which the code never checks. Two source behaviours are therefore left out: an attack or release time of 0 ms raises ZeroDivisionError at audio_pipeline.py:114-115, and a negative time gives a coefficient above 1 (about 1.0045 for -5 ms), which can push the gain reduction above 1 so that the compressor makes samples louder. `Compressor.CompressGainInUnit`, `Compressor.CompressNeverLouder`, `Chain.ProcessKeepsEnvelope` and `Pipeline.AudioPipeline.Reconfigure` rely on that assumption through `Chain.Valid` or `Compressor.Engaged`.
- Conversions and `butter`: `10**(dB/20)`, `np.exp(-1/t)`, and the `butter` design are transcendental. They appear as precomputed parameters (`Chain.Gain.factor`, `Compressor.Settings`, `Chain.Config.bandPassB`/`bandPassA`) with the ranges they guarantee. `butter` raises `ValueError` for cut-offs outside (0, Nyquist), which with speech focus on would make every block fail; the model takes the coefficients as given and does not model that failure.
- float32: rounding, NaN and infinities are not modelled. Samples are exact reals.
- Block shape: sounddevice delivers (frames, 1) arrays. The model uses one-dimensional mono blocks.
- Byte layout: the recorder's frames are opaque byte strings. Their 16-bit sample layout is not modelled.
- Recorder inputs: `AudioRecorder` takes its sample rate and channel count as constructor parameters, without the Python defaults 44100 and 1. The default arguments of `AudioPipeline.start_recording(filename="recordings/captured.wav")` (audio_pipeline.py:175) and `AudioRecorder.start_recording(output_dir="recordings")` (modules/recorder.py:13) are not modelled either: `Pipeline.AudioPipeline.StartRecording` and `Recorder.AudioRecorder.StartRecording` always take the file name or directory as a parameter.
- Pipeline defaults: `AudioPipeline`'s default tunables (audio_pipeline.py:23-42) are supplied as one `Chain.Config`, with the converted quantities as parameters.
- Speech focus: `Chain.ProcessConcat` requires it to be off, because the code restarts the band-pass from rest on every block.
- audio_processing.py, main.py, device_manager.py and nlp_listener.py are not part of this model.
