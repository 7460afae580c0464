/** `AudioRecorder`: collects raw frame bytes while recording and, when
    stopped, describes the WAV file it writes. The file system, the clock and
    the `wave` module are outside the model: the directory is taken as given,
    the timestamp is a parameter, and the write is returned as a `WaveFile`
    value instead of being performed. */
module Recorder {

  newtype byte = x: int | 0 <= x < 256

  datatype Option<T> = None | Some(value: T)

  /** What `wave.open(name, 'wb')` followed by the four set/write calls puts
      on disk: the header fields and the payload. */
  datatype WaveFile = WaveFile(
    path: string,
    channels: int,
    sampleWidth: int,
    frameRate: int,
    data: seq<byte>)

  /** Sample width in bytes that the recorder always writes: 16-bit audio. */
  const SampleWidth: int := 2

  predicate IsAbsolute(p: string) {
    |p| > 0 && p[0] == '/'
  }

  /** `os.path.join(dir, name)` for POSIX paths: an absolute `name` replaces
      `dir`; otherwise a '/' is inserted unless `dir` is empty or already ends
      with one. */
  function JoinPath(dir: string, name: string): (r: string)
    ensures IsAbsolute(name) ==> r == name
    ensures !IsAbsolute(name) ==> |dir| <= |r| && r[..|dir|] == dir
    ensures |name| <= |r| && r[|r| - |name|..] == name
    ensures !IsAbsolute(name) && dir != [] && dir[|dir| - 1] != '/' ==>
              |r| == |dir| + 1 + |name| && r[|dir|] == '/'
    ensures !IsAbsolute(name) && (dir == [] || dir[|dir| - 1] == '/') ==>
              |r| == |dir| + |name|
  {
    if IsAbsolute(name) || dir == [] then name
    else if dir[|dir| - 1] == '/' then dir + name
    else dir + "/" + name
  }

  /** `f"recording_{timestamp}.wav"`. */
  function RecordingName(stamp: string): (r: string)
    ensures |r| == |stamp| + 14
    ensures r[..10] == "recording_" && r[|r| - 4..] == ".wav"
    ensures r[10..|r| - 4] == stamp
  {
    "recording_" + stamp + ".wav"
  }

  /** The file `start_recording` names for a given directory and timestamp:
      the timestamped name inside the directory. */
  function RecordingPath(dir: string, stamp: string): (r: string)
    ensures |dir| <= |r| && r[..|dir|] == dir
    ensures |RecordingName(stamp)| <= |r| && r[|r| - |RecordingName(stamp)|..] == RecordingName(stamp)
  {
    JoinPath(dir, RecordingName(stamp))
  }

  /** In a fixed directory, different timestamps give different files: a
      recording started in another second never overwrites this one. */
  lemma RecordingPathInjective(dir: string, t1: string, t2: string)
    requires RecordingPath(dir, t1) == RecordingPath(dir, t2)
    ensures t1 == t2
  {
    var n1, n2 := RecordingName(t1), RecordingName(t2);
    assert !IsAbsolute(n1) && !IsAbsolute(n2);
    var p := RecordingPath(dir, t1);
    // the part of the path before the name depends on the directory alone
    assert |n1| == |n2|;
    assert n1 == p[|p| - |n1|..] == n2;
    assert t1 == n1[10..|n1| - 4] == t2;
  }

  /** `b''.join(frames)`. */
  function Flatten(frames: seq<seq<byte>>): seq<byte> {
    if frames == [] then [] else frames[0] + Flatten(frames[1..])
  }

  /** Total number of bytes in a list of frames. */
  function TotalLength(frames: seq<seq<byte>>): nat {
    if frames == [] then 0 else |frames[0]| + TotalLength(frames[1..])
  }

  /** The joined payload is exactly as long as all the frames together. */
  lemma {:induction false} FlattenLength(frames: seq<seq<byte>>)
    ensures |Flatten(frames)| == TotalLength(frames)
  {
    if frames != [] {
      FlattenLength(frames[1..]);
    }
  }

  /** Appending a frame appends its bytes to the payload, so the payload is
      the frames' bytes in the order they were written. */
  lemma {:induction false} FlattenSnoc(frames: seq<seq<byte>>, f: seq<byte>)
    ensures Flatten(frames + [f]) == Flatten(frames) + f
  {
    if frames == [] {
      assert [] + [f] == [f] && [f][1..] == [];
    } else {
      assert (frames + [f])[0] == frames[0];
      assert (frames + [f])[1..] == frames[1..] + [f];
      FlattenSnoc(frames[1..], f);
    }
  }

  class AudioRecorder {
    const sampleRate: int
    const channels: int
    var frames: seq<seq<byte>>
    var recording: bool
    var filename: Option<string>

    /** A recorder that is recording has a file name. */
    ghost predicate Valid()
      reads this
    {
      recording ==> filename.Some?
    }

    constructor (sampleRate: int, channels: int)
      ensures Valid()
      ensures this.sampleRate == sampleRate && this.channels == channels
      ensures frames == [] && !recording && filename == None
    {
      this.sampleRate := sampleRate;
      this.channels := channels;
      frames := [];
      recording := false;
      filename := None;
    }

    /** `start_recording`: there is no guard, so a second start while
        recording discards the frames collected so far and switches to a new
        file. */
    method StartRecording(outputDir: string, stamp: string)
      requires Valid()
      modifies this
      ensures Valid() && recording && frames == []
      ensures filename == Some(RecordingPath(outputDir, stamp))
    {
      filename := Some(RecordingPath(outputDir, stamp));
      frames := [];
      recording := true;
    }

    /** `write`: a frame is kept only while recording. */
    method Write(frameBytes: seq<byte>)
      requires Valid()
      modifies this`frames
      ensures Valid()
      ensures recording ==> frames == old(frames) + [frameBytes]
      ensures recording ==> Flatten(frames) == Flatten(old(frames)) + frameBytes
      ensures !recording ==> frames == old(frames)
    {
      if recording {
        FlattenSnoc(frames, frameBytes);
        frames := frames + [frameBytes];
      }
    }

    /** `stop_recording`: a no-op when not recording. Otherwise recording
        stops and, if any frame was kept, the file is written with the
        recorder's channel count and rate, 16-bit samples and the frames'
        bytes joined in order; with no frames nothing is written. */
    method StopRecording() returns (saved: Option<WaveFile>)
      requires Valid()
      modifies this`recording
      ensures Valid() && !recording
      ensures !old(recording) ==> saved == None && unchanged(this)
      ensures old(recording) && frames == [] ==> saved == None
      ensures old(recording) && frames != [] ==>
                saved == Some(WaveFile(filename.value, channels, SampleWidth, sampleRate, Flatten(frames)))
    {
      if !recording {
        return None;
      }
      recording := false;
      if frames != [] {
        saved := Some(WaveFile(filename.value, channels, SampleWidth, sampleRate, Flatten(frames)));
      } else {
        saved := None;
      }
    }
  }
}
