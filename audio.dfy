/** Decoded audio as the backend handles it through pydub, at millisecond
    resolution, the additive overlay, and the file store the backend
    reads from and writes to. */
module Audio {

  /** A clip: ms[k] is the signal during its k-th millisecond (pydub's
      len() is |ms|), plus the format pydub carries with it. */
  datatype Segment = Segment(ms: seq<int>, frameRate: nat, sampleWidth: nat, channels: nat)

  /** A pitch as the analyser reports it: NaN on frames it cannot track. */
  datatype Pitch = NaN | Hz(value: real)

  type Seconds = r: real | r >= 0.0

  /** The numeric collaborators (librosa, ffmpeg, pydub's gain and
      resampler), taken as given functions. */
  datatype Tools = Tools(
    /** ffmpeg run on an argument vector, given the clip stored in the file
        the vector names after -i: the clip it writes */
    ffmpeg: (seq<string>, Segment) -> Segment,
    /** librosa.effects.pitch_shift: samples, frame rate, semitones */
    pitchShift: (seq<int>, nat, real) -> seq<int>,
    /** hz_to_midi(pitch) - hz_to_midi(reference) */
    semitones: (real, Pitch) -> real,
    /** 20 * log10(amplitude + 1e-6) */
    decibels: real -> real,
    /** pydub's segment + dB */
    applyGain: (Segment, real) -> Segment,
    /** pydub's resampler: samples, from rate, to rate */
    resample: (seq<int>, int, nat) -> seq<int>,
    /** 2 ** x in floating point */
    power2: real -> real,
    /** librosa.get_duration of a stored file */
    duration: Segment -> Seconds)

  function Max(a: nat, b: nat): nat { if a < b then b else a }

  /** AudioSegment.silent(duration): 11025 Hz, 16-bit, mono, and empty for
      a non-positive duration. */
  function Silent(duration: int): (r: Segment)
    ensures |r.ms| == (if duration <= 0 then 0 else duration)
    ensures forall k :: 0 <= k < |r.ms| ==> r.ms[k] == 0
  {
    Segment(if duration <= 0 then [] else seq(duration, _ => 0), 11025, 2, 1)
  }

  predicate IsSilent(s: seq<int>) { forall k :: 0 <= k < |s| ==> s[k] == 0 }

  function AddSamples(a: seq<int>, b: seq<int>): (r: seq<int>)
    requires |a| == |b|
    ensures |r| == |a| && forall k :: 0 <= k < |a| ==> r[k] == a[k] + b[k]
  {
    seq(|a|, k requires 0 <= k < |a| => a[k] + b[k])
  }

  /** pydub's base.overlay(top, position=pos): the part of top that fits is
      added from millisecond pos on; base keeps its length. Formats are
      first brought to the larger rate, width and channel count. */
  function Overlay(base: Segment, top: Segment, pos: nat): (r: Segment)
    ensures |r.ms| == |base.ms|
    ensures forall k :: 0 <= k < |base.ms| ==>
      r.ms[k] == if pos <= k < pos + |top.ms| then base.ms[k] + top.ms[k - pos] else base.ms[k]
    ensures r.frameRate == Max(base.frameRate, top.frameRate)
    ensures r.sampleWidth == Max(base.sampleWidth, top.sampleWidth)
    ensures r.channels == Max(base.channels, top.channels)
  {
    var n := |base.ms|;
    var start := if pos < n then pos else n;
    var m := if |top.ms| < n - start then |top.ms| else n - start;
    var ms := base.ms[..start] + AddSamples(base.ms[start..start + m], top.ms[..m]) + base.ms[start + m..];
    assert forall k :: 0 <= k < start ==> ms[k] == base.ms[k];
    assert forall k :: start <= k < start + m ==> ms[k] == base.ms[k] + top.ms[k - start];
    assert forall k :: start + m <= k < n ==> ms[k] == base.ms[k];
    Segment(ms, Max(base.frameRate, top.frameRate), Max(base.sampleWidth, top.sampleWidth),
            Max(base.channels, top.channels))
  }

  /** pydub's a + b: b appended after a. */
  function Concat(a: Segment, b: Segment): (r: Segment)
    ensures |r.ms| == |a.ms| + |b.ms|
    ensures r.ms[..|a.ms|] == a.ms && r.ms[|a.ms|..] == b.ms
  {
    Segment(a.ms + b.ms, Max(a.frameRate, b.frameRate), Max(a.sampleWidth, b.sampleWidth),
            Max(a.channels, b.channels))
  }

  /** pydub's s[:n]: the first n milliseconds, or all of s if it is shorter. */
  function Prefix(s: Segment, n: nat): (r: Segment)
    ensures |r.ms| == (if n < |s.ms| then n else |s.ms|)
    ensures r.ms == s.ms[..|r.ms|]
  {
    s.(ms := s.ms[..if n < |s.ms| then n else |s.ms|])
  }

  /** Overlays commute: the order in which clips are laid onto a canvas does
      not change the result. */
  lemma OverlayCommutes(c: Segment, a: Segment, p: nat, b: Segment, q: nat)
    ensures Overlay(Overlay(c, a, p), b, q) == Overlay(Overlay(c, b, q), a, p)
  {
    var ca, cb := Overlay(c, a, p), Overlay(c, b, q);
    var x, y := Overlay(ca, b, q), Overlay(cb, a, p);
    forall k | 0 <= k < |c.ms|
      ensures x.ms[k] == y.ms[k]
    {
      var da := if p <= k < p + |a.ms| then a.ms[k - p] else 0;
      var db := if q <= k < q + |b.ms| then b.ms[k - q] else 0;
      assert ca.ms[k] == c.ms[k] + da;
      assert cb.ms[k] == c.ms[k] + db;
      assert x.ms[k] == ca.ms[k] + db;
      assert y.ms[k] == cb.ms[k] + da;
    }
    assert x.ms == y.ms;
  }

  /** A clip laid on silence: silent outside [pos, pos + |top|), the clip's
      own samples inside. */
  lemma OverlayOnSilence(base: Segment, top: Segment, pos: nat, k: nat)
    requires IsSilent(base.ms) && k < |base.ms|
    ensures pos <= k < pos + |top.ms| ==> Overlay(base, top, pos).ms[k] == top.ms[k - pos]
    ensures !(pos <= k < pos + |top.ms|) ==> Overlay(base, top, pos).ms[k] == 0
  {
  }

  /** The file system: path to stored clip. */
  class FileStore {
    var files: map<string, Segment>

    constructor (initial: map<string, Segment>)
      ensures files == initial
    {
      files := initial;
    }

    /** os.path.exists */
    predicate Exists(path: string)
      reads this
    {
      path in files
    }

    /** segment.export(path): creates or overwrites the file. */
    method Export(path: string, s: Segment)
      modifies this
      ensures files == old(files)[path := s]
    {
      files := files[path := s];
    }

    /** os.remove of an existing file. */
    method Remove(path: string)
      requires path in files
      modifies this
      ensures files == old(files) - {path}
    {
      files := files - {path};
    }

    /** AudioSegment.from_file: the stored clip, or FileNotFoundError. */
    method Load(path: string) returns (r: Result<Segment>)
      ensures r == Read(files, path)
    {
      r := Read(files, path);
    }
  }

  datatype Result<T> = Ok(value: T) | Err(message: string)

  /** The message of Python's FileNotFoundError for path. */
  function NotFound(path: string): string
  {
    "[Errno 2] No such file or directory: '" + path + "'"
  }

  function Read(files: map<string, Segment>, path: string): (r: Result<Segment>)
    ensures r.Ok? <==> path in files
    ensures r.Ok? ==> r.value == files[path]
  {
    if path in files then Ok(files[path]) else Err(NotFound(path))
  }
}
