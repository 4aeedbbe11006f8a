/** backend/versions/cat_version.py: the meow vocal track laid out frame by
    frame along the vocal's pitch contour, and its mix with the
    instrumental. */
module CatVersion {
  import opened Audio
  import Decimal
  import Utils

  const SampleRate: nat := 44100
  /** librosa's default hop between analysis frames, in samples */
  const HopLength: nat := 512
  const MinMeowDuration: real := 0.3
  /** The reference pitch when the meow has no voiced frame */
  const FallbackPitch: real := 300.0
  /** The amplitude used for frames past the end of the RMS contour */
  const DefaultAmplitude: real := 0.5

  /** The analysis of the vocal: pyin's f0 and voiced flags, the frame
      times and the RMS amplitudes. The first three run in step. */
  datatype Contour = Contour(f0: seq<Pitch>, voiced: seq<bool>, times: seq<Seconds>, amplitude: seq<real>)

  predicate WellFormed(c: Contour)
  {
    |c.f0| == |c.voiced| == |c.times|
  }

  // ---------------------------------------------------------------------
  // Reference pitch of the meow sample

  /** Sum and number of the voiced frames that carry a pitch value. */
  function VoicedSum(f0: seq<Pitch>, voiced: seq<bool>): real
    requires |f0| == |voiced|
  {
    if f0 == [] then 0.0
    else VoicedSum(f0[..|f0| - 1], voiced[..|f0| - 1])
         + (if voiced[|f0| - 1] && f0[|f0| - 1].Hz? then f0[|f0| - 1].value else 0.0)
  }

  function VoicedCount(f0: seq<Pitch>, voiced: seq<bool>): nat
    requires |f0| == |voiced|
  {
    if f0 == [] then 0
    else VoicedCount(f0[..|f0| - 1], voiced[..|f0| - 1])
         + (if voiced[|f0| - 1] && f0[|f0| - 1].Hz? then 1 else 0)
  }

  /** nanmean(f0[voiced]) when any frame is voiced, else 300 Hz. The mean
      of no values (every voiced frame NaN) is NaN. */
  function ReferencePitch(f0: seq<Pitch>, voiced: seq<bool>): Pitch
    requires |f0| == |voiced|
  {
    if true in voiced then
      var n := VoicedCount(f0, voiced);
      if n == 0 then NaN else Hz(VoicedSum(f0, voiced) / n as real)
    else Hz(FallbackPitch)
  }

  /** Without a voiced frame the reference pitch is exactly 300 Hz. */
  lemma ReferencePitchFallback(f0: seq<Pitch>, voiced: seq<bool>)
    requires |f0| == |voiced|
    requires forall i :: 0 <= i < |voiced| ==> !voiced[i]
    ensures ReferencePitch(f0, voiced) == Hz(FallbackPitch)
  {
  }

  lemma {:induction false} VoicedBounds(f0: seq<Pitch>, voiced: seq<bool>, lo: real, hi: real)
    requires |f0| == |voiced|
    requires forall i :: 0 <= i < |f0| && voiced[i] ==> f0[i].Hz? && lo <= f0[i].value <= hi
    ensures VoicedCount(f0, voiced) as real * lo <= VoicedSum(f0, voiced) <= VoicedCount(f0, voiced) as real * hi
  {
    if f0 != [] {
      var m := |f0| - 1;
      VoicedBounds(f0[..m], voiced[..m], lo, hi);
      var s0, c0 := VoicedSum(f0[..m], voiced[..m]), VoicedCount(f0[..m], voiced[..m]);
      if voiced[m] && f0[m].Hz? {
        assert VoicedSum(f0, voiced) == s0 + f0[m].value;
        assert VoicedCount(f0, voiced) == c0 + 1;
        Step(c0 as real, s0, f0[m].value, lo, hi);
      } else {
        assert VoicedSum(f0, voiced) == s0;
        assert VoicedCount(f0, voiced) == c0;
      }
    }
  }

  lemma Step(c: real, s: real, v: real, lo: real, hi: real)
    requires c * lo <= s <= c * hi && lo <= v <= hi
    ensures (c + 1.0) * lo <= s + v <= (c + 1.0) * hi
  {
  }

  lemma {:induction false} VoicedCountPositive(f0: seq<Pitch>, voiced: seq<bool>)
    requires |f0| == |voiced| && true in voiced
    requires forall i :: 0 <= i < |f0| && voiced[i] ==> f0[i].Hz?
    ensures VoicedCount(f0, voiced) > 0
  {
    var m := |f0| - 1;
    if !voiced[m] {
      var i :| 0 <= i < |voiced| && voiced[i];
      assert voiced[..m][i];
      VoicedCountPositive(f0[..m], voiced[..m]);
    }
  }

  /** When the voiced frames of the meow all carry pitches in [lo, hi], the
      reference pitch is their mean and lies in [lo, hi]. */
  lemma {:induction false} ReferencePitchInRange(f0: seq<Pitch>, voiced: seq<bool>, lo: real, hi: real)
    requires |f0| == |voiced| && true in voiced
    requires forall i :: 0 <= i < |f0| && voiced[i] ==> f0[i].Hz? && lo <= f0[i].value <= hi
    ensures ReferencePitch(f0, voiced).Hz?
    ensures lo <= ReferencePitch(f0, voiced).value <= hi
    ensures ReferencePitch(f0, voiced).value * VoicedCount(f0, voiced) as real == VoicedSum(f0, voiced)
  {
    VoicedBounds(f0, voiced, lo, hi);
    VoicedCountPositive(f0, voiced);
    var n, s := VoicedCount(f0, voiced), VoicedSum(f0, voiced);
    MeanBetween(n as real, s, lo, hi);
    var m := s / n as real;
    assert lo <= m <= hi && m * n as real == s;
    assert ReferencePitch(f0, voiced) == Hz(m);
  }

  lemma MeanBetween(n: real, s: real, lo: real, hi: real)
    requires n > 0.0 && n * lo <= s <= n * hi
    ensures lo <= s / n <= hi && s / n * n == s
  {
    assert s / n * n == s;
    Scale(lo, s / n, n);
    Scale(s / n, hi, n);
  }

  lemma Scale(a: real, b: real, n: real)
    requires n > 0.0 && a * n <= b * n
    ensures a <= b
  {
  }

  // ---------------------------------------------------------------------
  // Frames

  /** The pitch after NaN has been replaced by 0. */
  function CleanPitch(p: Pitch): real
  {
    if p.NaN? then 0.0 else p.value
  }

  /** A frame gets a meow when its pitch is not 0 and it is voiced. */
  predicate Meows(c: Contour, i: nat)
    requires WellFormed(c) && i < |c.f0|
  {
    CleanPitch(c.f0[i]) != 0.0 && c.voiced[i]
  }

  /** vocal_amplitude[i], or 0.5 past its end. */
  function AmplitudeAt(c: Contour, i: nat): real
  {
    if i < |c.amplitude| then c.amplitude[i] else DefaultAmplitude
  }

  /** The amplitude is the RMS value of the frame when there is one. */
  lemma AmplitudeAtCases(c: Contour, i: nat)
    ensures i < |c.amplitude| ==> AmplitudeAt(c, i) == c.amplitude[i]
    ensures i >= |c.amplitude| ==> AmplitudeAt(c, i) == 0.5
  {
  }

  /** librosa.frames_to_time(frames, sr=44100) */
  function FramesToTime(frames: nat): real
  {
    (frames * HopLength) as real / SampleRate as real
  }

  /** max(frames_to_time(5), 0.3): never shorter than 300 ms, and at 44.1 kHz
      exactly 300 ms. */
  function FrameDuration(): (d: real)
    ensures d >= MinMeowDuration && d >= FramesToTime(5)
    ensures d == MinMeowDuration
  {
    var short := FramesToTime(5);
    if short > MinMeowDuration then short else MinMeowDuration
  }

  /** temp_meow_{i}.wav */
  function TempName(i: nat): string
  {
    "temp_meow_" + Decimal.NatToDecimal(i) + ".wav"
  }

  /** Different frames get different temporary files, none of them the
      stretch step's own temporary input. */
  lemma TempNameInjective(i: nat, j: nat)
    ensures TempName(i) == TempName(j) <==> i == j
    ensures TempName(i) != Utils.TempInput
  {
    var a, b := TempName(i), TempName(j);
    assert a[9] == '_';
    if a == b {
      var di, dj := Decimal.NatToDecimal(i), Decimal.NatToDecimal(j);
      assert a[10..|a| - 4] == di;
      assert b[10..|b| - 4] == dj;
      Decimal.NatToDecimalInjective(i, j);
    }
  }

  /** int(time_stamp * 1000): the overlay position in ms. */
  function Position(t: Seconds): nat
  {
    Decimal.Trunc(t * 1000.0)
  }

  // ---------------------------------------------------------------------
  // The meow track

  /** Everything one run depends on: the collaborators, the meow clip, the
      vocal's contour and the meow's reference pitch. */
  datatype Job = Job(tools: Tools, meow: Segment, vocal: Contour, reference: Pitch)

  /** The meow stretched to the frame duration by ffmpeg, written to frame
      i's temporary file. */
  function Stretched(job: Job, i: nat): Segment
  {
    Utils.StretchOutput(job.tools, job.meow, FrameDuration(), TempName(i))
  }

  /** The clip laid down for frame i: stretched, pitch-shifted towards the
      frame's pitch, and gained by the frame's amplitude. */
  function MeowAt(job: Job, i: nat): Segment
    requires WellFormed(job.vocal) && i < |job.vocal.f0|
  {
    var tools := job.tools;
    var shift := tools.semitones(CleanPitch(job.vocal.f0[i]), job.reference);
    var shifted := Utils.PitchShiftSegment(tools, Stretched(job, i), shift);
    tools.applyGain(shifted, tools.decibels(AmplitudeAt(job.vocal, i)))
  }

  /** The canvas after the first n frames have been walked. */
  function Track(job: Job, canvas: Segment, n: nat): Segment
    requires WellFormed(job.vocal) && n <= |job.vocal.f0|
  {
    if n == 0 then canvas
    else
      var t := Track(job, canvas, n - 1);
      if Meows(job.vocal, n - 1) then Overlay(t, MeowAt(job, n - 1), Position(job.vocal.times[n - 1])) else t
  }

  /** What the frames below n add to millisecond k. */
  function Contribution(job: Job, n: nat, k: nat): int
    requires WellFormed(job.vocal) && n <= |job.vocal.f0|
  {
    if n == 0 then 0
    else
      var i := n - 1;
      var p := Position(job.vocal.times[i]);
      var m := MeowAt(job, i);
      Contribution(job, i, k) + (if Meows(job.vocal, i) && p <= k < p + |m.ms| then m.ms[k - p] else 0)
  }

  /** The walk never changes the canvas length, and each millisecond holds
      the canvas plus every meow placed over it. */
  lemma {:induction false} TrackSamples(job: Job, canvas: Segment, n: nat)
    requires WellFormed(job.vocal) && n <= |job.vocal.f0|
    ensures |Track(job, canvas, n).ms| == |canvas.ms|
    ensures forall k :: 0 <= k < |canvas.ms| ==>
      Track(job, canvas, n).ms[k] == canvas.ms[k] + Contribution(job, n, k)
  {
    if n > 0 {
      TrackSamples(job, canvas, n - 1);
    }
  }

  /** Millisecond k is covered by one of the meows of the frames below n. */
  predicate Covered(job: Job, n: nat, k: nat)
    requires WellFormed(job.vocal) && n <= |job.vocal.f0|
  {
    n > 0 &&
    (Covered(job, n - 1, k) ||
     (Meows(job.vocal, n - 1) &&
      Position(job.vocal.times[n - 1]) <= k < Position(job.vocal.times[n - 1]) + |MeowAt(job, n - 1).ms|))
  }

  lemma {:induction false} UncoveredContributesNothing(job: Job, n: nat, k: nat)
    requires WellFormed(job.vocal) && n <= |job.vocal.f0|
    requires !Covered(job, n, k)
    ensures Contribution(job, n, k) == 0
  {
    if n > 0 {
      UncoveredContributesNothing(job, n - 1, k);
    }
  }

  /** On a silent canvas every millisecond no meow covers stays silent. */
  lemma TrackSilentWhereUncovered(job: Job, canvas: Segment, k: nat)
    requires WellFormed(job.vocal) && IsSilent(canvas.ms) && k < |canvas.ms|
    requires !Covered(job, |job.vocal.f0|, k)
    ensures |Track(job, canvas, |job.vocal.f0|).ms| == |canvas.ms| && Track(job, canvas, |job.vocal.f0|).ms[k] == 0
  {
    TrackSamples(job, canvas, |job.vocal.f0|);
    UncoveredContributesNothing(job, |job.vocal.f0|, k);
  }

  /** A frame that gets no meow leaves the canvas as it was. */
  lemma {:induction false} TrackUnvoiced(job: Job, canvas: Segment, n: nat)
    requires WellFormed(job.vocal) && n <= |job.vocal.f0|
    requires forall i :: 0 <= i < n ==> !Meows(job.vocal, i)
    ensures Track(job, canvas, n) == canvas
  {
    if n > 0 {
      TrackUnvoiced(job, canvas, n - 1);
    }
  }

  // ---------------------------------------------------------------------
  // Temporary files

  /** temp_files after the first n frames. */
  function TempNames(job: Job, n: nat): seq<string>
    requires WellFormed(job.vocal) && n <= |job.vocal.f0|
  {
    if n == 0 then []
    else TempNames(job, n - 1) + (if Meows(job.vocal, n - 1) then [TempName(n - 1)] else [])
  }

  /** The recorded names are exactly those of the frames that got a meow,
      and no name is recorded twice. */
  lemma {:induction false} TempNamesExact(job: Job, n: nat)
    requires WellFormed(job.vocal) && n <= |job.vocal.f0|
    ensures forall i :: 0 <= i < n ==> (TempName(i) in TempNames(job, n) <==> Meows(job.vocal, i))
    ensures forall s :: s in TempNames(job, n) ==> exists i :: 0 <= i < n && s == TempName(i)
    ensures forall a, b :: 0 <= a < b < |TempNames(job, n)| ==> TempNames(job, n)[a] != TempNames(job, n)[b]
  {
    if n > 0 {
      TempNamesExact(job, n - 1);
      var prev := TempNames(job, n - 1);
      forall i | 0 <= i < n - 1
        ensures TempName(i) != TempName(n - 1)
      {
        TempNameInjective(i, n - 1);
      }
    }
  }

  /** The set of names in a list. */
  function Names(s: seq<string>): set<string>
  {
    set x | x in s
  }

  /** The files after the first n frames: one stretch per meowing frame. */
  function FramesFiles(job: Job, files: map<string, Segment>, n: nat): map<string, Segment>
    requires WellFormed(job.vocal) && n <= |job.vocal.f0|
  {
    if n == 0 then files
    else
      var f := FramesFiles(job, files, n - 1);
      if Meows(job.vocal, n - 1)
      then Utils.StretchedFiles(f, job.tools, job.meow, FrameDuration(), TempName(n - 1))
      else f
  }

  /** The files once generate_meow_vocals returns: the track exported,
      then every recorded temporary file that exists removed. */
  function GeneratedFiles(job: Job, files: map<string, Segment>, canvas: Segment, output: string): map<string, Segment>
    requires WellFormed(job.vocal)
  {
    var n := |job.vocal.f0|;
    FramesFiles(job, files, n)[output := Track(job, canvas, n)] - Names(TempNames(job, n))
  }

  /** Walking the frames touches only the stretch's temporary input and the
      frames' temporary files. */
  lemma {:induction false} FramesFilesOthers(job: Job, files: map<string, Segment>, n: nat, p: string)
    requires WellFormed(job.vocal) && n <= |job.vocal.f0|
    requires p != Utils.TempInput && p !in TempNames(job, n)
    ensures p in FramesFiles(job, files, n) <==> p in files
    ensures p in files ==> FramesFiles(job, files, n)[p] == files[p]
  {
    if n > 0 {
      FramesFilesOthers(job, files, n - 1, p);
      if Meows(job.vocal, n - 1) {
        Utils.StretchedFilesEffect(FramesFiles(job, files, n - 1), job.tools, job.meow, FrameDuration(), TempName(n - 1));
      }
    }
  }

  lemma {:induction false} FramesFilesNoTempInput(job: Job, files: map<string, Segment>, n: nat)
    requires WellFormed(job.vocal) && n <= |job.vocal.f0|
    requires exists i :: 0 <= i < n && Meows(job.vocal, i)
    ensures Utils.TempInput !in FramesFiles(job, files, n)
  {
    var f := FramesFiles(job, files, n - 1);
    if Meows(job.vocal, n - 1) {
      Utils.StretchedFilesEffect(f, job.tools, job.meow, FrameDuration(), TempName(n - 1));
    } else {
      FramesFilesNoTempInput(job, files, n - 1);
    }
  }

  /** After a run: no frame's temporary file is left, the stretch's
      temporary input is gone if any frame meowed, the output holds the
      track unless it is named like a temporary file, and every other file
      is as it was. */
  lemma GeneratedFilesEffect(job: Job, files: map<string, Segment>, canvas: Segment, output: string)
    requires WellFormed(job.vocal)
    ensures var after := GeneratedFiles(job, files, canvas, output);
      && (forall i :: 0 <= i < |job.vocal.f0| && Meows(job.vocal, i) ==> TempName(i) !in after)
      && ((exists i :: 0 <= i < |job.vocal.f0| && Meows(job.vocal, i)) && output != Utils.TempInput ==>
            Utils.TempInput !in after)
      && (output !in TempNames(job, |job.vocal.f0|) ==>
            output in after && after[output] == Track(job, canvas, |job.vocal.f0|))
      && (forall p :: p != output && p != Utils.TempInput && p !in TempNames(job, |job.vocal.f0|) ==>
            (p in after <==> p in files) && (p in files ==> after[p] == files[p]))
  {
    var n := |job.vocal.f0|;
    TempNamesExact(job, n);
    if exists i :: 0 <= i < n && Meows(job.vocal, i) {
      FramesFilesNoTempInput(job, files, n);
    }
    forall p | p != output && p != Utils.TempInput && p !in TempNames(job, n)
      ensures var after := GeneratedFiles(job, files, canvas, output);
        (p in after <==> p in files) && (p in files ==> after[p] == files[p])
    {
      FramesFilesOthers(job, files, n, p);
    }
  }

  /** generate_meow_vocals: the vocal's contour and duration and the meow's
      clip and contour are supplied already decoded and analysed. The
      exported track is the silent canvas of int(vocal_duration * 1000) ms
      with one meow laid over it per meowing frame. */
  method GenerateMeowVocals(fs: FileStore, tools: Tools, vocal: Contour, vocalDuration: Seconds,
                            meow: Segment, meowF0: seq<Pitch>, meowVoiced: seq<bool>, output: string)
    requires WellFormed(vocal) && |meowF0| == |meowVoiced|
    modifies fs
    ensures var job := Job(tools, meow, vocal, ReferencePitch(meowF0, meowVoiced));
      fs.files == GeneratedFiles(job, old(fs.files), Silent(Decimal.Trunc(vocalDuration * 1000.0)), output)
  {
    var reference := ReferencePitch(meowF0, meowVoiced);
    ghost var job := Job(tools, meow, vocal, reference);
    var canvas := Silent(Decimal.Trunc(vocalDuration * 1000.0));
    ghost var blank := canvas;
    var tempFiles: seq<string> := [];
    var minMeowDuration := FrameDuration();
    for i := 0 to |vocal.f0|
      invariant canvas == Track(job, blank, i)
      invariant tempFiles == TempNames(job, i)
      invariant fs.files == FramesFiles(job, old(fs.files), i)
    {
      var pitch := CleanPitch(vocal.f0[i]);
      if pitch == 0.0 || !vocal.voiced[i] {
        continue;
      }
      var timeStamp := vocal.times[i];
      var amplitude := if i < |vocal.amplitude| then vocal.amplitude[i] else DefaultAmplitude;
      var pitchShift := tools.semitones(pitch, reference);
      var tempOut := TempName(i);
      tempFiles := tempFiles + [tempOut];
      TempNameInjective(i, i);
      var stretched := Utils.StretchMeowFfmpeg(fs, tools, meow, minMeowDuration, tempOut);
      var finalMeow := Utils.PitchShiftSegment(tools, stretched.value, pitchShift);
      finalMeow := tools.applyGain(finalMeow, tools.decibels(amplitude));
      canvas := Overlay(canvas, finalMeow, Position(timeStamp));
    }
    fs.Export(output, canvas);
    ghost var exported := fs.files;
    for j := 0 to |tempFiles|
      invariant fs.files == exported - Names(tempFiles[..j])
    {
      var tempFile := tempFiles[j];
      if fs.Exists(tempFile) {
        fs.Remove(tempFile);
      }
      assert tempFiles[..j + 1] == tempFiles[..j] + [tempFile];
      assert Names(tempFiles[..j + 1]) == Names(tempFiles[..j]) + {tempFile};
    }
    assert tempFiles[..|tempFiles|] == tempFiles;
  }

  // ---------------------------------------------------------------------
  // Mixing with the instrumental

  /** The instrumental cut to int(meow_duration * 1000) ms when it is the
      longer, padded with int((meow - instr) * 1000) ms of silence when it
      is the shorter, untouched when the durations agree. */
  function AlignInstrumental(instr: Segment, instrDuration: Seconds, meowDuration: Seconds): Segment
  {
    if instrDuration > meowDuration then Prefix(instr, Decimal.Trunc(meowDuration * 1000.0))
    else if meowDuration > instrDuration then
      Concat(instr, Silent(Decimal.Trunc((meowDuration - instrDuration) * 1000.0)))
    else instr
  }

  lemma AlignInstrumentalCases(instr: Segment, instrDuration: Seconds, meowDuration: Seconds)
    ensures var a := AlignInstrumental(instr, instrDuration, meowDuration);
      && (instrDuration > meowDuration ==>
            |a.ms| == Min(|instr.ms|, Decimal.Trunc(meowDuration * 1000.0)) && a.ms == instr.ms[..|a.ms|])
      && (meowDuration > instrDuration ==>
            |a.ms| == |instr.ms| + Decimal.Trunc((meowDuration - instrDuration) * 1000.0)
            && a.ms[..|instr.ms|] == instr.ms && IsSilent(a.ms[|instr.ms|..]))
      && (instrDuration == meowDuration ==> a == instr)
  {
  }

  function Min(a: int, b: int): int { if a < b then a else b }

  /** The final mix: the meow track overlaid from the start of the aligned
      instrumental. */
  function FinalMix(instr: Segment, meow: Segment, instrDuration: Seconds, meowDuration: Seconds): Segment
  {
    Overlay(AlignInstrumental(instr, instrDuration, meowDuration), meow, 0)
  }

  /** When the measured durations are the clips' own lengths, the mix lasts
      exactly as long as the meow track and each millisecond is the meow
      plus the instrumental, silence past the instrumental's end. */
  lemma FinalMixExactDurations(instr: Segment, meow: Segment)
    ensures var iD, mD := |instr.ms| as real / 1000.0, |meow.ms| as real / 1000.0;
      var mix := FinalMix(instr, meow, iD, mD);
      && |mix.ms| == |meow.ms|
      && forall k :: 0 <= k < |meow.ms| ==> mix.ms[k] == meow.ms[k] + (if k < |instr.ms| then instr.ms[k] else 0)
  {
    var iD, mD := |instr.ms| as real / 1000.0, |meow.ms| as real / 1000.0;
    var a := AlignInstrumental(instr, iD, mD);
    assert mD * 1000.0 == |meow.ms| as real;
    assert (mD - iD) * 1000.0 == (|meow.ms| - |instr.ms|) as real;
    AlignInstrumentalCases(instr, iD, mD);
    assert |a.ms| == |meow.ms|;
    forall k | 0 <= k < |meow.ms|
      ensures a.ms[k] == (if k < |instr.ms| then instr.ms[k] else 0)
    {
      if iD < mD && k >= |instr.ms| {
        assert a.ms[k] == a.ms[|instr.ms|..][k - |instr.ms|];
      }
      if iD > mD {
        assert a.ms[k] == instr.ms[..|a.ms|][k];
      }
    }
  }

  /** A shorter instrumental whose length is int(instr_duration * 1000) is
      padded to within one millisecond of int(meow_duration * 1000): the two
      truncations can lose one millisecond between them. */
  lemma PaddedMixWithinOneMs(instr: Segment, meow: Segment, instrDuration: Seconds, meowDuration: Seconds)
    requires meowDuration > instrDuration && |instr.ms| == Decimal.Trunc(instrDuration * 1000.0)
    ensures var target := Decimal.Trunc(meowDuration * 1000.0);
      var len := |FinalMix(instr, meow, instrDuration, meowDuration).ms|;
      target - 1 <= len <= target
  {
    var x, y := meowDuration * 1000.0, instrDuration * 1000.0;
    assert (meowDuration - instrDuration) * 1000.0 == x - y;
    AlignInstrumentalCases(instr, instrDuration, meowDuration);
    var a, b, c := x.Floor, y.Floor, (x - y).Floor;
    assert c as real <= x - y < c as real + 1.0;
  }

  /** What merge_meow_with_instrumental produces from the stored files:
      either file missing is FileNotFoundError. */
  function MergeOutcome(files: map<string, Segment>, tools: Tools, instrumentalFile: string, meowVocalFile: string)
    : (r: Result<Segment>)
    ensures r.Ok? <==> instrumentalFile in files && meowVocalFile in files
  {
    if instrumentalFile !in files then Err(NotFound(instrumentalFile))
    else if meowVocalFile !in files then Err(NotFound(meowVocalFile))
    else
      var instr, meow := files[instrumentalFile], files[meowVocalFile];
      Ok(FinalMix(instr, meow, tools.duration(instr), tools.duration(meow)))
  }

  /** merge_meow_with_instrumental: on success the mix is exported; an
      error leaves the files as they were. */
  method MergeMeowWithInstrumental(fs: FileStore, tools: Tools, instrumentalFile: string, meowVocalFile: string,
                                   outputFinalMix: string) returns (r: Result<Segment>)
    modifies fs
    ensures r == MergeOutcome(old(fs.files), tools, instrumentalFile, meowVocalFile)
    ensures fs.files == if r.Ok? then old(fs.files)[outputFinalMix := r.value] else old(fs.files)
  {
    var instrumental := fs.Load(instrumentalFile);
    if instrumental.Err? {
      return instrumental;
    }
    var meowVocal := fs.Load(meowVocalFile);
    if meowVocal.Err? {
      return meowVocal;
    }
    var instrDuration := tools.duration(instrumental.value);
    var meowDuration := tools.duration(meowVocal.value);
    var aligned := instrumental.value;
    if instrDuration > meowDuration {
      aligned := Prefix(aligned, Decimal.Trunc(meowDuration * 1000.0));
    } else if meowDuration > instrDuration {
      var silence := Silent(Decimal.Trunc((meowDuration - instrDuration) * 1000.0));
      aligned := Concat(aligned, silence);
    }
    var finalMix := Overlay(aligned, meowVocal.value, 0);
    fs.Export(outputFinalMix, finalMix);
    r := Ok(finalMix);
  }
}
