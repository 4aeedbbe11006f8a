/** backend/core/utils.py: the ffmpeg tempo stretch of a clip to a target
    duration, with its temporary input file, and the format of a
    pitch-shifted clip. */
module Utils {
  import opened Audio
  import Decimal

  /** Targets below 50 ms are raised to 50 ms. */
  const MinTarget: real := 0.05

  /** The temporary file the clip is exported to for ffmpeg. */
  const TempInput: string := "temp_meow.wav"

  /** max(target_duration, 0.05) */
  function EffectiveTarget(target: real): (r: real)
    ensures r >= MinTarget
    ensures target >= MinTarget ==> r == target
    ensures target < MinTarget ==> r == MinTarget
  {
    if target < MinTarget then MinTarget else target
  }

  /** len(input_audio) / 1000.0 / effective target: the atempo factor. */
  function TempoFactor(lengthMs: nat, target: real): real
  {
    (lengthMs as real / 1000.0) / EffectiveTarget(target)
  }

  /** Played at the tempo factor, a clip of lengthMs lasts exactly the
      effective target; the factor is positive for a non-empty clip. */
  lemma TempoFactorMeetsTarget(lengthMs: nat, target: real)
    ensures TempoFactor(lengthMs, target) >= 0.0
    ensures lengthMs > 0 ==> TempoFactor(lengthMs, target) > 0.0
    ensures lengthMs > 0 ==>
      (lengthMs as real / 1000.0) / TempoFactor(lengthMs, target) == EffectiveTarget(target)
  {
  }

  /** The atempo filter argument, factor written with three decimals. */
  function AtempoFilter(lengthMs: nat, target: real): string
  {
    "atempo=" + Decimal.Fixed3(TempoFactor(lengthMs, target))
  }

  /** The ffmpeg argument vector. */
  function StretchCommand(tempInput: string, lengthMs: nat, target: real, outputFile: string): seq<string>
  {
    ["ffmpeg", "-y", "-i", tempInput, "-filter:a", AtempoFilter(lengthMs, target), outputFile]
  }

  /** The command reads the temporary input and writes the output, and its
      filter text reads back as the tempo factor rounded to thousandths. */
  lemma StretchCommandShape(tempInput: string, lengthMs: nat, target: real, outputFile: string)
    ensures var c := StretchCommand(tempInput, lengthMs, target, outputFile);
      && |c| == 7 && c[0] == "ffmpeg" && c[1] == "-y"
      && c[2] == "-i" && c[3] == tempInput && c[4] == "-filter:a" && c[6] == outputFile
      && c[5][..7] == "atempo="
      && Decimal.ParseFixed3(c[5][7..]) == Decimal.Some(Decimal.RoundHalfEven(TempoFactor(lengthMs, target) * 1000.0))
  {
    var f := AtempoFilter(lengthMs, target);
    TempoFactorMeetsTarget(lengthMs, target);
    Decimal.Fixed3RoundTrip(TempoFactor(lengthMs, target));
    assert f[7..] == Decimal.Fixed3(TempoFactor(lengthMs, target));
  }

  /** What ffmpeg writes when it runs the stretch command on a clip. */
  function StretchOutput(tools: Tools, input: Segment, target: real, outputFile: string): Segment
  {
    tools.ffmpeg(StretchCommand(TempInput, |input.ms|, target, outputFile), input)
  }

  /** The files after a stretch: the clip exported to the temporary input,
      ffmpeg's output written, the temporary input removed. */
  function StretchedFiles(files: map<string, Segment>, tools: Tools, input: Segment, target: real,
                          outputFile: string): map<string, Segment>
  {
    files[TempInput := input][outputFile := StretchOutput(tools, input, target, outputFile)] - {TempInput}
  }

  /** After a stretch the temporary input is gone and, unless it is the
      temporary input itself, the output holds what ffmpeg wrote when run
      on the stretch command; nothing else changes. */
  lemma StretchedFilesEffect(files: map<string, Segment>, tools: Tools, input: Segment, target: real,
                             outputFile: string)
    ensures var after := StretchedFiles(files, tools, input, target, outputFile);
      && TempInput !in after
      && (outputFile != TempInput ==>
            outputFile in after
            && after[outputFile] == tools.ffmpeg(StretchCommand(TempInput, |input.ms|, target, outputFile), input))
      && (forall p :: p != TempInput && p != outputFile ==> (p in after <==> p in files))
      && (forall p :: p != TempInput && p != outputFile && p in files ==> after[p] == files[p])
  {
  }

  /** stretch_meow_ffmpeg(input_audio, target_duration, output_file). */
  method StretchMeowFfmpeg(fs: FileStore, tools: Tools, input: Segment, target: real, outputFile: string)
    returns (r: Result<Segment>)
    modifies fs
    ensures fs.files == StretchedFiles(old(fs.files), tools, input, target, outputFile)
    ensures r == Read(fs.files, outputFile)
    ensures outputFile != TempInput ==>
      r == Ok(tools.ffmpeg(StretchCommand(TempInput, |input.ms|, target, outputFile), input))
  {
    fs.Export(TempInput, input);
    var command := StretchCommand(TempInput, |input.ms|, target, outputFile);
    // ffmpeg reads the file named after -i and writes the file named last
    fs.Export(command[6], tools.ffmpeg(command, fs.files[command[3]]));
    if fs.Exists(TempInput) {
      fs.Remove(TempInput);
    }
    r := fs.Load(outputFile);
  }

  /** pitch_shift_segment(segment, semitone_shift): the shifted samples as a
      mono 16-bit clip at the input's frame rate. */
  function PitchShiftSegment(tools: Tools, s: Segment, shift: real): (r: Segment)
    ensures r.channels == 1 && r.sampleWidth == 2 && r.frameRate == s.frameRate
  {
    Segment(tools.pitchShift(s.ms, s.frameRate, shift), s.frameRate, 2, 1)
  }
}
