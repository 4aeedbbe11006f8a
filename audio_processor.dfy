/** backend/core/audio_processor.py: the paths of the separated stems, the
    stem a mode selects, the processed file's name, and the frame-rate
    trick of apply_pitch_shift. */
module AudioProcessor {
  import opened Audio
  import opened PosixPath
  import Decimal

  const VocalsFile: string := "vocals.wav"
  const AccompanimentFile: string := "accompaniment.wav"
  const StemFolder: string := "spleeter_output"
  const ProcessedPrefix: string := "processed_"

  datatype Stems = Stems(vocals: string, accompaniment: string)

  /** splitext(basename(input_path))[0] */
  function BaseName(inputPath: string): string
  {
    SplitextRoot(Basename(inputPath))
  }

  /** The dictionary separate_tracks returns. */
  function StemPaths(inputPath: string, outputFolder: string): Stems
  {
    var dir := Join(outputFolder, BaseName(inputPath));
    Stems(Join(dir, VocalsFile), Join(dir, AccompanimentFile))
  }

  /** Both stems sit in one directory, under their fixed file names, and
      the two paths differ. */
  lemma StemPathsShape(inputPath: string, outputFolder: string)
    ensures Basename(StemPaths(inputPath, outputFolder).vocals) == VocalsFile
    ensures Basename(StemPaths(inputPath, outputFolder).accompaniment) == AccompanimentFile
    ensures Dirname(StemPaths(inputPath, outputFolder).vocals)
         == Dirname(StemPaths(inputPath, outputFolder).accompaniment)
    ensures StemPaths(inputPath, outputFolder).vocals != StemPaths(inputPath, outputFolder).accompaniment
  {
    var dir := Join(outputFolder, BaseName(inputPath));
    StemFileNames();
    BasenameJoin(dir, VocalsFile);
    BasenameJoin(dir, AccompanimentFile);
    DirnameJoinSame(dir, VocalsFile, AccompanimentFile);
  }

  /** The stem file names are plain names, and different ones. */
  lemma StemFileNames()
    ensures NoSlash(VocalsFile) && NoSlash(AccompanimentFile) && NoSlash(StemFolder)
    ensures VocalsFile != AccompanimentFile
  {
    assert |VocalsFile| != |AccompanimentFile|;
  }

  /** The folder spleeter writes into: join(dirname(input), "spleeter_output"). */
  function OutputFolder(inputPath: string): string
  {
    Join(Dirname(inputPath), StemFolder)
  }

  /** The name process_audio returns: "processed_" + basename(input). */
  function OutputName(inputPath: string): string
  {
    ProcessedPrefix + Basename(inputPath)
  }

  /** The processed file is written beside the input. */
  function OutputPath(inputPath: string): string
  {
    Join(Dirname(inputPath), OutputName(inputPath))
  }

  /** The returned name is the file name of the written path, and that path
      lies in the input's directory. */
  lemma OutputPathShape(inputPath: string)
    ensures OutputName(inputPath)[..|ProcessedPrefix|] == ProcessedPrefix
    ensures OutputName(inputPath)[|ProcessedPrefix|..] == Basename(inputPath)
    ensures Basename(OutputPath(inputPath)) == OutputName(inputPath)
    ensures Dirname(OutputPath(inputPath)) == Dirname(inputPath)
  {
    BasenameHasNoSlash(inputPath);
    assert NoSlash(OutputName(inputPath));
    BasenameJoin(Dirname(inputPath), OutputName(inputPath));
    DirnameJoinDirname(inputPath, OutputName(inputPath));
  }

  /** "vocals" keeps the vocals; every other mode keeps the accompaniment. */
  function SelectTrack(mode: string, vocals: Segment, accompaniment: Segment): Segment
  {
    if mode == "vocals" then vocals else accompaniment
  }

  /** What spleeter produced for the input: the two stems, or the message
      of the exception it raised. */
  datatype Separation = Separated(vocals: Segment, accompaniment: Segment) | Failed(message: string)

  /** The files after separate_tracks. */
  function SeparatedFiles(files: map<string, Segment>, separation: Separation, inputPath: string,
                          outputFolder: string): map<string, Segment>
  {
    match separation
    case Failed(_) => files
    case Separated(v, a) =>
      var stems := StemPaths(inputPath, outputFolder);
      files[stems.vocals := v][stems.accompaniment := a]
  }

  /** separate_tracks: spleeter writes the stems, then their paths are
      returned; a spleeter failure propagates. */
  method SeparateTracks(fs: FileStore, separation: Separation, inputPath: string, outputFolder: string)
    returns (r: Result<Stems>)
    modifies fs
    ensures fs.files == SeparatedFiles(old(fs.files), separation, inputPath, outputFolder)
    ensures r == if separation.Failed? then Err(separation.message) else Ok(StemPaths(inputPath, outputFolder))
  {
    if separation.Failed? {
      return Err(separation.message);
    }
    var baseName := BaseName(inputPath);
    var dir := Join(outputFolder, baseName);
    fs.Export(Join(dir, VocalsFile), separation.vocals);
    fs.Export(Join(dir, AccompanimentFile), separation.accompaniment);
    r := Ok(Stems(Join(dir, VocalsFile), Join(dir, AccompanimentFile)));
  }

  /** The files after process_audio. */
  function ProcessedFiles(files: map<string, Segment>, separation: Separation, inputPath: string, mode: string)
    : map<string, Segment>
  {
    match separation
    case Failed(_) => files
    case Separated(v, a) =>
      SeparatedFiles(files, separation, inputPath, OutputFolder(inputPath))[OutputPath(inputPath) := SelectTrack(mode, v, a)]
  }

  /** On success process_audio leaves the stem the mode selects at the
      output path and both stems at the paths separate_tracks returned, and
      every other file as it was; a failure changes nothing. No file is
      ever removed. */
  lemma ProcessedFilesEffect(files: map<string, Segment>, separation: Separation, inputPath: string, mode: string)
    ensures separation.Failed? ==> ProcessedFiles(files, separation, inputPath, mode) == files
    ensures separation.Separated? ==>
      var after := ProcessedFiles(files, separation, inputPath, mode);
      && OutputPath(inputPath) in after
      && (mode == "vocals" ==> after[OutputPath(inputPath)] == separation.vocals)
      && (mode != "vocals" ==> after[OutputPath(inputPath)] == separation.accompaniment)
    ensures separation.Separated? ==>
      var after := ProcessedFiles(files, separation, inputPath, mode);
      var stems := StemPaths(inputPath, OutputFolder(inputPath));
      && stems.vocals in after && after[stems.vocals] == separation.vocals
      && stems.accompaniment in after && after[stems.accompaniment] == separation.accompaniment
      && (forall p :: p in files && p != OutputPath(inputPath) && p != stems.vocals && p != stems.accompaniment
                      ==> after[p] == files[p])
    ensures forall p :: p in files ==> p in ProcessedFiles(files, separation, inputPath, mode)
  {
    ProcessedPathIsNoStem(inputPath);
  }

  /** The processed file never overwrites a stem: its name starts with 'p'
      and the stems are named vocals.wav and accompaniment.wav. */
  lemma ProcessedPathIsNoStem(inputPath: string)
    ensures OutputPath(inputPath) != StemPaths(inputPath, OutputFolder(inputPath)).vocals
    ensures OutputPath(inputPath) != StemPaths(inputPath, OutputFolder(inputPath)).accompaniment
  {
    var stems := StemPaths(inputPath, OutputFolder(inputPath));
    StemPathsShape(inputPath, OutputFolder(inputPath));
    OutputPathShape(inputPath);
    ProcessedNameIsNoStem(inputPath);
    BasenameDistinguishes(OutputPath(inputPath), stems.vocals);
    BasenameDistinguishes(OutputPath(inputPath), stems.accompaniment);
  }

  lemma ProcessedNameIsNoStem(inputPath: string)
    ensures OutputName(inputPath) != VocalsFile && OutputName(inputPath) != AccompanimentFile
  {
    assert OutputName(inputPath)[0] == 'p';
  }

  /** process_audio(input_path, mode). Directory creation is not modelled;
      every exception becomes a RuntimeError with the same message. */
  method ProcessAudio(fs: FileStore, separation: Separation, inputPath: string, mode: string)
    returns (r: Result<string>)
    modifies fs
    ensures fs.files == ProcessedFiles(old(fs.files), separation, inputPath, mode)
    ensures r == if separation.Failed? then Err(separation.message) else Ok(OutputName(inputPath))
  {
    var outputFolder := Join(Dirname(inputPath), StemFolder);
    var separated := SeparateTracks(fs, separation, inputPath, outputFolder);
    if separated.Err? {
      return Err(separated.message);
    }
    StemPathsShape(inputPath, outputFolder);
    var baseName := BaseName(inputPath);
    var vocals := fs.Load(Join(Join(outputFolder, baseName), VocalsFile));
    var accompaniment := fs.Load(Join(Join(outputFolder, baseName), AccompanimentFile));
    var finalAudio := if mode == "vocals" then vocals.value else accompaniment.value;
    var outputFilename := ProcessedPrefix + Basename(inputPath);
    var outputPath := Join(Dirname(inputPath), outputFilename);
    fs.Export(outputPath, finalAudio);
    r := Ok(outputFilename);
  }

  /** apply_pitch_shift's default shift, in semitones. */
  const DefaultSemitones: int := 4

  /** int(frame_rate * 2 ** (n / 12)) */
  function PitchedRate(tools: Tools, frameRate: nat, semitones: int): int
  {
    Decimal.Trunc(frameRate as real * tools.power2(semitones as real / 12.0))
  }

  /** apply_pitch_shift: the unchanged samples are read at the pitched rate
      (pydub's _spawn with the frame rate overridden) and resampled back to
      the clip's own rate, so the result keeps the input's format. */
  function ApplyPitchShift(tools: Tools, s: Segment, semitones: int): (r: Segment)
    ensures r.frameRate == s.frameRate && r.sampleWidth == s.sampleWidth && r.channels == s.channels
    ensures r.ms == tools.resample(s.ms, PitchedRate(tools, s.frameRate, semitones), s.frameRate)
  {
    Segment(tools.resample(s.ms, PitchedRate(tools, s.frameRate, semitones), s.frameRate),
            s.frameRate, s.sampleWidth, s.channels)
  }

  /** apply_pitch_shift(audio_segment) with the default shift: four
      semitones up, so the samples are read at a rate no lower than the
      clip's own. */
  function ApplyDefaultPitchShift(tools: Tools, s: Segment): (r: Segment)
    ensures r == ApplyPitchShift(tools, s, DefaultSemitones)
    ensures Power2Sound(tools.power2) ==> PitchedRate(tools, s.frameRate, DefaultSemitones) >= s.frameRate
  {
    DefaultShiftRaisesRate(tools, s.frameRate);
    ApplyPitchShift(tools, s, DefaultSemitones)
  }

  lemma DefaultShiftRaisesRate(tools: Tools, frameRate: nat)
    ensures Power2Sound(tools.power2) ==> PitchedRate(tools, frameRate, DefaultSemitones) >= frameRate
  {
    if Power2Sound(tools.power2) {
      PitchedRateDirection(tools, frameRate, DefaultSemitones);
    }
  }

  /** What 2 ** x is expected to satisfy: 2 ** 0 == 1, positive, and
      non-decreasing. */
  ghost predicate Power2Sound(power2: real -> real)
  {
    && power2(0.0) == 1.0
    && (forall x :: power2(x) > 0.0)
    && (forall x, y :: x <= y ==> power2(x) <= power2(y))
  }

  /** With a sound 2 ** x, an upward shift never lowers the intermediate
      rate, a downward one never raises it, and no shift makes it
      negative; no shift keeps the rate. */
  lemma PitchedRateDirection(tools: Tools, frameRate: nat, semitones: int)
    requires Power2Sound(tools.power2)
    ensures semitones >= 0 ==> PitchedRate(tools, frameRate, semitones) >= frameRate
    ensures semitones <= 0 ==> 0 <= PitchedRate(tools, frameRate, semitones) <= frameRate
    ensures semitones == 0 ==> PitchedRate(tools, frameRate, semitones) == frameRate
  {
    var e := semitones as real / 12.0;
    Power2At(tools.power2, e);
    RateBounds(frameRate, tools.power2(e));
  }

  /** The three facts about 2 ** e that the rate depends on. */
  lemma Power2At(power2: real -> real, e: real)
    requires Power2Sound(power2)
    ensures power2(e) > 0.0
    ensures 0.0 <= e ==> 1.0 <= power2(e)
    ensures e <= 0.0 ==> power2(e) <= 1.0
  {
    assert power2(0.0) == 1.0;
  }

  /** int(rate * x) against the rate, by the side of 1 that x lies on. */
  lemma RateBounds(frameRate: nat, x: real)
    requires x > 0.0
    ensures x >= 1.0 ==> Decimal.Trunc(frameRate as real * x) >= frameRate
    ensures x <= 1.0 ==> 0 <= Decimal.Trunc(frameRate as real * x) <= frameRate
  {
    var a := frameRate as real;
    var y := a * x;
    MulNonNegative(a, x);
    if x >= 1.0 {
      assert y - a == a * (x - 1.0);
      MulNonNegative(a, x - 1.0);
    }
    if x <= 1.0 {
      assert a - y == a * (1.0 - x);
      MulNonNegative(a, 1.0 - x);
    }
    TruncAgainst(y, frameRate);
  }

  /** Truncating a non-negative value keeps it on its side of a whole number. */
  lemma TruncAgainst(y: real, n: nat)
    requires y >= 0.0
    ensures 0 <= Decimal.Trunc(y)
    ensures y >= n as real ==> Decimal.Trunc(y) >= n
    ensures y <= n as real ==> Decimal.Trunc(y) <= n
  {
    var r := Decimal.Trunc(y);
    assert r as real <= y < r as real + 1.0;
  }

  lemma MulNonNegative(a: real, b: real)
    requires a >= 0.0 && b >= 0.0
    ensures a * b >= 0.0
  {
  }
}
