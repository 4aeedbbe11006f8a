# AudioMagic in Dafny

A model of AudioMagic's core, with proofs about it. AudioMagic is a FastAPI
backend and a React frontend. The `/process` route of backend/api/routes.py
is written to take an uploaded song and dispatch on one of two modes:

- **Vocal and Music**: separate the song into a vocal stem and an
  accompaniment stem with spleeter, and return links to both.
- **Cat Version**: replace the singing by meows. For each voiced pitch
  frame of the vocal, a meow sample is stretched to 300 ms with ffmpeg. It
  is shifted to the frame's pitch, scaled to the frame's loudness, and laid
  on a silent canvas. The result is then mixed with the accompaniment.

As written, the route calls `process_audio` without its `mode` argument, so
every request ends in a 500 (see Findings). The model has both versions: the
route as written, and the dispatch it evidently intends. Stem separation,
meow generation and merging are each modelled as written. backend/app.py does not
mount this router. It serves its own `/process`, with the modes
`music_only` and `cat_sound`; that file is not part of this model.

The frontend's audio player is a small state machine around an `<audio>`
element.

Modules, one per file:

- `Decimal` (decimal.dfy): the value-to-text conversions the code relies on,
  each with a parser that undoes it:
  - Python's `str(i)` and JavaScript's `String(i)`;
  - Python's `int()` of a float (truncation toward zero), which is also
    the quotient behind JavaScript's `%` in `formatTime`;
  - `padStart(2, "0")`;
  - Python's `format(x, ".3f")`, rounding half to even.
- `PosixPath` (posixpath.dfy): `os.path.join`, `basename`, `dirname` and the
  root half of `splitext`, as the POSIX implementation computes them.
- `Audio` (audio.dfy):
  - A clip as pydub sees it: one value per millisecond, plus frame rate,
    sample width and channel count. `AudioSegment.silent` is modelled.
  - pydub's `overlay`, which adds the top clip into the base and keeps the
    base's length; `+`; and slicing.
  - The file system, as a `FileStore` object whose map of files the
    backend's exports and removals update.
  - The numeric collaborators (librosa, ffmpeg, pydub's gain and resampler)
    are function-valued fields of `Tools`. They are given, not modelled.
- `Utils` (utils.dfy): `stretch_meow_ffmpeg`, with its tempo factor, its
  command line and its temporary file, and the output format of
  `pitch_shift_segment`.
- `CatVersion` (cat_version.dfy):
  - The reference pitch of the meow.
  - The frame loop of `generate_meow_vocals`, as an imperative method over
    the file store. It is proved against a recursive track function and a
    recursive function giving the files it leaves behind.
  - `merge_meow_with_instrumental`.
- `AudioProcessor` (audio_processor.dfy):
  - The stem paths of `separate_tracks`.
  - The mode choice and output name of `process_audio`.
  - The frame-rate trick of `apply_pitch_shift`.
- `Routes` (routes.dfy):
  - The upload name sanitizer.
  - `/process` as written, next to the dispatch it evidently intends (see
    Findings).
  - `/download`.
- `AudioPlayer` (audio_player.dfy):
  - `formatTime`.
  - The player's handlers, as pure step functions over a `State` record
    that also holds the element's pause flag, position and volume.
  - The `Player` class, whose methods update those fields in place and are
    proved equal to the step functions.

Inputs that come from I/O, clocks or outside tools are parameters:

- the decoded clips, pydub's `len`, and pyin's pitch contour, voiced flags,
  frame times and RMS amplitudes;
- `librosa.get_duration`: in `merge_meow_with_instrumental` through
  `Tools.duration` of the stored file; in `generate_meow_vocals` it is the
  `vocalDuration` parameter;
- what spleeter produced (`AudioProcessor.Separation`);
- whether the browser's `play()` promise resolves.

## Model

| member | source | states |
|---|---|---|
| Decimal.DecimalRoundTrip | backend/versions/cat_version.py:69 | the decimal text of a frame index consists of digits and reads back as that index |
| Decimal.NatToDecimalInjective | backend/versions/cat_version.py:69 | two indices with the same decimal text are equal |
| Decimal.NatToDecimalDigits | backend/versions/cat_version.py:69 | the text is non-empty, all digits, and one character long exactly for 0..9 |
| Decimal.NatToDecimal | backend/versions/cat_version.py:69 | the decimal text of a natural number, as an f-string writes it; Decimal.DecimalToNat reads it back |
| Decimal.DecimalToNat | backend/versions/cat_version.py:69 | the value of a string of decimal digits |
| Decimal.Trunc | backend/versions/cat_version.py:79 | int() truncates toward zero: a non-negative value lies in [r, r + 1), a negative one in (r - 1, r] |
| Decimal.PadStart2 | frontend/src/components/uploadForm/AudioPlayer.jsx:101 | texts of two or more characters are unchanged; shorter ones are left-padded with '0' to length 2 |
| Decimal.IntToDecimal | frontend/src/components/uploadForm/AudioPlayer.jsx:101 | JavaScript template text of an integer: the digits, with a leading '-' when negative |
| Decimal.RoundHalfEven | backend/core/utils.py:28 | the rounded count is within half a unit of the exact value |
| Decimal.ThreeDigitsValue | backend/core/utils.py:28 | the three fractional digits read back as the thousandths they encode |
| Decimal.Fixed3RoundTrip | backend/core/utils.py:28 | the `.3f` text of a non-negative factor reads back as the factor rounded half-even to thousandths, within 0.0005 of it |
| Decimal.Fixed3 | backend/core/utils.py:28 | `format(x, ".3f")`: the sign, the integer part and three decimals of x rounded half to even |
| Decimal.ParseFixed3 | backend/core/utils.py:28 | reads "<digits>.<three digits>" back as a count of thousandths; any other text gives None |
| PosixPath.LastIndexOf | backend/core/audio_processor.py:14 | the result is -1 or an index holding the character, with no later occurrence |
| PosixPath.RStripSlashes | backend/core/audio_processor.py:32 | the result is a prefix with no trailing '/', and only slashes were removed |
| PosixPath.Join | backend/api/routes.py:21 | `os.path.join(a, b)`: b alone when it starts with '/', a + b when a is empty or ends in '/', a + "/" + b otherwise |
| PosixPath.Basename | backend/core/audio_processor.py:50 | `os.path.basename`: everything after the last '/' |
| PosixPath.Dirname | backend/core/audio_processor.py:32 | `os.path.dirname`: everything up to the last '/', trailing slashes stripped unless the head is slashes only |
| PosixPath.SplitextRoot | backend/core/audio_processor.py:14 | `os.path.splitext(p)[0]`: p up to its last '.' after the last '/', unless only dots precede that '.' in the last component; p itself otherwise |
| PosixPath.BasenameJoin | backend/core/audio_processor.py:16-17 | joining a name without '/' onto any directory makes that name the basename |
| PosixPath.DirnameJoinDirname | backend/core/audio_processor.py:51 | a non-empty name without '/' joined onto dirname(p) has dirname(p) as its dirname |
| PosixPath.DirnameShape | backend/core/audio_processor.py:32 | a dirname ends in '/' only when it consists of slashes |
| PosixPath.DirnameAppendNoSlash | backend/core/audio_processor.py:32 | appending characters other than '/' keeps the dirname |
| PosixPath.DirnameJoinSame | backend/core/audio_processor.py:16-17 | two names joined onto one directory have the same dirname |
| PosixPath.JoinPlain | backend/api/routes.py:21 | joining onto a directory not ending in '/' inserts exactly one '/' |
| PosixPath.JoinDistinct | backend/core/audio_processor.py:16-17 | different names joined onto one directory give different paths |
| PosixPath.BasenameDistinguishes | backend/api/routes.py:36-37 | paths with different basenames differ |
| PosixPath.SplitextRootEmpty | backend/core/audio_processor.py:14 | the root of splitext is empty exactly when the path is |
| PosixPath.SplitextRootNoSlash | backend/core/audio_processor.py:14 | the root of a name without '/' has no '/' |
| PosixPath.BasenameNoSlash | backend/core/audio_processor.py:14 | a name without '/' is its own basename |
| PosixPath.BasenameHasNoSlash | backend/core/audio_processor.py:50 | a basename never contains '/' |
| Audio.Silent | backend/versions/cat_version.py:48 | silence of d ms has max(d, 0) samples, all zero |
| Audio.Overlay | backend/versions/cat_version.py:80 | the base's length is kept; sample k is base + top[k - pos] inside [pos, pos + len(top)) and the base's elsewhere; the format is the larger of the two |
| Audio.Concat | backend/versions/cat_version.py:105 | `a + b` is a followed by b |
| Audio.Prefix | backend/versions/cat_version.py:102 | `s[:n]` is the first min(n, len(s)) milliseconds of s |
| Audio.OverlayCommutes | backend/versions/cat_version.py:79-80 | the order in which meows are laid on the canvas does not change the track |
| Audio.OverlayOnSilence | backend/versions/cat_version.py:79-80 | a clip laid on silence gives the clip's samples inside its span and silence outside |
| Audio.Read | backend/core/utils.py:35 | from_file succeeds exactly when the path exists, with the stored clip |
| Audio.NotFound | backend/core/utils.py:35 | the text of the FileNotFoundError that from_file raises for a missing path |
| Audio.FileStore.Export | backend/versions/cat_version.py:83 | export creates or replaces exactly the named file |
| Audio.FileStore.Exists | backend/core/utils.py:31 | `os.path.exists`: the path is in the file store |
| Audio.FileStore.Remove | backend/versions/cat_version.py:87-90 | removing deletes exactly the named file |
| Audio.FileStore.Load | backend/core/utils.py:35 | loading returns the stored clip or FileNotFoundError, changing nothing |
| Utils.EffectiveTarget | backend/core/utils.py:23 | targets below 50 ms become 50 ms; others are kept |
| Utils.TempoFactor | backend/core/utils.py:22-24 | the clip's length in seconds divided by the effective target |
| Utils.TempoFactorMeetsTarget | backend/core/utils.py:22-24 | the factor is positive for a non-empty clip, which played at that tempo lasts exactly the effective target |
| Utils.AtempoFilter | backend/core/utils.py:28 | "atempo=" followed by the tempo factor in `.3f` |
| Utils.StretchCommand | backend/core/utils.py:28 | the argument vector ffmpeg -y -i <temp input> -filter:a <atempo filter> <output> |
| Utils.StretchOutput | backend/core/utils.py:27-29 | what ffmpeg writes when run on the stretch command, reading the clip exported to the temporary input |
| Utils.StretchedFiles | backend/core/utils.py:26-33 | the files after a stretch: the temporary input written, the output set to ffmpeg's result, the temporary input removed |
| Utils.StretchCommandShape | backend/core/utils.py:26-28 | ffmpeg reads the temporary input and writes the output, and the filter text reads back as the factor rounded to thousandths |
| Utils.StretchedFilesEffect | backend/core/utils.py:26-33 | after a stretch the temporary input is gone, the output holds ffmpeg's result, and no other file changes |
| Utils.StretchMeowFfmpeg | backend/core/utils.py:20-35 | the new files are the stretch's effect, and the clip read back is what ffmpeg writes when run on the stretch command |
| Utils.PitchShiftSegment | backend/core/utils.py:7-18 | the shifted clip is mono, 16-bit and at the input's frame rate |
| CatVersion.ReferencePitchFallback | backend/versions/cat_version.py:40 | without a voiced frame, the reference pitch is 300 Hz |
| CatVersion.ReferencePitchInRange | backend/versions/cat_version.py:40 | when the voiced frames carry pitches in [lo, hi], the reference is their mean and lies in [lo, hi] |
| CatVersion.VoicedBounds | backend/versions/cat_version.py:40 | the sum of n voiced pitches in [lo, hi] lies between n·lo and n·hi |
| CatVersion.VoicedCountPositive | backend/versions/cat_version.py:40 | a voiced frame that carries a pitch makes the count positive |
| CatVersion.CleanPitch | backend/versions/cat_version.py:29 | a NaN pitch becomes 0; any other pitch is kept |
| CatVersion.ReferencePitch | backend/versions/cat_version.py:40 | the mean of the voiced frames' pitches, NaN frames skipped, when any frame is voiced (NaN when every voiced frame is NaN); 300 Hz otherwise |
| CatVersion.AmplitudeAtCases | backend/versions/cat_version.py:59 | a frame's amplitude is its RMS value, or 0.5 past the end of the RMS contour |
| CatVersion.Meows | backend/versions/cat_version.py:29-56 | a frame gets a meow when its pitch, NaN read as 0, is not 0 and it is voiced |
| CatVersion.AmplitudeAt | backend/versions/cat_version.py:59 | the frame's RMS amplitude, or 0.5 past the end of the RMS contour |
| CatVersion.FramesToTime | backend/versions/cat_version.py:66 | `librosa.frames_to_time` at 44.1 kHz with a hop of 512 samples |
| CatVersion.FrameDuration | backend/versions/cat_version.py:66 | the frame duration is at least 300 ms and five hops; at 44.1 kHz it is exactly 300 ms |
| CatVersion.TempName | backend/versions/cat_version.py:69 | the name temp_meow_<i>.wav |
| CatVersion.Position | backend/versions/cat_version.py:79 | the frame time in whole milliseconds, truncated |
| CatVersion.TempNameInjective | backend/versions/cat_version.py:69 | frames have pairwise different temporary names, none equal to the stretch's temporary input |
| CatVersion.Stretched | backend/versions/cat_version.py:72 | the meow stretched by ffmpeg to the frame duration, written to frame i's temporary file |
| CatVersion.MeowAt | backend/versions/cat_version.py:62-76 | the clip of frame i: stretched, shifted by the semitone distance to the reference pitch, and gained by 20·log10 of the amplitude |
| CatVersion.Track | backend/versions/cat_version.py:54-80 | the canvas after the first n frames: each meowing frame's clip overlaid at its position |
| CatVersion.TempNames | backend/versions/cat_version.py:69-70 | the temp_files list after n frames: the temporary names of the meowing frames, in frame order |
| CatVersion.TrackSamples | backend/versions/cat_version.py:54-80 | the walk keeps the canvas length; each millisecond is the canvas plus every meow placed over it |
| CatVersion.UncoveredContributesNothing | backend/versions/cat_version.py:79-80 | a millisecond no meow covers receives nothing |
| CatVersion.TrackSilentWhereUncovered | backend/versions/cat_version.py:47-80 | on the silent canvas, every millisecond no meow covers stays silent |
| CatVersion.TrackUnvoiced | backend/versions/cat_version.py:54-56 | frames that are unvoiced or have zero pitch leave the canvas unchanged |
| CatVersion.TempNamesExact | backend/versions/cat_version.py:69-70 | the recorded temporary names are exactly those of the meowing frames, each recorded once |
| CatVersion.FramesFiles | backend/versions/cat_version.py:72 | the files after the first n frames: one stretch into its temporary file per meowing frame |
| CatVersion.GeneratedFiles | backend/versions/cat_version.py:72-90 | the files a run leaves: the frames' stretches, the track exported, every recorded temporary file removed |
| CatVersion.FramesFilesOthers | backend/versions/cat_version.py:72 | the frame walk touches only temporary files |
| CatVersion.FramesFilesNoTempInput | backend/versions/cat_version.py:72 | once a frame has meowed, the stretch's temporary input is gone |
| CatVersion.GeneratedFilesEffect | backend/versions/cat_version.py:83-90 | afterwards no frame's temporary file is left, the output holds the track, and every other file is as it was |
| CatVersion.GenerateMeowVocals | backend/versions/cat_version.py:12-90 | the loop leaves exactly the generated files, with the track of the silent canvas exported to the output |
| CatVersion.AlignInstrumental | backend/versions/cat_version.py:100-105 | the instrumental cut to int(meow_duration·1000) ms, padded with int((meow − instr)·1000) ms of silence, or kept, as the durations compare |
| CatVersion.AlignInstrumentalCases | backend/versions/cat_version.py:100-105 | a longer instrumental is cut to the meow's duration, a shorter one padded with silence, and an equal one kept |
| CatVersion.FinalMix | backend/versions/cat_version.py:107-108 | the meow track overlaid from 0 on the aligned instrumental |
| CatVersion.FinalMixExactDurations | backend/versions/cat_version.py:97-108 | with exact durations the mix is as long as the meow track, and each sample is meow plus instrumental (0 past its end) |
| CatVersion.PaddedMixWithinOneMs | backend/versions/cat_version.py:103-105 | after padding, the mix is at most 1 ms short of int(meow_duration·1000) |
| CatVersion.MergeOutcome | backend/versions/cat_version.py:94-95 | the merge succeeds exactly when both input files exist |
| CatVersion.MergeMeowWithInstrumental | backend/versions/cat_version.py:92-110 | the result is the merge outcome; only a success exports the mix |
| AudioProcessor.StemPathsShape | backend/core/audio_processor.py:14-18 | both stems are in one directory, named vocals.wav and accompaniment.wav, and their paths differ |
| AudioProcessor.StemFileNames | backend/core/audio_processor.py:16-17 | the two stem file names are plain names and differ |
| AudioProcessor.BaseName | backend/core/audio_processor.py:14 | the input's basename without its extension |
| AudioProcessor.StemPaths | backend/core/audio_processor.py:14-18 | the dictionary separate_tracks returns: <folder>/<base name>/vocals.wav and …/accompaniment.wav |
| AudioProcessor.OutputFolder | backend/core/audio_processor.py:32 | spleeter_output joined onto the input's directory |
| AudioProcessor.OutputName | backend/core/audio_processor.py:50 | "processed_" followed by the input's basename |
| AudioProcessor.OutputPath | backend/core/audio_processor.py:51 | the output name joined onto the input's directory |
| AudioProcessor.OutputPathShape | backend/core/audio_processor.py:50-51 | the returned name is "processed_" + basename(input) and names the file written beside the input |
| AudioProcessor.SelectTrack | backend/core/audio_processor.py:44-47 | "vocals" keeps the vocals; every other mode keeps the accompaniment |
| AudioProcessor.SeparatedFiles | backend/core/audio_processor.py:13-18 | the files after separate_tracks: both stems written at their paths, or nothing changed on a failure |
| AudioProcessor.SeparateTracks | backend/core/audio_processor.py:10-18 | spleeter's stems are written to the returned paths, or its error propagates |
| AudioProcessor.ProcessedFiles | backend/core/audio_processor.py:36-52 | the files after process_audio: the separation's files plus the selected stem at the output path |
| AudioProcessor.ProcessedFilesEffect | backend/core/audio_processor.py:36-54 | on success the stem the mode selects ("vocals", or otherwise the accompaniment) is at the output path, both stems are at their paths, and every other file keeps its contents; no file is removed; a failure changes nothing |
| AudioProcessor.ProcessedPathIsNoStem | backend/core/audio_processor.py:40-51 | the processed file is at a path different from both stems, so the export overwrites neither |
| AudioProcessor.ProcessAudio | backend/core/audio_processor.py:28-58 | the result is the processed name or spleeter's message, and the files are the processed files |
| AudioProcessor.ApplyPitchShift | backend/core/audio_processor.py:20-26 | the samples are resampled from int(rate·2^(n/12)) back to the clip's own rate, and the format is unchanged |
| AudioProcessor.ApplyDefaultPitchShift | backend/core/audio_processor.py:20-26 | a call without n_semitones shifts by 4 semitones, upward: with a sound 2 ** x the intermediate rate is at least the clip's own |
| AudioProcessor.DefaultShiftRaisesRate | backend/core/audio_processor.py:20-22 | with a sound 2 ** x, the default shift of 4 semitones never lowers the intermediate rate |
| AudioProcessor.PitchedRate | backend/core/audio_processor.py:22 | the frame rate times 2^(n/12), truncated toward zero |
| AudioProcessor.PitchedRateDirection | backend/core/audio_processor.py:22 | when 2 ** x is 1 at 0, positive and non-decreasing: a shift of n ≥ 0 semitones never lowers the intermediate rate, n ≤ 0 never raises it or makes it negative, and n = 0 keeps it |
| Routes.SanitizeAt | backend/api/routes.py:13-15 | the substitution keeps the length and maps each listed character to '_' and every other character to itself |
| Routes.Sanitize | backend/api/routes.py:13-15 | each of the twelve characters backslash, slash, `*`, `?`, `:`, `"`, `<`, `>`, pipe, `(`, `)` and `&` replaced by '_', every other character kept |
| Routes.SanitizeClean | backend/api/routes.py:15 | the sanitized name contains no listed character, in particular no '/' |
| Routes.SanitizeIdempotent | backend/api/routes.py:15 | sanitizing twice equals sanitizing once |
| Routes.SanitizeFixedPoint | backend/api/routes.py:15 | a name is unchanged exactly when it contains no listed character |
| Routes.UploadPath | backend/api/routes.py:20-21 | the sanitized name joined onto the temp folder |
| Routes.UploadPathShape | backend/api/routes.py:20-21 | the upload is saved as temp/<sanitized name>, directly in temp |
| Routes.UploadFolderShape | backend/core/audio_processor.py:32 | for an upload, spleeter's output folder is temp/spleeter_output |
| Routes.UploadRoot | backend/core/audio_processor.py:37 | the stem directory name is the sanitized name without its extension; it is non-empty and free of '/' |
| Routes.UploadStems | backend/api/routes.py:28-33 | the stem paths separate_tracks gives the saved upload, in process_audio's output folder |
| Routes.UploadStemsShape | backend/api/routes.py:30-34 | the links are temp/spleeter_output/<root>/vocals.wav and …/accompaniment.wav |
| Routes.ProcessFileAsWritten | backend/api/routes.py:19-46 | /process as written: every request ends in a 500, with the save error or the missing-argument TypeError |
| Routes.AsWrittenAlwaysFails | backend/api/routes.py:28 | as written, every request fails with status 500 and, once saved, the missing-argument TypeError |
| Routes.AsWrittenCounterexample | backend/api/routes.py:28-34 | "song.mp3" in "Vocal and Music" mode gets the stem links from the intended route and a 500 as written |
| Routes.ProcessFile | backend/api/routes.py:19-46 | /process with the stems of the saved upload: the save, the separation and, for "Cat Version", the generate and merge steps in order, each failure a 500 |
| Routes.ProcessFileModes | backend/api/routes.py:19-46 | the dispatch table: links iff saved, separated and "Vocal and Music"; the final mix path iff every step succeeds in "Cat Version"; every failure is a 500, an unknown mode carrying "400: Invalid mode selected." |
| Routes.FilesAfterSeparation | backend/api/routes.py:25-28 | the files after the upload is saved and separated into its stems |
| Routes.Download | backend/api/routes.py:48-52 | a file response for exactly the existing paths, 404 "File not found" otherwise |
| Routes.StemLinksDownloadable | backend/api/routes.py:48-52 | both links of a successful request are different, and /download serves both |
| Routes.CatPathBasenames | backend/api/routes.py:36-37 | the meow vocal and the final mix are temp/meow_vocal_adjusted.wav and temp/final_meow_music.wav |
| Routes.UploadStemsBasenames | backend/api/routes.py:32-33 | the links end in vocals.wav and accompaniment.wav |
| Routes.CatVersionPathsDistinct | backend/api/routes.py:36-40 | the final mix, the meow vocal and both stems are four different files, so the merge overwrites none of its inputs |
| AudioPlayer.Rem60 | frontend/src/components/uploadForm/AudioPlayer.jsx:100 | the remainder has the sign of the time and magnitude below 60 |
| AudioPlayer.ClockParts | frontend/src/components/uploadForm/AudioPlayer.jsx:99-100 | for t ≥ 0 there are m ≥ 0 minutes and s in 0..59 seconds, with 60m + s = floor(t) |
| AudioPlayer.PadSecondsValue | frontend/src/components/uploadForm/AudioPlayer.jsx:101 | the padded seconds field is two digits and reads back as the seconds |
| AudioPlayer.ClockTextValue | frontend/src/components/uploadForm/AudioPlayer.jsx:101 | "<m>:<ss>" with s below 60 reads back as 60m + s seconds |
| AudioPlayer.FormatTimeRoundTrip | frontend/src/components/uploadForm/AudioPlayer.jsx:97-102 | the clock text of t ≥ 0 reads back as floor(t) seconds |
| AudioPlayer.FormatTimeDistinguishes | frontend/src/components/uploadForm/AudioPlayer.jsx:99-101 | different whole seconds are shown differently |
| AudioPlayer.FormatTimeNotFinite | frontend/src/components/uploadForm/AudioPlayer.jsx:98 | NaN and +Infinity show "0:00", like 0 |
| AudioPlayer.FormatTime | frontend/src/components/uploadForm/AudioPlayer.jsx:97-102 | NaN and +Infinity show "0:00"; a finite t shows floor(t / 60), ":" and floor(t % 60) padded to two digits; −Infinity shows "-Infinity:NaN" |
| AudioPlayer.InitialInv | frontend/src/components/uploadForm/AudioPlayer.jsx:5-9 | the initial state satisfies the invariant, with the volume slider at 1 |
| AudioPlayer.Initial | frontend/src/components/uploadForm/AudioPlayer.jsx:5-9 | the useState initial values: not playing, times 0, volume 1, unmuted, with the element paused at 0 and at full volume |
| AudioPlayer.PlayToggled | frontend/src/components/uploadForm/AudioPlayer.jsx:63-71 | no src: nothing; playing: the element is paused and isPlaying is false; otherwise isPlaying is true and the element plays iff play() succeeds |
| AudioPlayer.SliderChange | frontend/src/components/uploadForm/AudioPlayer.jsx:73-78 | with a duration, the player and the element move to offsetX / width · duration; with none, nothing changes |
| AudioPlayer.VolumeChange | frontend/src/components/uploadForm/AudioPlayer.jsx:80-85 | the stored and the element volume become v, muted iff v is 0 |
| AudioPlayer.MuteToggled | frontend/src/components/uploadForm/AudioPlayer.jsx:87-95 | unmuting restores the element volume to the stored one; muting sets it to 0 |
| AudioPlayer.SrcChanged | frontend/src/components/uploadForm/AudioPlayer.jsx:53-60 | with a new src, the element is paused and reloaded and isPlaying, currentTime and duration are reset |
| AudioPlayer.LoadedMetadata | frontend/src/components/uploadForm/AudioPlayer.jsx:15-19 | a non-zero element duration is taken over |
| AudioPlayer.TimeUpdate | frontend/src/components/uploadForm/AudioPlayer.jsx:22-26 | the element is at time t; a non-zero t is taken over as currentTime |
| AudioPlayer.SliderShowsElementVolume | frontend/src/components/uploadForm/AudioPlayer.jsx:132 | the volume slider shows the element's actual volume |
| AudioPlayer.SliderVolume | frontend/src/components/uploadForm/AudioPlayer.jsx:132 | the volume slider shows 0 when muted and the stored volume otherwise |
| AudioPlayer.TogglePlayEffect | frontend/src/components/uploadForm/AudioPlayer.jsx:63-71 | with no src nothing changes; otherwise isPlaying flips, a playing element is paused, and nothing else changes |
| AudioPlayer.TogglePlayTwice | frontend/src/components/uploadForm/AudioPlayer.jsx:63-71 | two presses with a successful play() restore the state |
| AudioPlayer.TogglePlayRejected | frontend/src/components/uploadForm/AudioPlayer.jsx:68-70 | after a rejected play(), the button shows Pause over a paused element |
| AudioPlayer.SliderChangeEffect | frontend/src/components/uploadForm/AudioPlayer.jsx:73-78 | a seek is ignored while the duration is 0; otherwise the player and the element move to the same time, proportional to the click and within 0..duration |
| AudioPlayer.VolumeChangeEffect | frontend/src/components/uploadForm/AudioPlayer.jsx:80-85 | the state and the element get the new volume; muted iff it is 0; nothing else changes |
| AudioPlayer.ToggleMuteEffect | frontend/src/components/uploadForm/AudioPlayer.jsx:87-95 | muting silences the element, unmuting restores the stored volume, and the stored volume never changes |
| AudioPlayer.ToggleMuteTwice | frontend/src/components/uploadForm/AudioPlayer.jsx:87-95 | muting twice returns to the same state |
| AudioPlayer.UnmuteAfterSlidingToZero | frontend/src/components/uploadForm/AudioPlayer.jsx:84-89 | unmuting after sliding to 0 shows unmuted while the element stays silent |
| AudioPlayer.SrcChangedEffect | frontend/src/components/uploadForm/AudioPlayer.jsx:53-60 | a new source stops playback and zeroes position and duration, keeping the volume settings |
| AudioPlayer.EventsEffect | frontend/src/components/uploadForm/AudioPlayer.jsx:15-26 | a zero duration or time is ignored; any other is taken over |
| AudioPlayer.StepsKeepInv | frontend/src/components/uploadForm/AudioPlayer.jsx:53-95 | every handler keeps the invariant, for values the controls and the element can produce |
| AudioPlayer.Player.constructor | frontend/src/components/uploadForm/AudioPlayer.jsx:5-9 | the hooks start at isPlaying false, times 0, volume 1, unmuted |
| AudioPlayer.Player.TogglePlay | frontend/src/components/uploadForm/AudioPlayer.jsx:63-71 | the fields change as the play step says |
| AudioPlayer.Player.HandleTimeSliderChange | frontend/src/components/uploadForm/AudioPlayer.jsx:73-78 | the fields change as the seek step says |
| AudioPlayer.Player.HandleVolumeChange | frontend/src/components/uploadForm/AudioPlayer.jsx:80-85 | the fields change as the volume step says |
| AudioPlayer.Player.ToggleMute | frontend/src/components/uploadForm/AudioPlayer.jsx:87-95 | the fields change as the mute step says |
| AudioPlayer.Player.SetSrc | frontend/src/components/uploadForm/AudioPlayer.jsx:53-60 | the fields change as the source-change step says |
| AudioPlayer.Player.HandleLoadedMetadata | frontend/src/components/uploadForm/AudioPlayer.jsx:15-19 | the fields change as the metadata step says |
| AudioPlayer.Player.HandleTimeUpdate | frontend/src/components/uploadForm/AudioPlayer.jsx:22-26 | the fields change as the time-update step says |

## Left out

- backend/app.py: the FastAPI application, CORS setup and its own `/process` and `/download` routes, which pass the mode straight to `process_audio` and never mount the router of backend/api/routes.py. It is setup and I/O plumbing, so it is not modelled.
- Pitch analysis (pyin), the RMS, the frame times and `librosa.load` of the vocal and of data/cat/meow.wav: these are numeric library calls, so their results are inputs of `CatVersion.GenerateMeowVocals`.
- `hz_to_midi`, the dB gain `20·log10(a + 1e-6)`, `librosa.effects.pitch_shift`, the resampler, `2 ** x` and ffmpeg itself: these are floating-point DSP, modelled as given functions in `Tools`. ffmpeg is a function of its argument vector and of the clip in the file named after `-i`.
- Utils.PitchShiftSegment: the int16 scaling and wrap-around of the shifted samples are not modelled; only the clip's format is stated.
- Audio.Overlay: pydub clamps sums to the sample width, while the model adds without saturation. It works at millisecond resolution, not per sample.
- Frame-rate and channel conversion inside overlay and `+`: only the resulting format is modelled.
- ffmpeg or spleeter failing to produce output: ffmpeg always writes its output file. A spleeter failure carries only its message.
- `os.makedirs` and directories: the file store is a flat map of paths, so the `exists` check in `/download` is true only for files.
- mp3/wav encoding and file formats: an exported clip reads back unchanged.
- Python's and JavaScript's floating-point arithmetic: times, factors and volumes are exact reals. Python's `.3f` is applied to the exact factor, and JavaScript's `String()` is modelled for integers only (no exponent form ≥ 1e21).
- `print`, `console.error` and the logging in `process_audio`'s handler: output only.
- A missing upload file name (None): the name is a string.
- The file handling of FastAPI's `UploadFile`: writing the upload is a step outcome (`Routes.Step`).
- Routes.ProcessFile: the generate and merge steps of the Cat Version branch are step outcomes. Their file effects are proved in `CatVersion` and not recomposed here.
- AudioPlayer: rendering, the `canplay` listener and `isLoading` (never read), registration of event listeners, remounting of the `<audio>` element, and React's batching of state updates.
- AudioPlayer.SliderChange: the click offset and the slider width are reals with a positive width. A non-finite duration is left out. `handleLoadedMetadata` and `handleTimeUpdate` take finite values, so NaN and Infinity durations are not modelled.
- AudioPlayer.FormatTime: NaN, ±Infinity and finite values are modelled, but not −0 or exponent notation.

## Findings

| source | as written | input that shows it | evidently intended | confidence | as-written member | corrected member |
|---|---|---|---|---|---|---|
| backend/api/routes.py:28 | `process_audio(file_path)` omits the required `mode` argument, so it raises a TypeError that the route reports as a 500. Even with a mode, its result is a file name string that the route then indexes like the stem dictionary. | any POST /process, e.g. file "song.mp3" with mode "Vocal and Music" | the route works with the stem paths of `separate_tracks` for the saved upload, in process_audio's output folder, and dispatches on the mode as lines 30-44 read | high, not executed | Routes.ProcessFileAsWritten (Routes.AsWrittenAlwaysFails, Routes.AsWrittenCounterexample) | Routes.ProcessFile (Routes.ProcessFileModes, Routes.UploadStemsShape, Routes.StemLinksDownloadable) |
