/** backend/api/routes.py: the upload file name sanitizer, the /process
    dispatch on the requested mode, and /download. */
module Routes {
  import opened Audio
  import opened PosixPath
  import AudioProcessor

  /** The twelve characters the sanitizer replaces by an underscore. */
  predicate Forbidden(c: char)
  {
    c in {'\\', '/', '*', '?', ':', '\"', '<', '>', '|', '(', ')', '&'}
  }

  function SanitizeChar(c: char): char
  {
    if Forbidden(c) then '_' else c
  }

  /** sanitize_filename: every forbidden character becomes '_'. */
  function Sanitize(s: string): string
  {
    if s == [] then [] else Sanitize(s[..|s| - 1]) + [SanitizeChar(s[|s| - 1])]
  }

  predicate Clean(s: string)
  {
    forall i :: 0 <= i < |s| ==> !Forbidden(s[i])
  }

  /** The substitution is character by character: same length, each
      forbidden character replaced by '_', every other one kept. */
  lemma {:induction false} SanitizeAt(s: string)
    ensures |Sanitize(s)| == |s|
    ensures forall i :: 0 <= i < |s| ==> Sanitize(s)[i] == SanitizeChar(s[i])
  {
    if s != [] {
      SanitizeAt(s[..|s| - 1]);
    }
  }

  /** The sanitized name holds no forbidden character, in particular no '/'. */
  lemma {:induction false} SanitizeClean(s: string)
    ensures Clean(Sanitize(s)) && NoSlash(Sanitize(s))
  {
    SanitizeAt(s);
  }

  /** Sanitizing twice changes nothing more. */
  lemma {:induction false} SanitizeIdempotent(s: string)
    ensures Sanitize(Sanitize(s)) == Sanitize(s)
  {
    SanitizeAt(s);
    SanitizeAt(Sanitize(s));
  }

  /** A name is left alone exactly when it is already clean. */
  lemma {:induction false} SanitizeFixedPoint(s: string)
    ensures Sanitize(s) == s <==> Clean(s)
  {
    SanitizeAt(s);
    if Sanitize(s) == s {
      forall i | 0 <= i < |s|
        ensures !Forbidden(s[i])
      {
        assert SanitizeChar(s[i]) == s[i];
      }
    }
  }

  const UploadFolder: string := "temp"
  const MeowVocalFile: string := "meow_vocal_adjusted.wav"
  const FinalMeowMusicFile: string := "final_meow_music.wav"
  const MeowVocalPath: string := Join(UploadFolder, MeowVocalFile)
  const FinalMeowMusicPath: string := Join(UploadFolder, FinalMeowMusicFile)

  /** join("temp", sanitize_filename(filename)): where the upload is saved. */
  function UploadPath(filename: string): string
  {
    Join(UploadFolder, Sanitize(filename))
  }

  /** The upload lands directly in temp/ under its sanitized name. */
  lemma UploadPathShape(filename: string)
    ensures UploadPath(filename) == "temp/" + Sanitize(filename)
    ensures Basename(UploadPath(filename)) == Sanitize(filename)
    ensures Dirname(UploadPath(filename)) == UploadFolder
  {
    var s := Sanitize(filename);
    SanitizeClean(filename);
    JoinPlain(UploadFolder, s);
    BasenameJoin(UploadFolder, s);
    DirnameAppendNoSlash("temp/", s);
    assert "temp/" + s == UploadFolder + "/" + s;
    assert Dirname("temp/") == "temp" by {
      LastIndexOfMax("temp/", '/', 4);
      assert "temp/"[..5] == "temp/";
      assert !AllSlashes("temp/") by { assert "temp/"[0] != '/'; }
    }
  }

  /** The stems of the upload: separate_tracks on the saved file, with
      process_audio's output folder. */
  function UploadStems(filename: string): AudioProcessor.Stems
  {
    var path := UploadPath(filename);
    AudioProcessor.StemPaths(path, AudioProcessor.OutputFolder(path))
  }

  /** Where spleeter writes the stems of an upload: temp/spleeter_output. */
  const SpleeterFolder: string := UploadFolder + "/" + AudioProcessor.StemFolder

  /** process_audio's output folder for an upload is temp/spleeter_output. */
  lemma UploadFolderShape(filename: string)
    ensures AudioProcessor.OutputFolder(UploadPath(filename)) == SpleeterFolder
  {
    UploadPathShape(filename);
    AudioProcessor.StemFileNames();
    JoinPlain(UploadFolder, AudioProcessor.StemFolder);
  }

  lemma SpleeterFolderPlain()
    ensures SpleeterFolder != [] && SpleeterFolder[|SpleeterFolder| - 1] != '/'
  {
    assert SpleeterFolder[|SpleeterFolder| - 1] == AudioProcessor.StemFolder[|AudioProcessor.StemFolder| - 1];
  }

  lemma JoinTwice(f: string, d: string, n: string)
    requires f != [] && f[|f| - 1] != '/'
    requires d != [] && NoSlash(d) && NoSlash(n)
    ensures Join(Join(f, d), n) == f + "/" + d + "/" + n
  {
    JoinPlain(f, d);
    var j := f + "/" + d;
    assert j[|j| - 1] == d[|d| - 1];
    JoinPlain(j, n);
  }

  /** For a non-empty upload name the stems are
      temp/spleeter_output/<root>/vocals.wav and .../accompaniment.wav,
      where root is the sanitized name without its extension. */
  lemma UploadStemsShape(filename: string)
    requires filename != []
    ensures UploadStems(filename).vocals
         == SpleeterFolder + "/" + SplitextRoot(Sanitize(filename)) + "/" + AudioProcessor.VocalsFile
    ensures UploadStems(filename).accompaniment
         == SpleeterFolder + "/" + SplitextRoot(Sanitize(filename)) + "/" + AudioProcessor.AccompanimentFile
  {
    var root := SplitextRoot(Sanitize(filename));
    UploadRoot(filename);
    UploadFolderShape(filename);
    SpleeterFolderPlain();
    AudioProcessor.StemFileNames();
    JoinTwice(SpleeterFolder, root, AudioProcessor.VocalsFile);
    JoinTwice(SpleeterFolder, root, AudioProcessor.AccompanimentFile);
  }

  /** The directory name spleeter uses for an upload: the sanitized name
      without its extension, never empty for a non-empty name, free of '/'. */
  lemma UploadRoot(filename: string)
    requires filename != []
    ensures AudioProcessor.BaseName(UploadPath(filename)) == SplitextRoot(Sanitize(filename))
    ensures SplitextRoot(Sanitize(filename)) != [] && NoSlash(SplitextRoot(Sanitize(filename)))
  {
    var s := Sanitize(filename);
    UploadPathShape(filename);
    SanitizeAt(filename);
    SanitizeClean(filename);
    SplitextRootEmpty(s);
    SplitextRootNoSlash(s);
  }

  /** How one step of the request ended: normally, or by raising an
      exception with the given message. */
  datatype Step = Done | Raised(message: string)

  /** The JSON bodies and responses of the two routes. */
  datatype Response =
    | StemLinks(vocalsLink: string, musicLink: string)
    | FinalMeowMusic(path: string)
    | FileResponse(path: string)
    | HttpError(status: nat, detail: string)

  /** str() of the HTTPException(400) raised for an unknown mode, which the
      route's own handler turns into a 500. */
  const InvalidModeDetail: string := "400: Invalid mode selected."

  /** The TypeError raised by calling process_audio without its mode. */
  const MissingModeDetail: string :=
    "AudioProcessor.process_audio() missing 1 required positional argument: 'mode'"

  /** process_file as written: after saving the upload it calls
      process_audio with one argument, which raises before any mode is
      looked at. */
  function ProcessFileAsWritten(filename: string, mode: string, save: Step): Response
  {
    if save.Raised? then HttpError(500, save.message)
    else HttpError(500, MissingModeDetail)
  }

  /** As written, no request to /process succeeds. */
  lemma AsWrittenAlwaysFails(filename: string, mode: string, save: Step)
    ensures ProcessFileAsWritten(filename, mode, save).HttpError?
    ensures ProcessFileAsWritten(filename, mode, save).status == 500
    ensures save.Done? ==> ProcessFileAsWritten(filename, mode, save).detail == MissingModeDetail
  {
  }

  /** process_file with the stems taken from separate_tracks, as the
      dispatch reads them: save, separate, then branch on the mode. */
  function ProcessFile(filename: string, mode: string, save: Step, separation: AudioProcessor.Separation,
                       generate: Step, merge: Step): (r: Response)
  {
    if save.Raised? then HttpError(500, save.message)
    else if separation.Failed? then HttpError(500, separation.message)
    else if mode == "Vocal and Music" then
      StemLinks(UploadStems(filename).vocals, UploadStems(filename).accompaniment)
    else if mode == "Cat Version" then
      if generate.Raised? then HttpError(500, generate.message)
      else if merge.Raised? then HttpError(500, merge.message)
      else FinalMeowMusic(FinalMeowMusicPath)
    else HttpError(500, InvalidModeDetail)
  }

  /** The dispatch table: which outcome each mode and step outcome gives.
      Every failure, including an unknown mode, is reported as a 500. */
  lemma ProcessFileModes(filename: string, mode: string, save: Step, separation: AudioProcessor.Separation,
                         generate: Step, merge: Step)
    ensures var r := ProcessFile(filename, mode, save, separation, generate, merge);
      && (r.HttpError? ==> r.status == 500)
      && (r.StemLinks? <==> save.Done? && separation.Separated? && mode == "Vocal and Music")
      && (r.FinalMeowMusic? <==>
            save.Done? && separation.Separated? && mode == "Cat Version" && generate.Done? && merge.Done?)
      && (r.FinalMeowMusic? ==> r.path == FinalMeowMusicPath)
      && (save.Done? && separation.Separated? && mode != "Vocal and Music" && mode != "Cat Version" ==>
            r == HttpError(500, InvalidModeDetail))
      && !r.FileResponse?
  {
  }

  /** The input that shows the defect: a valid request the intended route
      answers with the stem links is answered with a 500 as written. */
  lemma AsWrittenCounterexample(vocals: Segment, accompaniment: Segment)
    ensures ProcessFile("song.mp3", "Vocal and Music", Done, AudioProcessor.Separated(vocals, accompaniment),
                        Done, Done).StemLinks?
    ensures ProcessFileAsWritten("song.mp3", "Vocal and Music", Done) == HttpError(500, MissingModeDetail)
  {
  }

  /** The files after a request: the upload saved, then the stems written. */
  function FilesAfterSeparation(files: map<string, Segment>, filename: string, upload: Segment,
                                separation: AudioProcessor.Separation): map<string, Segment>
  {
    var path := UploadPath(filename);
    AudioProcessor.SeparatedFiles(files[path := upload], separation, path, AudioProcessor.OutputFolder(path))
  }

  /** download_file: 404 unless the path exists. */
  function Download(files: map<string, Segment>, path: string): (r: Response)
    ensures r.FileResponse? <==> path in files
    ensures !r.FileResponse? ==> r == HttpError(404, "File not found")
    ensures r.FileResponse? ==> r.path == path
  {
    if path !in files then HttpError(404, "File not found") else FileResponse(path)
  }

  /** Both links of a successful "Vocal and Music" request can be
      downloaded afterwards, and the two links differ. */
  lemma StemLinksDownloadable(files: map<string, Segment>, filename: string, upload: Segment,
                              separation: AudioProcessor.Separation, generate: Step, merge: Step)
    requires ProcessFile(filename, "Vocal and Music", Done, separation, generate, merge).StemLinks?
    ensures var r := ProcessFile(filename, "Vocal and Music", Done, separation, generate, merge);
      var after := FilesAfterSeparation(files, filename, upload, separation);
      && Download(after, r.vocalsLink) == FileResponse(r.vocalsLink)
      && Download(after, r.musicLink) == FileResponse(r.musicLink)
      && r.vocalsLink != r.musicLink
  {
    var path := UploadPath(filename);
    AudioProcessor.StemPathsShape(path, AudioProcessor.OutputFolder(path));
  }

  lemma CatPathBasenames()
    ensures Basename(FinalMeowMusicPath) == FinalMeowMusicFile
    ensures Basename(MeowVocalPath) == MeowVocalFile
  {
    assert NoSlash(FinalMeowMusicFile) && NoSlash(MeowVocalFile);
    BasenameJoin(UploadFolder, FinalMeowMusicFile);
    BasenameJoin(UploadFolder, MeowVocalFile);
  }

  lemma UploadStemsBasenames(filename: string)
    ensures Basename(UploadStems(filename).vocals) == AudioProcessor.VocalsFile
    ensures Basename(UploadStems(filename).accompaniment) == AudioProcessor.AccompanimentFile
  {
    var path := UploadPath(filename);
    AudioProcessor.StemPathsShape(path, AudioProcessor.OutputFolder(path));
  }

  /** The cat-version merge never overwrites what it reads: the final mix,
      the meow vocal and both stems are four different files. */
  lemma CatVersionPathsDistinct(filename: string)
    ensures FinalMeowMusicPath != MeowVocalPath
    ensures FinalMeowMusicPath != UploadStems(filename).vocals
    ensures FinalMeowMusicPath != UploadStems(filename).accompaniment
    ensures MeowVocalPath != UploadStems(filename).vocals
    ensures MeowVocalPath != UploadStems(filename).accompaniment
  {
    var stems := UploadStems(filename);
    CatPathBasenames();
    UploadStemsBasenames(filename);
    assert |FinalMeowMusicFile| == 20 && |MeowVocalFile| == 23;
    assert |AudioProcessor.VocalsFile| == 10 && |AudioProcessor.AccompanimentFile| == 17;
    BasenameDistinguishes(FinalMeowMusicPath, MeowVocalPath);
    BasenameDistinguishes(FinalMeowMusicPath, stems.vocals);
    BasenameDistinguishes(FinalMeowMusicPath, stems.accompaniment);
    BasenameDistinguishes(MeowVocalPath, stems.vocals);
    BasenameDistinguishes(MeowVocalPath, stems.accompaniment);
  }
}
