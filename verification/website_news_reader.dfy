/** website-news-reader.js: read the website settings from the configuration, have the
    summarizer core process every URL, then turn the text files of each result's directory
    into audio (phase one) and hand all generated files to the player (phase two). The
    collaborators are parameters: `process` is `processUrls`, returning the `outputDir` of each
    result; `listing` is the directory read (`None` when `readdirSync` or a `statSync` throws);
    `read` is `FileUtils.readTextFile`; `tts` is the speech engine's `generateAudioFile` for
    the configured speaker (`None` when it throws). */
module WebsiteNewsReader {
  import opened Common
  import opened Text
  import opened Json
  import opened TextFiles
  import opened Outcomes
  import ConfigManager
  import TextSplitter
  import DirectoryReader
  import WebsiteSummarizerCore

  /** The settings `main` passes on: the URL list, the output directory and the summary
      length. */
  datatype Settings = Settings(urls: seq<Json>, outputDir: Json, summaryLength: Json)

  /** JavaScript's `a || b`, with `undefined` as `None`. */
  function OrElse(a: Option<Json>, b: Json): Json {
    if a.Some? && Truthy(a.value) then a.value else b
  }

  /** The settings of `main`, or `None` when `websites.urls` is not a non-empty array, which
      makes `main` exit with status 1. Falsy output directories and lengths fall back to
      "website_summaries" and "medium". */
  function ReaderSettings(config: Json): (r: Option<Settings>)
    ensures r.Some? ==> ConfigManager.Lookup(config, ["websites", "urls"]) == Some(JArr(r.value.urls)) && r.value.urls != []
    ensures r.None? ==> forall items :: ConfigManager.Lookup(config, ["websites", "urls"]) == Some(JArr(items)) ==> items == []
    ensures r.Some? ==> Truthy(r.value.outputDir) && Truthy(r.value.summaryLength)
    ensures r.Some? ==> (r.value.outputDir == JStr("website_summaries")
      || ConfigManager.Lookup(config, ["websites", "output_dir"]) == Some(r.value.outputDir))
    ensures r.Some? ==> (r.value.summaryLength == JStr("medium")
      || ConfigManager.Lookup(config, ["websites", "summary_length"]) == Some(r.value.summaryLength))
  {
    match ConfigManager.Lookup(config, ["websites", "urls"])
    case Some(JArr(items)) =>
      if items == [] then None
      else
        Some(Settings(items,
          OrElse(ConfigManager.Lookup(config, ["websites", "output_dir"]), JStr("website_summaries")),
          OrElse(ConfigManager.Lookup(config, ["websites", "summary_length"]), JStr("medium"))))
    case _ => None
  }

  /** The built-in configuration names no websites: without a configuration file that adds
      them, the tool exits. */
  lemma DefaultConfigHasNoUrls()
    ensures ReaderSettings(ConfigManager.DefaultConfig()).None?
  {
    var config := ConfigManager.DefaultConfig();
    assert "websites" !in config.fields;
    assert ConfigManager.Lookup(config, ["websites", "urls"]).None?;
  }

  /** A generated audio file: its path, the text file it was made from and the base name of
      that file's directory. */
  datatype AudioFile = AudioFile(path: string, fileName: string, dirName: string)

  /** The audio name for file `fileIndex` of directory `dirIndex`:
      `website_{dirIndex + 1}_{fileIndex + 1}.wav`. Its shape is stated by `AudioNameShape`
      and its injectivity by `AudioNamesDistinct`. */
  function AudioName(dirIndex: nat, fileIndex: nat): string {
    "website_" + NatToString(dirIndex + 1) + "_" + NatToString(fileIndex + 1) + ".wav"
  }

  /** Every audio name carries the `website_` prefix and the `.wav` extension. */
  lemma AudioNameShape(d: nat, f: nat)
    ensures StartsWith(AudioName(d, f), "website_") && EndsWith(AudioName(d, f), ".wav")
  {
    var n := AudioName(d, f);
    assert n == "website_" + (NatToString(d + 1) + "_" + NatToString(f + 1) + ".wav");
    assert n == ("website_" + NatToString(d + 1) + "_" + NatToString(f + 1)) + ".wav";
  }

  /** Different positions get different audio names, so no generated file overwrites
      another. */
  lemma AudioNamesDistinct(d: nat, f: nat, d': nat, f': nat)
    requires d != d' || f != f'
    ensures AudioName(d, f) != AudioName(d', f')
  {
    var a := NatToString(d + 1);
    var b := NatToString(d' + 1);
    if d == d' {
      DirectoryReader.NumberedNamesDistinct("website_" + a, f, "website_" + b, f');
    } else {
      if a == b {
        NatToStringInjective(d + 1, d' + 1);
      }
      assert AudioName(d, f) == "website_" + a + ['_'] + (NatToString(f + 1) + ".wav");
      assert AudioName(d', f') == "website_" + b + ['_'] + (NatToString(f' + 1) + ".wav");
      TextSplitter.DigitFieldsDiffer("website_", a, b, '_', NatToString(f + 1) + ".wav", NatToString(f' + 1) + ".wav");
    }
  }

  /** What phase one keeps for file `fileName` at position `f` of directory `d`: nothing when
      the file cannot be read or is empty, or when generation fails or yields an empty path;
      otherwise the generated path, labelled with the file and the directory's base name. */
  function FileAudio(dirPath: string, fileName: string, d: nat, f: nat,
                     read: string -> Option<string>, tts: (string, string) -> Option<string>): (r: Option<AudioFile>)
    ensures read(PathJoin(dirPath, fileName)) in {None, Some("")} ==> r.None?
    ensures r.Some? ==> r.value.path != "" && r.value.fileName == fileName && r.value.dirName == BaseName(dirPath)
    ensures r.Some? ==> (read(PathJoin(dirPath, fileName)).Some?
      && tts(read(PathJoin(dirPath, fileName)).value, AudioName(d, f)) == Some(r.value.path))
  {
    match read(PathJoin(dirPath, fileName))
    case None => None
    case Some(text) =>
      if text == "" then None
      else
        match tts(text, AudioName(d, f))
        case Some(p) => if p != "" then Some(AudioFile(p, fileName, BaseName(dirPath))) else None
        case None => None
  }

  /** The text files of one result directory, as `getTextFilesInDirectory` lists them. */
  function DirFiles(dirPath: string, listing: string -> Option<seq<Entry>>): seq<string> {
    GetTextFilesInDirectory(listing(dirPath))
  }

  /** The text files of every result directory, in result order. Both loops of
      `generateAndPlayAllAudio` list each directory, and see these lists. */
  function FileLists(dirs: seq<string>, listing: string -> Option<seq<Entry>>): (r: seq<seq<string>>)
    ensures |r| == |dirs|
  {
    if dirs == [] then []
    else FileLists(dirs[..|dirs| - 1], listing) + [DirFiles(dirs[|dirs| - 1], listing)]
  }

  /** The outcomes of phase one for directory `d`, whose text files are `files`, file by file
      in sorted order. */
  function DirOutcomes(dirPath: string, d: nat, files: seq<string>,
                       read: string -> Option<string>, tts: (string, string) -> Option<string>): (r: seq<Option<AudioFile>>)
    ensures |r| == |files|
    ensures forall f :: 0 <= f < |r| ==> r[f] == FileAudio(dirPath, files[f], d, f, read, tts)
  {
    seq(|files|, f requires 0 <= f < |files| => FileAudio(dirPath, files[f], d, f, read, tts))
  }

  /** The outcomes of phase one over the first `n` directories, directory after directory;
      `lists[d]` holds the text files of `dirs[d]`. */
  function AllOutcomes(dirs: seq<string>, lists: seq<seq<string>>, n: nat,
                       read: string -> Option<string>, tts: (string, string) -> Option<string>): (r: seq<Option<AudioFile>>)
    requires |lists| == |dirs| && n <= |dirs|
    ensures forall k :: 0 <= k < |r| && r[k].Some? ==> r[k].value.path != ""
  {
    if n == 0 then []
    else AllOutcomes(dirs, lists, n - 1, read, tts) + DirOutcomes(dirs[n - 1], n - 1, lists[n - 1], read, tts)
  }

  /** The number of text files in the first `n` directories: the total announced before
      phase one. */
  function TotalFiles(lists: seq<seq<string>>, n: nat): (r: nat)
    requires n <= |lists|
    ensures forall d :: 0 <= d < n ==> |lists[d]| <= r
  {
    if n == 0 then 0 else TotalFiles(lists, n - 1) + |lists[n - 1]|
  }

  /** Phase one looks at exactly as many files as it announces. */
  lemma {:induction false} AllOutcomesCount(dirs: seq<string>, lists: seq<seq<string>>, n: nat,
                                            read: string -> Option<string>, tts: (string, string) -> Option<string>)
    requires |lists| == |dirs| && n <= |dirs|
    ensures |AllOutcomes(dirs, lists, n, read, tts)| == TotalFiles(lists, n)
  {
    if n > 0 {
      AllOutcomesCount(dirs, lists, n - 1, read, tts);
    }
  }

  /** Every outcome over the first `n` directories is that of some file of one of them. */
  lemma {:induction false} AllOutcomesMember(dirs: seq<string>, lists: seq<seq<string>>, n: nat,
                                             read: string -> Option<string>, tts: (string, string) -> Option<string>,
                                             a: AudioFile)
    requires |lists| == |dirs| && n <= |dirs| && Some(a) in AllOutcomes(dirs, lists, n, read, tts)
    ensures exists d, f :: (0 <= d < n && 0 <= f < |lists[d]| &&
      FileAudio(dirs[d], lists[d][f], d, f, read, tts) == Some(a))
  {
    var last := DirOutcomes(dirs[n - 1], n - 1, lists[n - 1], read, tts);
    if Some(a) in last {
      var f :| 0 <= f < |last| && last[f] == Some(a);
      assert FileAudio(dirs[n - 1], lists[n - 1][f], n - 1, f, read, tts) == Some(a);
    } else {
      AllOutcomesMember(dirs, lists, n - 1, read, tts, a);
    }
  }

  /** Each collected audio file was generated from a text file of one of the result
      directories, under that file's position-numbered name, and carries that file's name
      and its directory's base name. */
  lemma AudioFileOrigin(dirs: seq<string>, listing: string -> Option<seq<Entry>>,
                        read: string -> Option<string>, tts: (string, string) -> Option<string>, a: AudioFile)
    requires a in Successes(AllOutcomes(dirs, FileLists(dirs, listing), |dirs|, read, tts))
    ensures exists d, f :: (0 <= d < |dirs| && 0 <= f < |DirFiles(dirs[d], listing)| &&
      a.fileName == DirFiles(dirs[d], listing)[f] && a.dirName == BaseName(dirs[d]) &&
      FileAudio(dirs[d], DirFiles(dirs[d], listing)[f], d, f, read, tts) == Some(a))
  {
    var lists := FileLists(dirs, listing);
    SuccessesMember(AllOutcomes(dirs, lists, |dirs|, read, tts), a);
    AllOutcomesMember(dirs, lists, |dirs|, read, tts, a);
    var d, f :| 0 <= d < |dirs| && 0 <= f < |lists[d]| && FileAudio(dirs[d], lists[d][f], d, f, read, tts) == Some(a);
    FileListsAt(dirs, listing, d);
  }

  /** The paths handed to the player: `allAudioFiles.map(audio => audio.path)`. */
  function AudioPaths(files: seq<AudioFile>): (r: seq<string>)
    ensures |r| == |files| && forall k :: 0 <= k < |r| ==> r[k] == files[k].path
  {
    seq(|files|, k requires 0 <= k < |files| => files[k].path)
  }

  /** What `generateAndPlayAllAudio` does: the announced total, the value its progress
      counter reaches, the collected audio files, and the paths handed to the player, if
      any. */
  datatype WebsiteRun = WebsiteRun(totalFiles: nat, processed: nat, audioFiles: seq<AudioFile>,
                                   played: Option<seq<string>>)

  /** `generateAndPlayAllAudio(results, configManager)` for the output directories `dirs` of
      the results: every text file of every directory is tried in order, the files whose
      audio was generated are collected in that order, and they are played only if there is
      at least one. */
  method GenerateAndPlayAllAudio(dirs: seq<string>, listing: string -> Option<seq<Entry>>,
                                 read: string -> Option<string>, tts: (string, string) -> Option<string>)
    returns (run: WebsiteRun)
    ensures run.totalFiles == TotalFiles(FileLists(dirs, listing), |dirs|)
    ensures run.processed == run.totalFiles
    ensures run.audioFiles == Successes(AllOutcomes(dirs, FileLists(dirs, listing), |dirs|, read, tts))
    ensures run.played.None? <==> run.audioFiles == []
    ensures run.played.Some? ==> run.played.value == AudioPaths(run.audioFiles)
  {
    var totalFiles := CountTextFiles(dirs, listing);
    var allAudioFiles, currentFileIndex := GenerateAll(dirs, listing, read, tts);
    if |allAudioFiles| == 0 {
      return WebsiteRun(totalFiles, currentFileIndex, [], None);
    }
    var audioPaths := AudioPaths(allAudioFiles);
    return WebsiteRun(totalFiles, currentFileIndex, allAudioFiles, Some(audioPaths));
  }

  /** The first loop of `generateAndPlayAllAudio`: the number of text files over all
      directories. */
  method CountTextFiles(dirs: seq<string>, listing: string -> Option<seq<Entry>>) returns (totalFiles: nat)
    ensures totalFiles == TotalFiles(FileLists(dirs, listing), |dirs|)
  {
    ghost var lists := FileLists(dirs, listing);
    totalFiles := 0;
    var d := 0;
    while d < |dirs|
      invariant 0 <= d <= |dirs|
      invariant totalFiles == TotalFiles(lists, d)
    {
      var files := GetTextFilesInDirectory(listing(dirs[d]));
      FileListsAt(dirs, listing, d);
      TotalFilesUnfold(lists, d + 1);
      totalFiles := totalFiles + |files|;
      d := d + 1;
    }
  }

  /** Phase one of `generateAndPlayAllAudio`: directory after directory, the collected files
      and the progress counter. */
  method GenerateAll(dirs: seq<string>, listing: string -> Option<seq<Entry>>,
                     read: string -> Option<string>, tts: (string, string) -> Option<string>)
    returns (allAudioFiles: seq<AudioFile>, currentFileIndex: nat)
    ensures allAudioFiles == Successes(AllOutcomes(dirs, FileLists(dirs, listing), |dirs|, read, tts))
    ensures currentFileIndex == TotalFiles(FileLists(dirs, listing), |dirs|)
  {
    ghost var lists := FileLists(dirs, listing);
    allAudioFiles := [];
    currentFileIndex := 0;
    var d := 0;
    while d < |dirs|
      invariant 0 <= d <= |dirs|
      invariant currentFileIndex == TotalFiles(lists, d)
      invariant allAudioFiles == Successes(AllOutcomes(dirs, lists, d, read, tts))
    {
      var textFiles := GetTextFilesInDirectory(listing(dirs[d]));
      FileListsAt(dirs, listing, d);
      var generated, count := GenerateDirectory(dirs[d], d, textFiles, read, tts, currentFileIndex);
      TotalFilesUnfold(lists, d + 1);
      AllOutcomesUnfold(dirs, lists, d + 1, read, tts);
      SuccessesAppend(AllOutcomes(dirs, lists, d, read, tts), DirOutcomes(dirs[d], d, lists[d], read, tts));
      allAudioFiles := allAudioFiles + generated;
      currentFileIndex := count;
      d := d + 1;
    }
  }

  lemma {:induction false} FileListsAt(dirs: seq<string>, listing: string -> Option<seq<Entry>>, d: nat)
    requires d < |dirs|
    ensures FileLists(dirs, listing)[d] == DirFiles(dirs[d], listing)
  {
    var init := dirs[..|dirs| - 1];
    if d < |init| {
      FileListsAt(init, listing, d);
      assert init[d] == dirs[d];
    }
  }

  lemma TotalFilesUnfold(lists: seq<seq<string>>, n: nat)
    requires 0 < n <= |lists|
    ensures TotalFiles(lists, n) == TotalFiles(lists, n - 1) + |lists[n - 1]|
  {
  }

  lemma AllOutcomesUnfold(dirs: seq<string>, lists: seq<seq<string>>, n: nat,
                          read: string -> Option<string>, tts: (string, string) -> Option<string>)
    requires |lists| == |dirs| && 0 < n <= |dirs|
    ensures AllOutcomes(dirs, lists, n, read, tts)
      == AllOutcomes(dirs, lists, n - 1, read, tts) + DirOutcomes(dirs[n - 1], n - 1, lists[n - 1], read, tts)
  {
  }

  /** The inner loop of phase one for directory `d`, whose text files are `textFiles`: the
      collected files, and the progress counter advanced by one per text file. */
  method GenerateDirectory(dirPath: string, d: nat, textFiles: seq<string>,
                           read: string -> Option<string>, tts: (string, string) -> Option<string>, start: nat)
    returns (generated: seq<AudioFile>, count: nat)
    ensures generated == Successes(DirOutcomes(dirPath, d, textFiles, read, tts))
    ensures count == start + |textFiles|
  {
    ghost var outcomes := DirOutcomes(dirPath, d, textFiles, read, tts);
    generated := [];
    count := start;
    var f := 0;
    while f < |textFiles|
      invariant 0 <= f <= |textFiles|
      invariant count == start + f
      invariant generated == Successes(outcomes[..f])
    {
      var fileName := textFiles[f];
      var filePath := PathJoin(dirPath, fileName);
      var outputFileName := AudioName(d, f);
      count := count + 1;
      assert outcomes[..f + 1][..f] == outcomes[..f];
      var fileContent := read(filePath);
      if fileContent.Some? && fileContent.value != "" {
        var audioFilePath := tts(fileContent.value, outputFileName);
        if audioFilePath.Some? && audioFilePath.value != "" {
          generated := generated + [AudioFile(audioFilePath.value, fileName, BaseName(dirPath))];
        }
      }
      f := f + 1;
    }
    assert outcomes[..f] == outcomes;
  }

  /** How `main` ends: exit status 1 for missing URLs, a message when no URL was processed, or
      the audio phases. */
  datatype RunOutcome = MissingUrls | NoResults | Finished(run: WebsiteRun)

  /** The directories `generateAndPlayAllAudio` reads: each result's `outputDir`, in order. */
  function OutputDirs(results: seq<WebsiteSummarizerCore.ProcessResult>): (r: seq<string>)
    ensures |r| == |results|
    ensures forall k :: 0 <= k < |r| ==> r[k] == results[k].outputDir
  {
    seq(|results|, k requires 0 <= k < |results| => results[k].outputDir)
  }

  /** `main()` on a loaded configuration; `process` stands for `processUrls(urls, outputDir,
      summaryLength)` with the settings read from it. */
  method RunReader(config: Json, process: Settings -> seq<WebsiteSummarizerCore.ProcessResult>,
                   listing: string -> Option<seq<Entry>>,
                   read: string -> Option<string>, tts: (string, string) -> Option<string>)
    returns (outcome: RunOutcome)
    ensures ReaderSettings(config).None? <==> outcome == MissingUrls
    ensures ReaderSettings(config).Some? && process(ReaderSettings(config).value) == [] ==> outcome == NoResults
    ensures ReaderSettings(config).Some? && process(ReaderSettings(config).value) != [] ==> outcome.Finished?
    ensures outcome.Finished? ==> (ReaderSettings(config).Some? &&
      var dirs := OutputDirs(process(ReaderSettings(config).value));
      dirs != [] && outcome.run.totalFiles == TotalFiles(FileLists(dirs, listing), |dirs|)
      && outcome.run.processed == outcome.run.totalFiles
      && outcome.run.audioFiles == Successes(AllOutcomes(dirs, FileLists(dirs, listing), |dirs|, read, tts))
      && (outcome.run.played.None? <==> outcome.run.audioFiles == [])
      && (outcome.run.played.Some? ==> outcome.run.played.value == AudioPaths(outcome.run.audioFiles)))
  {
    var settings := ReaderSettings(config);
    if settings.None? {
      return MissingUrls;
    }
    var results := process(settings.value);
    if |results| == 0 {
      return NoResults;
    }
    var run := GenerateAndPlayAllAudio(OutputDirs(results), listing, read, tts);
    return Finished(run);
  }
}
