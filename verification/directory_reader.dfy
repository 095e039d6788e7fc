/** The directory mode of index.js: read the ignore patterns, pick the text files of a
    directory, generate one audio file per text file (phase one), then hand the generated
    files to the player (phase two). The collaborators are parameters: `read` is
    `FileUtils.readTextFile` (`None` for its `null`), `tts` is the speech engine's
    `generateAudioFile` for the configured speaker (`None` when it throws), `matches` is
    `minimatch`, and `relative` is `path.relative` from the program's directory. */
module DirectoryReader {
  import opened Common
  import opened Text
  import opened Sorting
  import opened TextFiles
  import opened Outcomes

  /** What reading `.readignore` produced. */
  datatype IgnoreFile = Absent | Unreadable | Content(text: string)

  predicate IsNewline(c: char) {
    c == '\n'
  }

  /** A trimmed line is kept when it is neither blank nor a `#` comment. */
  predicate IsPattern(line: string) {
    line != "" && !StartsWith(line, "#")
  }

  /** `lines.map(line => line.trim()).filter(line => line && !line.startsWith('#'))`. */
  function Patterns(lines: seq<string>): (r: seq<string>)
    ensures |r| <= |lines|
    ensures forall k :: 0 <= k < |r| ==> IsPattern(r[k])
    decreases |lines|
  {
    if lines == [] then []
    else
      var line := Trim(lines[|lines| - 1]);
      Patterns(lines[..|lines| - 1]) + (if IsPattern(line) then [line] else [])
  }

  /** The patterns of a file are those of its first lines followed by those of the rest: the
      file's order is kept. */
  lemma {:induction false} PatternsAppend(a: seq<string>, b: seq<string>)
    ensures Patterns(a + b) == Patterns(a) + Patterns(b)
    decreases |b|
  {
    if b == [] {
      assert a + b == a;
    } else {
      assert (a + b)[..|a + b| - 1] == a + b[..|b| - 1];
      PatternsAppend(a, b[..|b| - 1]);
    }
  }

  /** A pattern is kept exactly when some line trims to it and it is neither blank nor a
      comment. */
  lemma PatternsMember(lines: seq<string>, p: string)
    ensures p in Patterns(lines) <==> IsPattern(p) && exists k :: 0 <= k < |lines| && Trim(lines[k]) == p
  {
    if p in Patterns(lines) {
      var k := PatternFrom(lines, p);
    }
    if IsPattern(p) && exists k :: 0 <= k < |lines| && Trim(lines[k]) == p {
      var k :| 0 <= k < |lines| && Trim(lines[k]) == p;
      PatternKept(lines, p, k);
    }
  }

  /** Every pattern comes from a line. */
  lemma {:induction false} PatternFrom(lines: seq<string>, p: string) returns (k: nat)
    requires p in Patterns(lines)
    ensures IsPattern(p) && k < |lines| && Trim(lines[k]) == p
    decreases |lines|
  {
    var init := lines[..|lines| - 1];
    var t := Trim(lines[|lines| - 1]);
    assert Patterns(lines) == Patterns(init) + (if IsPattern(t) then [t] else []);
    if p in Patterns(init) {
      k := PatternFrom(init, p);
      assert init[k] == lines[k];
    } else {
      k := |lines| - 1;
    }
  }

  /** Every line that trims to a pattern yields it. */
  lemma {:induction false} PatternKept(lines: seq<string>, p: string, k: nat)
    requires IsPattern(p) && k < |lines| && Trim(lines[k]) == p
    ensures p in Patterns(lines)
    decreases |lines|
  {
    var init := lines[..|lines| - 1];
    var t := Trim(lines[|lines| - 1]);
    assert Patterns(lines) == Patterns(init) + (if IsPattern(t) then [t] else []);
    if k < |init| {
      assert init[k] == lines[k];
      PatternKept(init, p, k);
    }
  }

  /** `loadReadIgnorePatterns()`: the patterns of the file's lines, or `[]` when the file is
      missing or cannot be read. */
  function LoadReadIgnorePatterns(file: IgnoreFile): (r: seq<string>)
    ensures !file.Content? ==> r == []
    ensures file.Content? ==> forall p :: p in r <==>
      IsPattern(p) && exists k :: 0 <= k < |SplitWhere(file.text, IsNewline)| && Trim(SplitWhere(file.text, IsNewline)[k]) == p
  {
    match file
    case Content(text) =>
      var r := Patterns(SplitWhere(text, IsNewline));
      forall p ensures p in r <==> IsPattern(p) && exists k :: 0 <= k < |SplitWhere(text, IsNewline)| && Trim(SplitWhere(text, IsNewline)[k]) == p {
        PatternsMember(SplitWhere(text, IsNewline), p);
      }
      r
    case _ => []
  }

  /** `patterns.some(pattern => matches(relativePath, pattern) || matches(baseName, pattern))`. */
  function AnyPatternMatches(relativePath: string, baseName: string, patterns: seq<string>,
                             matches: (string, string) -> bool): (r: bool)
    ensures r <==> exists k :: 0 <= k < |patterns| && (matches(relativePath, patterns[k]) || matches(baseName, patterns[k]))
  {
    if patterns == [] then false
    else if matches(relativePath, patterns[0]) || matches(baseName, patterns[0]) then true
    else
      var r := AnyPatternMatches(relativePath, baseName, patterns[1..], matches);
      assert r ==> exists k :: 0 <= k < |patterns| && (matches(relativePath, patterns[k]) || matches(baseName, patterns[k])) by {
        if r {
          var k :| 0 <= k < |patterns[1..]| && (matches(relativePath, patterns[1..][k]) || matches(baseName, patterns[1..][k]));
          assert patterns[k + 1] == patterns[1..][k];
        }
      }
      assert (exists k :: 0 <= k < |patterns| && (matches(relativePath, patterns[k]) || matches(baseName, patterns[k]))) ==> r by {
        if exists k :: 0 <= k < |patterns| && (matches(relativePath, patterns[k]) || matches(baseName, patterns[k])) {
          var k :| 0 <= k < |patterns| && (matches(relativePath, patterns[k]) || matches(baseName, patterns[k]));
          assert k > 0 && patterns[1..][k - 1] == patterns[k];
        }
      }
      r
  }

  /** `shouldIgnoreFile(filePath, patterns)`, given the path relative to the program's
      directory and the base name: never with no patterns, otherwise exactly when some pattern
      matches either. */
  function ShouldIgnoreFile(relativePath: string, baseName: string, patterns: seq<string>,
                            matches: (string, string) -> bool): (r: bool)
    ensures patterns == [] ==> !r
    ensures r <==> exists k :: 0 <= k < |patterns| && (matches(relativePath, patterns[k]) || matches(baseName, patterns[k]))
  {
    if |patterns| == 0 then false else AnyPatternMatches(relativePath, baseName, patterns, matches)
  }

  /** The ignore test `handleDirectory` applies to the file `name` of `dirPath`. */
  function Ignored(dirPath: string, patterns: seq<string>, relative: string -> string,
                   matches: (string, string) -> bool): (r: string -> bool)
    ensures patterns == [] ==> forall name :: !r(name)
  {
    var test := name => ShouldIgnoreFile(relative(PathJoin(dirPath, name)), BaseName(PathJoin(dirPath, name)), patterns, matches);
    assert forall name :: test(name) == ShouldIgnoreFile(relative(PathJoin(dirPath, name)), BaseName(PathJoin(dirPath, name)), patterns, matches);
    test
  }

  /** The base name the ignore test matches is the entry's own name. */
  lemma IgnoredUsesName(dirPath: string, name: string, patterns: seq<string>, relative: string -> string,
                        matches: (string, string) -> bool)
    requires '/' !in name
    ensures Ignored(dirPath, patterns, relative, matches)(name) <==>
      exists k :: 0 <= k < |patterns| && (matches(relative(PathJoin(dirPath, name)), patterns[k]) || matches(name, patterns[k]))
  {
    BaseNameOfJoin(dirPath, name);
  }

  /** The sorted list of files `handleDirectory` reads: regular, not ignored, with a text
      extension. */
  function DirectoryTextFiles(dirPath: string, entries: seq<Entry>, patterns: seq<string>,
                              relative: string -> string, matches: (string, string) -> bool): (r: seq<string>)
    ensures Sorted(r)
    ensures multiset(r) == multiset(Listed(entries, Ignored(dirPath, patterns, relative, matches)))
  {
    Sort(Listed(entries, Ignored(dirPath, patterns, relative, matches)))
  }

  /** The audio file name for the file at sorted position `i`:
      `{name without extension}_{i + 1}.wav`. */
  function OutputName(fileName: string, i: nat): (r: string)
    ensures StartsWith(r, Stem(fileName) + "_") && EndsWith(r, ".wav")
  {
    Stem(fileName) + "_" + NatToString(i + 1) + ".wav"
  }

  /** `generateSingleFileAudio(filePath, ..., outputFileName)`: nothing for empty or unreadable
      content, otherwise what the speech engine produces. */
  function GenerateSingleFileAudio(content: Option<string>, outputFileName: string,
                                   tts: (string, string) -> Option<string>): (r: Option<string>)
    ensures content.None? || content == Some("") ==> r.None?
  {
    match content
    case None => None
    case Some(text) => if text == "" then None else tts(text, outputFileName)
  }

  /** What phase one keeps for the file at sorted position `i`: the generated path, unless
      generation failed, was skipped or returned an empty path. */
  function AudioAt(dirPath: string, fileName: string, i: nat, read: string -> Option<string>,
                   tts: (string, string) -> Option<string>): (r: Option<string>)
    ensures r.Some? ==> r.value != ""
    ensures read(PathJoin(dirPath, fileName)).None? || read(PathJoin(dirPath, fileName)) == Some("") ==> r.None?
  {
    match GenerateSingleFileAudio(read(PathJoin(dirPath, fileName)), OutputName(fileName, i), tts)
    case Some(p) => if p != "" then Some(p) else None
    case None => None
  }

  /** The outcomes of phase one, file by file in sorted order. */
  function AudioOutcomes(dirPath: string, textFiles: seq<string>, read: string -> Option<string>,
                         tts: (string, string) -> Option<string>): (r: seq<Option<string>>)
    ensures |r| == |textFiles|
    ensures forall i :: 0 <= i < |r| ==> r[i] == AudioAt(dirPath, textFiles[i], i, read, tts)
  {
    seq(|textFiles|, i requires 0 <= i < |textFiles| => AudioAt(dirPath, textFiles[i], i, read, tts))
  }

  /** What `handleDirectory` does: the generated paths, and the list handed to the player, if
      any. */
  datatype DirectoryRun = DirectoryRun(audioFilePaths: seq<string>, played: Option<seq<string>>)

  /** `handleDirectory(dirPath, ...)`. `listing` is `None` when reading the directory throws,
      which the function catches. */
  method HandleDirectory(dirPath: string, listing: Option<seq<Entry>>, ignoreFile: IgnoreFile,
                         relative: string -> string, matches: (string, string) -> bool,
                         read: string -> Option<string>, tts: (string, string) -> Option<string>)
    returns (run: DirectoryRun)
    ensures listing.None? ==> run == DirectoryRun([], None)
    ensures listing.Some? ==>
      var textFiles := DirectoryTextFiles(dirPath, listing.value, LoadReadIgnorePatterns(ignoreFile), relative, matches);
      run.audioFilePaths == Successes(AudioOutcomes(dirPath, textFiles, read, tts))
    ensures run.played.None? <==> run.audioFilePaths == []
    ensures run.played.Some? ==> run.played.value == run.audioFilePaths
  {
    var ignorePatterns := LoadReadIgnorePatterns(ignoreFile);
    if listing.None? {
      return DirectoryRun([], None);
    }
    var files := listing.value;
    var textFiles := Listed(files, Ignored(dirPath, ignorePatterns, relative, matches));
    if |textFiles| == 0 {
      assert DirectoryTextFiles(dirPath, files, ignorePatterns, relative, matches) == [];
      return DirectoryRun([], None);
    }
    textFiles := Sort(textFiles);
    var audioFilePaths := GenerateAll(dirPath, textFiles, read, tts);
    if |audioFilePaths| == 0 {
      return DirectoryRun([], None);
    }
    return DirectoryRun(audioFilePaths, Some(audioFilePaths));
  }

  /** Phase one of `handleDirectory`: each file in turn, keeping the generated paths and
      skipping a file whose content is empty or whose generation fails. */
  method GenerateAll(dirPath: string, textFiles: seq<string>, read: string -> Option<string>,
                     tts: (string, string) -> Option<string>) returns (audioFilePaths: seq<string>)
    ensures audioFilePaths == Successes(AudioOutcomes(dirPath, textFiles, read, tts))
  {
    ghost var outcomes := AudioOutcomes(dirPath, textFiles, read, tts);
    audioFilePaths := [];
    var i := 0;
    while i < |textFiles|
      invariant 0 <= i <= |textFiles|
      invariant audioFilePaths == Successes(outcomes[..i])
    {
      var fileName := textFiles[i];
      var filePath := PathJoin(dirPath, fileName);
      var outputFileName := OutputName(fileName, i);
      assert outcomes[..i + 1][..i] == outcomes[..i];
      var audioFilePath := GenerateSingleFileAudio(read(filePath), outputFileName, tts);
      if audioFilePath.Some? && audioFilePath.value != "" {
        audioFilePaths := audioFilePaths + [audioFilePath.value];
      }
      i := i + 1;
    }
    assert outcomes[..i] == outcomes;
  }

  /** A generated path is kept only if the engine produced it for some file, with that
      file's content and its numbered output name. */
  lemma GeneratedFromSomeFile(dirPath: string, textFiles: seq<string>, read: string -> Option<string>,
                              tts: (string, string) -> Option<string>, p: string)
    requires p in Successes(AudioOutcomes(dirPath, textFiles, read, tts))
    ensures exists i :: (0 <= i < |textFiles| && p != "" &&
      read(PathJoin(dirPath, textFiles[i])).Some? && read(PathJoin(dirPath, textFiles[i])).value != "" &&
      tts(read(PathJoin(dirPath, textFiles[i])).value, OutputName(textFiles[i], i)) == Some(p))
  {
    var outs := AudioOutcomes(dirPath, textFiles, read, tts);
    SuccessesMember(outs, p);
    var i :| 0 <= i < |outs| && outs[i] == Some(p);
    assert AudioAt(dirPath, textFiles[i], i, read, tts) == Some(p);
  }

  /** In `x + [c] + u` with no `c` in `u`, the character at `|x|` is the last `c`. */
  lemma LastSeparator(x: string, c: char, u: string)
    requires forall k :: 0 <= k < |u| ==> u[k] != c
    ensures (x + [c] + u)[|x|] == c
    ensures forall i :: |x| < i < |x + [c] + u| ==> (x + [c] + u)[i] != c
  {
    var s := x + [c] + u;
    forall i | |x| < i < |s| ensures s[i] != c {
      assert s[i] == u[i - |x| - 1];
    }
  }

  /** `x + [c] + u == y + [c] + v` with no `c` in `u` or `v` forces `u == v`: the text after
      the last `c` is determined. */
  lemma LastFieldDetermined(x: string, y: string, c: char, u: string, v: string)
    requires forall k :: 0 <= k < |u| ==> u[k] != c
    requires forall k :: 0 <= k < |v| ==> v[k] != c
    requires x + [c] + u == y + [c] + v
    ensures u == v
  {
    var s := x + [c] + u;
    LastSeparator(x, c, u);
    LastSeparator(y, c, v);
    assert |x| == |y|;
    assert u == s[|x| + 1..];
    assert v == (y + [c] + v)[|y| + 1..];
  }

  /** The digits and extension after the last '_' of an output name. */
  function NumberPart(i: nat): (r: string)
    ensures forall k :: 0 <= k < |r| ==> r[k] != '_'
  {
    NatToString(i + 1) + ".wav"
  }

  /** Files at different positions get different audio names, whatever their own names: the
      number before ".wav" is the position. */
  lemma OutputNamesDistinct(a: string, i: nat, b: string, j: nat)
    requires i != j
    ensures OutputName(a, i) != OutputName(b, j)
  {
    NumberedNamesDistinct(Stem(a), i, Stem(b), j);
  }

  lemma NumberedNamesDistinct(x: string, i: nat, y: string, j: nat)
    requires i != j
    ensures x + "_" + NatToString(i + 1) + ".wav" != y + "_" + NatToString(j + 1) + ".wav"
  {
    assert x + "_" + NatToString(i + 1) + ".wav" == x + ['_'] + NumberPart(i);
    assert y + "_" + NatToString(j + 1) + ".wav" == y + ['_'] + NumberPart(j);
    if x + ['_'] + NumberPart(i) == y + ['_'] + NumberPart(j) {
      LastFieldDetermined(x, y, '_', NumberPart(i), NumberPart(j));
      NumberPartInjective(i, j);
    }
  }

  lemma NumberPartInjective(i: nat, j: nat)
    requires NumberPart(i) == NumberPart(j)
    ensures i == j
  {
    var u := NatToString(i + 1);
    var v := NatToString(j + 1);
    assert |u| == |v|;
    assert u == NumberPart(i)[..|u|];
    assert v == NumberPart(j)[..|v|];
    NatToStringInjective(i + 1, j + 1);
  }
}
