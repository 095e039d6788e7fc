/** The per-URL summariser of lib/website-summarizer-core.js and its TypeScript twin
    src/lib/website-summarizer-core.ts: fetch a page, clean its text, pace the LLM requests
    with a fresh token limiter, summarise, and write the summary as split reading files and
    a report under a directory named after the URL. The outside world is a parameter
    (`Env`): the page fetch, the document splitter, the summarisation chain, URL parsing,
    the clock and the date. */
module WebsiteSummarizerCore {
  import opened Common
  import opened Text
  import opened Json
  import opened Articles
  import opened Outcomes
  import TextUtils
  import TextSplitter
  import ConfigManager
  import RateLimiter

  /** The parts of `new URL(url)` the directory name uses. */
  datatype UrlParts = UrlParts(hostname: string, pathname: string)

  /** A calendar day as `Date` reports it: the full year, the month index from 0 and the day
      of the month. */
  datatype Day = Day(year: nat, monthIndex: nat, date: nat)

  /** What the summariser depends on outside the model:
      - `fetch(url)`: the page, `None` when fetching throws;
      - `documents(text)`: how many documents the 30000/1000 character splitter makes, or
        `None` when a step before the first limiter call throws (`new ChatOpenAI`, which
        throws without an API key, `createDocuments`, the prompt templates or
        `loadSummarizationChain`);
      - `chain(instruction, text)`: the summary text of the map-reduce chain prompted with the
        length instruction, `None` when it throws;
      - `parse(url)`: `new URL(url)`, `None` when it throws;
      - `clock(url, k)`: the time in milliseconds of the `k`-th limiter call for `url`;
      - `pubDate`, `reportDate`: the `toLocaleString('ja-JP')` readings of the article and the
        report; `today`: the day the TypeScript version names its directory after. */
  datatype Env = Env(
    fetch: string -> Option<string>,
    documents: string -> Option<nat>,
    chain: (string, string) -> Option<string>,
    parse: string -> Option<UrlParts>,
    clock: (string, nat) -> int,
    pubDate: string,
    reportDate: string,
    today: Day)

  /** The object `processUrl` resolves to. */
  datatype ProcessResult = ProcessResult(url: string, summaryFile: string, createdFiles: seq<string>,
                                         summary: string, outputDir: string)

  /** One `waitIfNeeded` call: the tokens it announced and the sleeps it performed. */
  datatype LimiterCall = LimiterCall(tokens: int, waits: seq<RateLimiter.Wait>)

  const MaxRequests := 200
  const MaxTokens := 150000
  const TimeWindow := 60000
  const ChunkSize := 30000
  /** `Math.ceil(30000 / 4)`. */
  const EstimatedTokensPerChunk := (ChunkSize + 3) / 4
  /** The number of calls a fresh limiter takes before the token budget can bind. */
  const QuietCalls := MaxTokens / EstimatedTokensPerChunk
  const ReportName := "website_summary_report.md"
  const SummaryPrefix := "website_summary_"

  // ---------------------------------------------------------------------------------------
  // The directory names

  /** `s` with every character that `bad` selects replaced by '_'. */
  function Underscore(s: string, bad: char -> bool): (r: string)
    ensures |r| == |s|
    ensures forall i :: 0 <= i < |s| ==> r[i] == (if bad(s[i]) then '_' else s[i])
  {
    if s == [] then [] else Underscore(s[..|s| - 1], bad) + [if bad(s[|s| - 1]) then '_' else s[|s| - 1]]
  }

  predicate IsDot(c: char) {
    c == '.'
  }

  predicate IsSlashOrDot(c: char) {
    c == '/' || c == '.'
  }

  /** The URL's sub-directory name: the hostname with '.' replaced by '_', then the pathname
      with '/' and '.' replaced by '_', cut to 50 code units. It never holds a '.', holds a
      '/' only where the hostname did, and is at most 50 long. */
  function UrlSubdir(hostname: string, pathname: string): (r: string)
    ensures |r| <= 50
    ensures |r| == if |hostname| + |pathname| < 50 then |hostname| + |pathname| else 50
    ensures forall i :: 0 <= i < |r| ==> r[i] != '.'
    ensures forall i :: 0 <= i < |r| && i >= |hostname| ==> r[i] != '/'
    ensures forall i :: 0 <= i < |r| && i < |hostname| ==> r[i] == (if hostname[i] == '.' then '_' else hostname[i])
    ensures forall i :: 0 <= i < |r| && i >= |hostname| ==>
      r[i] == (if pathname[i - |hostname|] in "/." then '_' else pathname[i - |hostname|])
  {
    var full := Underscore(hostname, IsDot) + Underscore(pathname, IsSlashOrDot);
    if |full| <= 50 then full else full[..50]
  }

  /** A hostname, which never holds a '/', gives a name without '/': a single directory. */
  lemma SubdirIsOneName(hostname: string, pathname: string)
    requires forall i :: 0 <= i < |hostname| ==> hostname[i] != '/'
    ensures '/' !in UrlSubdir(hostname, pathname)
  {
    var r := UrlSubdir(hostname, pathname);
    forall i | 0 <= i < |r| ensures r[i] != '/' {
    }
  }

  /** `YYYY-MM-DD` of the TypeScript version: the year, then the month (from 1) and the day
      padded to two digits. */
  function DateDirName(day: Day): (r: string)
    ensures forall i :: 0 <= i < |r| ==> IsDigit(r[i]) || r[i] == '-'
  {
    NatToString(day.year) + "-" + Pad2(day.monthIndex + 1) + "-" + Pad2(day.date)
  }

  /** For a four-digit year and a real month and day, the name is ten characters: digits
      with '-' at positions 4 and 7. */
  lemma DateDirShape(day: Day)
    requires 1000 <= day.year <= 9999 && day.monthIndex < 12 && 1 <= day.date <= 31
    ensures var r := DateDirName(day);
      |r| == 10 && r[4] == '-' && r[7] == '-'
      && forall i :: 0 <= i < 10 && i != 4 && i != 7 ==> IsDigit(r[i])
  {
    FourDigits(day.year);
  }

  lemma FourDigits(n: nat)
    requires 1000 <= n <= 9999
    ensures |NatToString(n)| == 4
  {
    assert |NatToString(n / 10)| == 3 by {
      assert |NatToString(n / 100)| == 2 by {
        assert |NatToString(n / 1000)| == 1;
      }
    }
  }

  /** Different days with months and days of at most two digits get different names, so
      the runs of different days never share a directory. */
  lemma DateDirInjective(a: Day, b: Day)
    requires a.monthIndex + 1 < 100 && a.date < 100 && b.monthIndex + 1 < 100 && b.date < 100
    requires DateDirName(a) == DateDirName(b)
    ensures a == b
  {
    DashFields(NatToString(a.year), Pad2(a.monthIndex + 1), Pad2(a.date),
               NatToString(b.year), Pad2(b.monthIndex + 1), Pad2(b.date));
    NatToStringInjective(a.year, b.year);
    Pad2Injective(a.monthIndex + 1, b.monthIndex + 1);
    Pad2Injective(a.date, b.date);
  }

  /** `y-m-d` with two-character `m` and `d` determines its three fields. */
  lemma DashFields(y: string, m: string, d: string, y': string, m': string, d': string)
    requires |m| == 2 && |d| == 2 && |m'| == 2 && |d'| == 2
    requires y + "-" + m + "-" + d == y' + "-" + m' + "-" + d'
    ensures y == y' && m == m' && d == d'
  {
    var s := y + "-" + m + "-" + d;
    assert |y| == |y'|;
    assert y == s[..|y|] && y' == s[..|y|];
    assert m == s[|y| + 1..|y| + 3] && m' == s[|y| + 1..|y| + 3];
    assert d == s[|y| + 4..] && d' == s[|y| + 4..];
  }

  /** The directory the URL's sub-directory goes into: `outputDir`, or `outputDir/YYYY-MM-DD`
      in the TypeScript version (`dated`). */
  function BaseDir(outputDir: string, dated: bool, today: Day): string {
    if dated then PathJoin(outputDir, DateDirName(today)) else outputDir
  }

  /** `urlOutputDir`, or `None` when the URL does not parse. */
  function UrlOutputDir(url: string, outputDir: string, dated: bool, env: Env): (r: Option<string>)
    ensures r.Some? <==> env.parse(url).Some?
    ensures r.Some? ==> r.value == PathJoin(BaseDir(outputDir, dated, env.today),
      UrlSubdir(env.parse(url).value.hostname, env.parse(url).value.pathname))
  {
    match env.parse(url)
    case None => None
    case Some(parts) => Some(PathJoin(BaseDir(outputDir, dated, env.today), UrlSubdir(parts.hostname, parts.pathname)))
  }

  // ---------------------------------------------------------------------------------------
  // The text splitter run on the summary

  /** The splitter configuration `processUrl` builds. */
  function SplitterConfig(): Json {
    JObj(map["news" := JObj(map["reading" := JObj(ReadingFields())])])
  }

  function ReadingFields(): map<string, Json> {
    map[
      "split_files" := JBool(true),
      "max_chars_per_file" := JNum(100),
      "include_metadata" := JBool(true),
      "output_prefix" := JStr(SummaryPrefix)]
  }

  /** The splitter runs in split mode, 100 characters per file, with metadata and the prefix
      `website_summary_`. */
  lemma SplitterConfigFacts()
    ensures TextSplitter.SplitFiles(SplitterConfig())
    ensures TextSplitter.MaxCharsPerFile(SplitterConfig()) == 100
    ensures TextSplitter.IncludeMetadata(SplitterConfig())
    ensures TextSplitter.OutputPrefix(SplitterConfig()) == SummaryPrefix
  {
    ReadingLookup("split_files");
    ReadingLookup("max_chars_per_file");
    ReadingLookup("include_metadata");
    ReadingLookup("output_prefix");
  }

  lemma ReadingLookup(key: string)
    requires key in ReadingFields()
    ensures TextSplitter.ReadingOption(SplitterConfig(), key) == Some(ReadingFields()[key])
  {
    var news := JObj(map["reading" := JObj(ReadingFields())]);
    var keys := ["news", "reading", key];
    assert keys[1..] == ["reading", key] && keys[1..][1..] == [key] && keys[1..][1..][1..] == [];
    assert ConfigManager.Lookup(SplitterConfig(), keys) == ConfigManager.Lookup(news, keys[1..]);
    assert ConfigManager.Lookup(news, keys[1..]) == ConfigManager.Lookup(JObj(ReadingFields()), [key]);
  }

  /** The splitter's configuration names neither keywords nor feeds, so its report shows
      `なし` and 0 feeds: the `[]` and 0 that `WriteSummary` passes to the report. */
  lemma SplitterConfigHasNoFeeds()
    ensures ConfigManager.Lookup(SplitterConfig(), ["news", "keywords"]).None?
    ensures ConfigManager.Lookup(SplitterConfig(), ["news", "rss_feeds"]).None?
  {
    var news := JObj(map["reading" := JObj(ReadingFields())]);
    assert ConfigManager.Lookup(SplitterConfig(), ["news", "keywords"]) == ConfigManager.Lookup(news, ["keywords"]);
    assert ConfigManager.Lookup(SplitterConfig(), ["news", "rss_feeds"]) == ConfigManager.Lookup(news, ["rss_feeds"]);
  }

  /** The one article `processUrl` hands to the splitter. */
  function SummaryArticle(url: string, summary: string, pubDate: string): (r: Article)
    ensures r.summary == summary && r.link == url && EndsWith(r.title, url)
  {
    Article("ウェブサイト要約: " + url, "", "", url, pubDate, url, summary)
  }

  /** With one article, the reading files are the summary's 100-character chunks, named
      `website_summary_01_NN.txt`. */
  lemma SummaryReadingWrites(dir: string, article: Article)
    ensures TextSplitter.MaxCharsPerFile(SplitterConfig()) >= 1
    ensures TextSplitter.ReadingWrites(SplitterConfig(), [article], dir)
      == TextSplitter.ChunkWrites(dir, SummaryPrefix + "01_", TextSplitter.SplitByLength(article.summary, 100))
  {
    SplitterConfigFacts();
    var chunks := TextSplitter.SplitByLength(article.summary, 100);
    assert TextSplitter.ChunkLists([article], 100) == [chunks];
    SplitModeSingle(dir, SummaryPrefix, chunks);
  }

  /** Split mode with a single article names its files after article number 01. */
  lemma SplitModeSingle(dir: string, prefix: string, chunks: seq<string>)
    ensures TextSplitter.SplitModeWrites(dir, prefix, [chunks]) == TextSplitter.ChunkWrites(dir, prefix + "01_", chunks)
  {
    assert [chunks][..0] == [];
    assert prefix + Pad2(1) + "_" == prefix + "01_";
    assert TextSplitter.SplitModeWrites(dir, prefix, [chunks])
      == TextSplitter.SplitModeWrites(dir, prefix, []) + TextSplitter.ChunkWrites(dir, prefix + Pad2(1) + "_", chunks);
  }

  // ---------------------------------------------------------------------------------------
  // What one URL produces

  /** The cleaned text of the page, or `None` when fetching fails or nothing is left after
      cleaning: the early `return null`. */
  function PageText(url: string, env: Env): (r: Option<string>)
    ensures r.Some? ==> r.value != ""
  {
    match env.fetch(url)
    case None => None
    case Some(html) =>
      var text := TextUtils.CleanText(html);
      if text == "" then None else Some(text)
  }

  /** The summary text, or `None` when there is no text, the setup throws or the chain
      throws. */
  function SummaryText(url: string, summaryLength: string, lengthIsNumber: bool, env: Env): Option<string> {
    match PageText(url, env)
    case None => None
    case Some(text) =>
      if env.documents(text).None? then None
      else env.chain(TextUtils.GetLengthInstruction(summaryLength, lengthIsNumber), text)
  }

  /** The reading files `createReadingFiles` writes for the summary article in `dir`: its
      100-character chunks (`SummaryReadingWrites`). */
  function SummaryWrites(summary: string, dir: string): seq<TextSplitter.FileWrite>
  {
    TextSplitter.ChunkWrites(dir, SummaryPrefix + "01_", TextSplitter.SplitByLength(summary, 100))
  }

  /** What `processUrl(url, outputDir, summaryLength)` resolves to. */
  function UrlResult(url: string, outputDir: string, summaryLength: string, lengthIsNumber: bool,
                     dated: bool, env: Env): (r: Option<ProcessResult>)
    ensures r.None? <==> (SummaryText(url, summaryLength, lengthIsNumber, env).None?
                          || UrlOutputDir(url, outputDir, dated, env).None?)
    ensures r.Some? ==> r.value.url == url
  {
    match SummaryText(url, summaryLength, lengthIsNumber, env)
    case None => None
    case Some(summary) =>
      match UrlOutputDir(url, outputDir, dated, env)
      case None => None
      case Some(dir) =>
        Some(ProcessResult(url, PathJoin(dir, ReportName),
          TextSplitter.Paths(SummaryWrites(summary, dir)), summary, dir))
  }

  /** The files after `processUrl`: the reading files, then the report, written into `dir`;
      nothing when the URL fails before the writes. */
  function UrlFiles(files: map<string, string>, url: string, outputDir: string, summaryLength: string,
                    lengthIsNumber: bool, dated: bool, env: Env): (r: map<string, string>)
    ensures UrlResult(url, outputDir, summaryLength, lengthIsNumber, dated, env).None? ==> r == files
    ensures UrlResult(url, outputDir, summaryLength, lengthIsNumber, dated, env).Some? ==>
      UrlResult(url, outputDir, summaryLength, lengthIsNumber, dated, env).value.summaryFile in r
  {
    match UrlResult(url, outputDir, summaryLength, lengthIsNumber, dated, env)
    case None => files
    case Some(result) =>
      var article := SummaryArticle(url, result.summary, env.pubDate);
      TextSplitter.Apply(files, SummaryWrites(result.summary, result.outputDir))
        [result.summaryFile := TextSplitter.Report(env.reportDate, [], 0, [article])]
  }

  /** The directory a parsed URL's files go to. */
  function SuccessDir(outputDir: string, dated: bool, today: Day, parts: UrlParts): string {
    PathJoin(BaseDir(outputDir, dated, today), UrlSubdir(parts.hostname, parts.pathname))
  }

  /** When the text, the summary and the URL are all there, the URL succeeds with the
      reading files and the report in its directory. */
  lemma UrlSuccess(files: map<string, string>, url: string, outputDir: string, summaryLength: string,
                   lengthIsNumber: bool, dated: bool, env: Env, summary: string, parts: UrlParts)
    requires SummaryText(url, summaryLength, lengthIsNumber, env) == Some(summary)
    requires env.parse(url) == Some(parts)
    ensures var dir := SuccessDir(outputDir, dated, env.today, parts);
      var article := SummaryArticle(url, summary, env.pubDate);
      UrlResult(url, outputDir, summaryLength, lengthIsNumber, dated, env)
        == Some(ProcessResult(url, PathJoin(dir, ReportName), TextSplitter.Paths(SummaryWrites(summary, dir)), summary, dir))
      && UrlFiles(files, url, outputDir, summaryLength, lengthIsNumber, dated, env)
        == TextSplitter.Apply(files, SummaryWrites(summary, dir))
             [PathJoin(dir, ReportName) := TextSplitter.Report(env.reportDate, [], 0, [article])]
  {
  }

  /** A URL that fails leaves the files as they were: every failure comes before the first
      write. */
  lemma FailureWritesNothing(files: map<string, string>, url: string, outputDir: string, summaryLength: string,
                             lengthIsNumber: bool, dated: bool, env: Env)
    requires UrlResult(url, outputDir, summaryLength, lengthIsNumber, dated, env).None?
    ensures UrlFiles(files, url, outputDir, summaryLength, lengthIsNumber, dated, env) == files
  {
  }

  /** A page with no text after cleaning, or one that cannot be fetched, gives no result,
      whatever the chain would say. */
  lemma EmptyTextNoResult(url: string, outputDir: string, summaryLength: string, lengthIsNumber: bool,
                          dated: bool, env: Env)
    requires env.fetch(url).None? || TextUtils.CleanText(env.fetch(url).value) == ""
    ensures UrlResult(url, outputDir, summaryLength, lengthIsNumber, dated, env).None?
  {
  }

  /** A text for which the model, the documents or the chain cannot be built gives no result
      and writes nothing, whatever the chain would say. */
  lemma SetupFailureNoResult(files: map<string, string>, url: string, outputDir: string, summaryLength: string,
                             lengthIsNumber: bool, dated: bool, env: Env)
    requires PageText(url, env).Some? && env.documents(PageText(url, env).value).None?
    ensures UrlResult(url, outputDir, summaryLength, lengthIsNumber, dated, env).None?
    ensures UrlFiles(files, url, outputDir, summaryLength, lengthIsNumber, dated, env) == files
  {
  }

  /** A successful result names the URL's directory and report, carries the summary, and
      lists the summary's 100-character chunk files `website_summary_01_NN.txt` in order. */
  lemma ResultShape(url: string, outputDir: string, summaryLength: string, lengthIsNumber: bool,
                    dated: bool, env: Env)
    requires UrlResult(url, outputDir, summaryLength, lengthIsNumber, dated, env).Some?
    ensures TextSplitter.MaxCharsPerFile(SplitterConfig()) >= 1
    ensures var r := UrlResult(url, outputDir, summaryLength, lengthIsNumber, dated, env).value;
      r.url == url
      && Some(r.summary) == SummaryText(url, summaryLength, lengthIsNumber, env)
      && Some(r.outputDir) == UrlOutputDir(url, outputDir, dated, env)
      && r.summaryFile == PathJoin(r.outputDir, ReportName)
      && r.createdFiles == TextSplitter.Paths(TextSplitter.ReadingWrites(SplitterConfig(),
           [SummaryArticle(url, r.summary, env.pubDate)], r.outputDir))
      && |r.createdFiles| == |TextSplitter.SplitByLength(r.summary, 100)|
      && forall j :: 0 <= j < |r.createdFiles| ==>
           r.createdFiles[j] == PathJoin(r.outputDir, TextSplitter.ChunkName(SummaryPrefix + "01_", j))
  {
    var r := UrlResult(url, outputDir, summaryLength, lengthIsNumber, dated, env).value;
    SummaryReadingWrites(r.outputDir, SummaryArticle(url, r.summary, env.pubDate));
  }

  /** After a successful URL, chunk file `j` holds chunk `j` of the summary and the report
      file holds the report of the one article: the report never overwrites a chunk. */
  lemma UrlFilesHold(files: map<string, string>, url: string, outputDir: string, summaryLength: string,
                     lengthIsNumber: bool, dated: bool, env: Env, j: nat)
    requires UrlResult(url, outputDir, summaryLength, lengthIsNumber, dated, env).Some?
    requires j < |TextSplitter.SplitByLength(UrlResult(url, outputDir, summaryLength, lengthIsNumber, dated, env).value.summary, 100)|
    ensures var r := UrlResult(url, outputDir, summaryLength, lengthIsNumber, dated, env).value;
      var after := UrlFiles(files, url, outputDir, summaryLength, lengthIsNumber, dated, env);
      var chunkPath := PathJoin(r.outputDir, TextSplitter.ChunkName(SummaryPrefix + "01_", j));
      chunkPath in after && after[chunkPath] == TextSplitter.SplitByLength(r.summary, 100)[j]
      && after[r.summaryFile] == TextSplitter.Report(env.reportDate, [], 0, [SummaryArticle(url, r.summary, env.pubDate)])
  {
    var r := UrlResult(url, outputDir, summaryLength, lengthIsNumber, dated, env).value;
    var article := SummaryArticle(url, r.summary, env.pubDate);
    ReportKeepsChunk(files, r.outputDir, TextSplitter.SplitByLength(r.summary, 100), j,
                     TextSplitter.Report(env.reportDate, [], 0, [article]));
  }

  /** Writing the report after the chunk files keeps every chunk file's content. */
  lemma ReportKeepsChunk(files: map<string, string>, dir: string, chunks: seq<string>, j: nat, report: string)
    requires j < |chunks|
    ensures var after := TextSplitter.Apply(files, TextSplitter.ChunkWrites(dir, SummaryPrefix + "01_", chunks))
                           [PathJoin(dir, ReportName) := report];
      var chunkPath := PathJoin(dir, TextSplitter.ChunkName(SummaryPrefix + "01_", j));
      chunkPath in after && after[chunkPath] == chunks[j]
  {
    TextSplitter.ChunkFileHolds(files, dir, SummaryPrefix + "01_", chunks, j);
    ChunkIsNotReport(dir, SummaryPrefix + "01_", j);
  }

  lemma ChunkIsNotReport(dir: string, stem: string, j: nat)
    requires stem == SummaryPrefix + "01_"
    ensures PathJoin(dir, TextSplitter.ChunkName(stem, j)) != PathJoin(dir, ReportName)
  {
    var name := TextSplitter.ChunkName(stem, j);
    assert name[16] == '0';
    assert ReportName[16] == 'r';
    if PathJoin(dir, name) == PathJoin(dir, ReportName) {
      TextSplitter.PathJoinInjective(dir, name, ReportName);
    }
  }

  // ---------------------------------------------------------------------------------------
  // processUrl and processUrls

  /** One `waitIfNeeded(estimatedTokensPerChunk)` on the limiter: while the limiter has seen
      fewer than `QuietCalls` calls it does not sleep. */
  method CallLimiter(rateLimiter: RateLimiter.TokenRateLimiter, now: int) returns (call: LimiterCall)
    modifies rateLimiter
    requires rateLimiter.Valid() && RateLimiter.Uniform(rateLimiter.tokenUsage, EstimatedTokensPerChunk)
    requires rateLimiter.maxRequests == MaxRequests && rateLimiter.maxTokens == MaxTokens
    ensures rateLimiter.Valid() && RateLimiter.Uniform(rateLimiter.tokenUsage, EstimatedTokensPerChunk)
    ensures |rateLimiter.tokenUsage| <= old(|rateLimiter.tokenUsage|) + 1
    ensures call.tokens == EstimatedTokensPerChunk
    ensures old(|rateLimiter.tokenUsage|) < QuietCalls ==> call.waits == []
  {
    if |rateLimiter.tokenUsage| < QuietCalls {
      RateLimiter.QuietCall(rateLimiter.requests, rateLimiter.tokenUsage, now, EstimatedTokensPerChunk,
                            MaxRequests, MaxTokens, rateLimiter.timeWindow);
    }
    RateLimiter.UniformStep(rateLimiter.tokenUsage, now, rateLimiter.timeWindow, EstimatedTokensPerChunk);
    var waits := rateLimiter.WaitIfNeeded(now, EstimatedTokensPerChunk);
    call := LimiterCall(EstimatedTokensPerChunk, waits);
  }

  /** The limiter calls of `processUrl` for a text split into `documentCount` documents: a
      fresh limiter(200, 150000, 60000), one call per document and one for the final
      summary, each announcing 7500 tokens; the first twenty calls never sleep. */
  method PaceRequests(url: string, documentCount: nat, clock: (string, nat) -> int) returns (calls: seq<LimiterCall>)
    ensures |calls| == documentCount + 1
    ensures forall k :: 0 <= k < |calls| ==> calls[k].tokens == EstimatedTokensPerChunk
    ensures forall k :: 0 <= k < |calls| && k < QuietCalls ==> calls[k].waits == []
  {
    var rateLimiter := new RateLimiter.TokenRateLimiter(MaxRequests, MaxTokens, TimeWindow);
    calls := [];
    var i := 0;
    while i < documentCount
      invariant 0 <= i <= documentCount && |calls| == i
      invariant rateLimiter.Valid() && RateLimiter.Uniform(rateLimiter.tokenUsage, EstimatedTokensPerChunk)
      invariant rateLimiter.maxRequests == MaxRequests && rateLimiter.maxTokens == MaxTokens
      invariant |rateLimiter.tokenUsage| <= i
      invariant forall k :: 0 <= k < i ==> calls[k].tokens == EstimatedTokensPerChunk
      invariant forall k :: 0 <= k < i && k < QuietCalls ==> calls[k].waits == []
    {
      var call := CallLimiter(rateLimiter, clock(url, i));
      calls := calls + [call];
      i := i + 1;
    }
    var call := CallLimiter(rateLimiter, clock(url, i));
    calls := calls + [call];
  }

  /** The writes of a summarised URL: the reading files of the one-article list, then the
      report `website_summary_report.md`, in `dir`. */
  method WriteSummary(url: string, summary: string, dir: string, env: Env, files: map<string, string>)
    returns (result: ProcessResult, files': map<string, string>)
    ensures result == ProcessResult(url, PathJoin(dir, ReportName),
      TextSplitter.Paths(SummaryWrites(summary, dir)), summary, dir)
    ensures files' == TextSplitter.Apply(files, SummaryWrites(summary, dir))
      [PathJoin(dir, ReportName) := TextSplitter.Report(env.reportDate, [], 0, [SummaryArticle(url, summary, env.pubDate)])]
  {
    SplitterConfigFacts();
    var article := SummaryArticle(url, summary, env.pubDate);
    var createdFiles, written := TextSplitter.CreateReadingFiles(SplitterConfig(), [article], dir, files);
    SummaryReadingWrites(dir, article);
    var summaryFile;
    summaryFile, files' := TextSplitter.OutputSummaryToFile([article], dir, ReportName, env.reportDate, [], 0, written);
    MapUpdate(written, files', summaryFile, TextSplitter.Report(env.reportDate, [], 0, [article]));
    result := ProcessResult(url, summaryFile, createdFiles, summary, dir);
  }

  lemma MapUpdate(m: map<string, string>, m': map<string, string>, k: string, v: string)
    requires m'.Keys == m.Keys + {k}
    requires forall p :: p in m && p != k ==> m'[p] == m[p]
    requires m'[k] == v
    ensures m' == m[k := v]
  {
  }

  /** `processUrl(url, outputDir, summaryLength)`; `dated` selects the TypeScript version,
      which puts the URL's directory under a `YYYY-MM-DD` directory. Returns the result (or
      `None` for `null`), the limiter calls made, and the files after the writes. */
  method ProcessUrl(url: string, outputDir: string, summaryLength: string, lengthIsNumber: bool,
                    dated: bool, env: Env, files: map<string, string>)
    returns (result: Option<ProcessResult>, calls: seq<LimiterCall>, files': map<string, string>)
    ensures result == UrlResult(url, outputDir, summaryLength, lengthIsNumber, dated, env)
    ensures files' == UrlFiles(files, url, outputDir, summaryLength, lengthIsNumber, dated, env)
    ensures PageText(url, env).None? ==> calls == []
    ensures PageText(url, env).Some? && env.documents(PageText(url, env).value).None? ==> calls == []
    ensures PageText(url, env).Some? && env.documents(PageText(url, env).value).Some? ==>
      |calls| == env.documents(PageText(url, env).value).value + 1
    ensures forall k :: 0 <= k < |calls| ==> calls[k].tokens == EstimatedTokensPerChunk
    ensures forall k :: 0 <= k < |calls| && k < QuietCalls ==> calls[k].waits == []
  {
    calls := [];
    files' := files;
    var htmlContent := env.fetch(url);
    if htmlContent.None? {
      return None, calls, files';
    }
    var text := TextUtils.CleanText(htmlContent.value);
    if text == "" {
      return None, calls, files';
    }
    var documentCount := env.documents(text);
    if documentCount.None? {
      return None, calls, files';
    }
    calls := PaceRequests(url, documentCount.value, env.clock);
    result, files' := SummariseText(url, text, outputDir, summaryLength, lengthIsNumber, dated, env, files);
  }

  /** The part of `processUrl` after the text is known and the chain is built: summarise the
      text, then name the URL's directory and write the files there. */
  method SummariseText(url: string, text: string, outputDir: string, summaryLength: string,
                       lengthIsNumber: bool, dated: bool, env: Env, files: map<string, string>)
    returns (result: Option<ProcessResult>, files': map<string, string>)
    requires PageText(url, env) == Some(text) && env.documents(text).Some?
    ensures result == UrlResult(url, outputDir, summaryLength, lengthIsNumber, dated, env)
    ensures files' == UrlFiles(files, url, outputDir, summaryLength, lengthIsNumber, dated, env)
  {
    files' := files;
    var summary := env.chain(TextUtils.GetLengthInstruction(summaryLength, lengthIsNumber), text);
    if summary.None? {
      return None, files';
    }
    var urlObj := env.parse(url);
    if urlObj.None? {
      return None, files';
    }
    var baseDir := if dated then PathJoin(outputDir, DateDirName(env.today)) else outputDir;
    var urlOutputDir := PathJoin(baseDir, UrlSubdir(urlObj.value.hostname, urlObj.value.pathname));
    UrlSuccess(files, url, outputDir, summaryLength, lengthIsNumber, dated, env, summary.value, urlObj.value);
    var r;
    r, files' := WriteSummary(url, summary.value, urlOutputDir, env, files);
    result := Some(r);
  }

  /** The results of the URLs, in order, one outcome per URL. */
  function UrlResults(urls: seq<string>, outputDir: string, summaryLength: string, lengthIsNumber: bool,
                      dated: bool, env: Env): (r: seq<Option<ProcessResult>>)
    ensures |r| == |urls|
    ensures forall i :: 0 <= i < |urls| ==> r[i] == UrlResult(urls[i], outputDir, summaryLength, lengthIsNumber, dated, env)
  {
    seq(|urls|, i requires 0 <= i < |urls| => UrlResult(urls[i], outputDir, summaryLength, lengthIsNumber, dated, env))
  }

  /** The files after the first `n` URLs, processed one after another. */
  function FilesAfter(files: map<string, string>, urls: seq<string>, n: nat, outputDir: string,
                      summaryLength: string, lengthIsNumber: bool, dated: bool, env: Env): map<string, string>
    requires n <= |urls|
  {
    if n == 0 then files
    else UrlFiles(FilesAfter(files, urls, n - 1, outputDir, summaryLength, lengthIsNumber, dated, env),
                  urls[n - 1], outputDir, summaryLength, lengthIsNumber, dated, env)
  }

  /** `processUrls(urls, outputDir, summaryLength)`: each URL in turn, keeping the non-null
      results in URL order. */
  method ProcessUrls(urls: seq<string>, outputDir: string, summaryLength: string, lengthIsNumber: bool,
                     dated: bool, env: Env, files: map<string, string>)
    returns (results: seq<ProcessResult>, files': map<string, string>)
    ensures results == Successes(UrlResults(urls, outputDir, summaryLength, lengthIsNumber, dated, env))
    ensures |results| <= |urls|
    ensures files' == FilesAfter(files, urls, |urls|, outputDir, summaryLength, lengthIsNumber, dated, env)
  {
    results := [];
    files' := files;
    var i := 0;
    while i < |urls|
      invariant 0 <= i <= |urls|
      invariant results == Successes(UrlResults(urls[..i], outputDir, summaryLength, lengthIsNumber, dated, env))
      invariant files' == FilesAfter(files, urls, i, outputDir, summaryLength, lengthIsNumber, dated, env)
    {
      results, files' := ProcessNext(urls, i, outputDir, summaryLength, lengthIsNumber, dated, env, files, results, files');
      i := i + 1;
    }
    assert urls[..i] == urls;
  }

  /** One pass of the `processUrls` loop: process URL `i` and keep its result if it has one. */
  method ProcessNext(urls: seq<string>, i: nat, outputDir: string, summaryLength: string, lengthIsNumber: bool,
                     dated: bool, env: Env, files: map<string, string>,
                     results: seq<ProcessResult>, current: map<string, string>)
    returns (results': seq<ProcessResult>, current': map<string, string>)
    requires i < |urls|
    requires results == Successes(UrlResults(urls[..i], outputDir, summaryLength, lengthIsNumber, dated, env))
    requires current == FilesAfter(files, urls, i, outputDir, summaryLength, lengthIsNumber, dated, env)
    ensures results' == Successes(UrlResults(urls[..i + 1], outputDir, summaryLength, lengthIsNumber, dated, env))
    ensures current' == FilesAfter(files, urls, i + 1, outputDir, summaryLength, lengthIsNumber, dated, env)
  {
    var result, _, after := ProcessUrl(urls[i], outputDir, summaryLength, lengthIsNumber, dated, env, current);
    ResultsStep(urls, i, outputDir, summaryLength, lengthIsNumber, dated, env);
    FilesAfterStep(files, urls, i, outputDir, summaryLength, lengthIsNumber, dated, env);
    current' := after;
    results' := results;
    if result.Some? {
      results' := results + [result.value];
    }
  }

  /** One more URL: its outcome joins the outcomes. */
  lemma ResultsStep(urls: seq<string>, i: nat, outputDir: string, summaryLength: string,
                    lengthIsNumber: bool, dated: bool, env: Env)
    requires i < |urls|
    ensures var r := UrlResult(urls[i], outputDir, summaryLength, lengthIsNumber, dated, env);
      Successes(UrlResults(urls[..i + 1], outputDir, summaryLength, lengthIsNumber, dated, env))
        == Successes(UrlResults(urls[..i], outputDir, summaryLength, lengthIsNumber, dated, env))
           + (if r.Some? then [r.value] else [])
  {
    var before := UrlResults(urls[..i], outputDir, summaryLength, lengthIsNumber, dated, env);
    var r := UrlResult(urls[i], outputDir, summaryLength, lengthIsNumber, dated, env);
    var after := UrlResults(urls[..i + 1], outputDir, summaryLength, lengthIsNumber, dated, env);
    assert |after| == |before| + 1;
    forall k | 0 <= k < |after| ensures after[k] == (before + [r])[k] {
      assert urls[..i + 1][k] == if k < i then urls[..i][k] else urls[i];
    }
    assert after == before + [r];
    SuccessesSnoc(before, r);
  }

  /** One more URL: its writes follow the earlier ones. */
  lemma FilesAfterStep(files: map<string, string>, urls: seq<string>, i: nat, outputDir: string,
                       summaryLength: string, lengthIsNumber: bool, dated: bool, env: Env)
    requires i < |urls|
    ensures FilesAfter(files, urls, i + 1, outputDir, summaryLength, lengthIsNumber, dated, env)
      == UrlFiles(FilesAfter(files, urls, i, outputDir, summaryLength, lengthIsNumber, dated, env),
                  urls[i], outputDir, summaryLength, lengthIsNumber, dated, env)
  {
  }

  /** Every result belongs to one of the URLs, and each URL that succeeds yields one. */
  lemma ResultsMember(urls: seq<string>, outputDir: string, summaryLength: string, lengthIsNumber: bool,
                      dated: bool, env: Env, r: ProcessResult)
    ensures r in Successes(UrlResults(urls, outputDir, summaryLength, lengthIsNumber, dated, env)) <==>
      exists i :: 0 <= i < |urls| && UrlResult(urls[i], outputDir, summaryLength, lengthIsNumber, dated, env) == Some(r)
  {
    var outcomes := UrlResults(urls, outputDir, summaryLength, lengthIsNumber, dated, env);
    SuccessesMember(outcomes, r);
    if Some(r) in outcomes {
      var i :| 0 <= i < |outcomes| && outcomes[i] == Some(r);
    }
  }
}
