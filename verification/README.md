# A verified model of a summary-reading pipeline

The system fetches news (RSS) and web pages, summarises them, and reads the summaries aloud
with a speech engine. A cheap extractive summary is used for news and an LLM map-reduce
chain for web pages. This project models the parts of it that decide what gets written,
generated and played, and proves what they promise:

- **Text splitter** (`TextSplitter`, lib/text-splitter.js). `splitTextByLength` is modelled as
  sentence units, greedy packing and the forced `.{1,max}` cut. `createReadingFiles` is
  modelled in split mode and combined mode, and `outputSummaryToFile` as one report file.
  The file system is a `map<string, string>` from path to content; each writing method
  receives the current map and returns the new one.
- **Token rate limiter** (`RateLimiter`, lib/token-rate-limiter.js). This is a class whose
  `requests` and `tokenUsage` logs `WaitIfNeeded` prunes and extends. The clock reading is a
  parameter and every sleep is returned as a `Wait`.
- **News processor** (`NewsProcessor`, lib/news-processor.js and src/lib/news-processor.ts,
  whose bodies are the same). It covers `summarizeText` (a loop), `containsKeywords` and
  `filterAndSummarizeNews`.
- **Text utilities** (`TextUtils`, lib/text-utils.js): `cleanText` and `getLengthInstruction`.
- **Configuration** (`ConfigManager`, lib/config-manager.js and src/lib/config-manager.ts).
  It covers the defaults, the deep merge, `loadConfig` and `get`, over a JSON datatype
  (`Json`).
- **Audio player** (`AudioPlayer`, lib/audio-player.js). It records the plays it attempts
  and the pauses it sleeps as a list of events; whether each play succeeds is an input.
- **Directory mode** (`DirectoryReader`, index.js). It reads `.readignore`, filters and sorts
  the text files (`TextFiles`, `Sorting`), generates audio for each, then plays.
- **Website reader** (`WebsiteNewsReader`, website-news-reader.js). It covers the settings
  check in `main`, lists the text files of each result directory, and runs both phases of
  `generateAndPlayAllAudio`.
- **Website summariser** (`WebsiteSummarizerCore`, lib/website-summarizer-core.js and
  src/lib/website-summarizer-core.ts). `processUrl` and `processUrls` are modelled with the
  fetch, the document splitter, the LLM chain, URL parsing and the clock as the `Env`
  parameter. `dated` selects the TypeScript version's `YYYY-MM-DD` directory.

`Outcomes.Successes` is the shared bookkeeping of the batch loops: each item either yields a
value or fails, and the loop keeps the values in item order. Strings are `seq<char>`; every
literal the code uses is a single UTF-16 code unit. Times are `int` milliseconds.

Two behaviours of the code are modelled as written rather than as the rest of the program
might suggest:

- With an empty pruned log, `Math.min()` is `+Infinity`. The limiter then computes an
  infinite wait and sleeps (`Delay.Infinite`) instead of skipping the wait.
- `mergeConfig` evaluates `key in target` on a primitive target, which throws a
  `TypeError`. `loadConfig` catches it and keeps the defaults without saving.
  `MergeConfig` returns `Failure` exactly in that case (`ThrowsWith`).

## Model

| member | source | states |
|---|---|---|
| TextSplitter.SplitKeep | lib/text-splitter.js:20 | the capturing split has an odd number of pieces that together spell the text |
| TextSplitter.NonEmpty | lib/text-splitter.js:20 | dropping empty pieces keeps only non-empty pieces of the input and loses no character |
| TextSplitter.Pair | lib/text-splitter.js:22-23 | gluing pieces in twos gives ceil(n/2) units that spell the same text, non-empty when the pieces are |
| TextSplitter.PairAt | lib/text-splitter.js:22-23 | unit k is piece 2k followed by piece 2k+1, or by nothing at the end |
| TextSplitter.Sentences | lib/text-splitter.js:20-23 | the sentence units are non-empty and their concatenation is exactly the input text |
| TextSplitter.RunLength | lib/text-splitter.js:37 | a greedy `.{1,max}` run takes at most max characters, none a line terminator, and stops early only at a line terminator |
| TextSplitter.MatchAll | lib/text-splitter.js:37 | every piece of the global match has 1 to max characters and no line terminator; there are none exactly when the text is all line terminators |
| TextSplitter.MatchAllExact | lib/text-splitter.js:36-38 | on a text without line terminators the pieces spell the text and all but the last have exactly max characters |
| TextSplitter.BraceLiteral | lib/text-splitter.js:37 | for a negative limit the pattern's `{1,max}` part is a literal text that begins with '{' and ends with '}' |
| TextSplitter.MatchLiteral | lib/text-splitter.js:37 | every piece of the global match of `.` followed by a literal is one non-line-terminator character followed by exactly the literal |
| TextSplitter.MatchLiteralNone | lib/text-splitter.js:37 | text without the literal's first character has no match, so `|| [sentence]` keeps the sentence whole |
| TextSplitter.SplitByLength | lib/text-splitter.js:45-50 | no returned chunk is empty, and empty text gives no chunks |
| TextSplitter.SplitTextByLength | lib/text-splitter.js:15-51 | for any non-zero limit, negative ones included, the packing loop returns exactly the chunks of the specification function |
| TextSplitter.PackSnoc | lib/text-splitter.js:22-43 | packing one more sentence is one more loop step on the earlier state |
| TextSplitter.Pack | lib/text-splitter.js:22-43 | with a positive limit the pending chunk never exceeds it; with a negative limit nothing is ever pending |
| TextSplitter.PackBounded | lib/text-splitter.js:26-41 | the pending chunk never exceeds max, and every pushed chunk is within max or is a sentence made only of line terminators |
| TextSplitter.ChunksBounded | lib/text-splitter.js:26-50 | every chunk is within max or is a line-terminator-only sentence; without line terminators every chunk is within max |
| TextSplitter.FlushConcat | lib/text-splitter.js:46-48 | flushing a whitespace-free pending chunk appends it unchanged |
| TextSplitter.ForceSplitConcat | lib/text-splitter.js:37 | the forced split of a line-terminator-free sentence spells the sentence |
| TextSplitter.StepConcat | lib/text-splitter.js:25-42 | on whitespace-free text one loop step keeps chunks plus pending chunk equal to the text consumed |
| TextSplitter.PackConcat | lib/text-splitter.js:22-43 | on whitespace-free sentences the packed chunks plus the pending chunk spell the sentences in order |
| TextSplitter.NoWhitespaceRoundTrip | lib/text-splitter.js:20-50 | a text without whitespace is reproduced exactly by concatenating its chunks |
| TextSplitter.LongSentenceStandsAlone | lib/text-splitter.js:29-38 | an over-long sentence flushes the pending chunk, then becomes its own pieces of exactly max characters (the last shorter), merged with nothing |
| TextSplitter.NegativeLimitPack | lib/text-splitter.js:26-38 | with a negative limit and no '{' every sentence becomes its own chunk, untrimmed, and nothing is pending |
| TextSplitter.NegativeLimitStep | lib/text-splitter.js:26-38 | with a negative limit one loop step pushes a sentence without '{' whole |
| TextSplitter.NegativeLimitSentences | lib/text-splitter.js:15-51 | with a negative limit a text without '{' splits into exactly its sentence units |
| TextSplitter.MaxCharsPerFile | lib/text-splitter.js:59 | `max_chars_per_file or 300` is never 0: a non-zero number setting is kept, negative ones included, and a missing or falsy setting gives 300 |
| TextSplitter.OutputPrefix | lib/text-splitter.js:61 | `output_prefix or 'news_reading_'` is never empty: a non-empty string setting is kept and a missing or falsy one gives `'news_reading_'` |
| TextSplitter.ReadingWrites | lib/text-splitter.js:56-118 | split mode writes one file per chunk over all articles; combined mode one file per chunk of the combined content |
| TextSplitter.Paths | lib/text-splitter.js:84 | the created-file list is the write paths, one per write, in order |
| TextSplitter.ChunkWrites | lib/text-splitter.js:107-112 | one chunk file is written per chunk |
| TextSplitter.ChunkLists | lib/text-splitter.js:72-77 | split mode chunks each article's summary on its own, one list per article |
| TextSplitter.SplitModeWrites | lib/text-splitter.js:70-87 | split mode writes exactly one file per chunk over all articles |
| TextSplitter.WriteChunkFiles | lib/text-splitter.js:107-114 | the chunk loop returns the chunk file paths and the file map after writing chunk j to `stem + pad2(j+1) + ".txt"` |
| TextSplitter.BuildCombinedContent | lib/text-splitter.js:90-102 | the `+=` loop builds the optional count header and, per article, the optional `記事N。` then `title。summary。` |
| TextSplitter.ChunkWritesSnoc | lib/text-splitter.js:79-86 | writing one more chunk appends its file write at the end |
| TextSplitter.CreateReadingFiles | lib/text-splitter.js:56-118 | returns the paths of, and applies, exactly the writes of the mode selected by `split_files !== false`, with the limit a non-zero number setting (negative included) or else 300, and the prefix a non-empty string, non-zero number or `true` setting or else `'news_reading_'` |
| TextSplitter.WriteSplitFiles | lib/text-splitter.js:70-87 | split mode writes the chunk files of article after article, in (article, chunk) order |
| TextSplitter.SplitModeSnoc | lib/text-splitter.js:72-87 | one more article appends its chunk files after the earlier ones |
| TextSplitter.PathsConcat | lib/text-splitter.js:84 | the created paths of two write batches are those of each in turn |
| TextSplitter.ApplyAppend | lib/text-splitter.js:83 | a write sets its path to its content |
| TextSplitter.ApplyConcat | lib/text-splitter.js:83 | two write batches apply one after the other |
| TextSplitter.ApplyUntouched | lib/text-splitter.js:83 | a path no write names keeps its presence and content |
| TextSplitter.ApplyFinal | lib/text-splitter.js:83 | the last write to a path decides its content |
| TextSplitter.PathJoinInjective | lib/text-splitter.js:81 | joining different names to the same directory gives different paths |
| TextSplitter.DigitFieldsDiffer | lib/text-splitter.js:80 | names that differ in a digit field ended by a non-digit differ |
| TextSplitter.ChunkPathsDistinct | lib/text-splitter.js:108-109 | combined mode gives every chunk a different file path |
| TextSplitter.ChunkNumbersDistinct | lib/text-splitter.js:108 | different chunk numbers give different padded names |
| TextSplitter.ChunkFileHolds | lib/text-splitter.js:107-111 | after the writes, chunk j's file holds chunk j |
| TextSplitter.SplitNameFields | lib/text-splitter.js:80 | split mode's name is `prefix + pad2(i+1) + "_" + pad2(j+1) + ".txt"` |
| TextSplitter.SplitNamesDiffer | lib/text-splitter.js:80-81 | files of different articles get different paths |
| TextSplitter.SplitModeFileHolds | lib/text-splitter.js:79-84 | after split mode, the file for article i and chunk j holds chunk j of article i's summary |
| TextSplitter.SplitModeCount | lib/text-splitter.js:72-87 | split mode creates exactly one file per chunk over all articles |
| TextSplitter.SplitModeOrder | lib/text-splitter.js:72-86 | the file of article i, chunk j sits right after all chunks of earlier articles and the first j of its own, with its name and chunk |
| TextSplitter.SplitModePrefix | lib/text-splitter.js:72-87 | the writes of the first m articles begin the writes of all of them |
| TextSplitter.OutputSummaryToFile | lib/text-splitter.js:123-152 | writes exactly one file, `outputDir/outputFileName`, with the report text, leaves every other file alone and returns that path |
| RateLimiter.Prune | lib/token-rate-limiter.js:29 | the pruned log holds exactly the entries with `now - t < timeWindow` |
| RateLimiter.PruneUsage | lib/token-rate-limiter.js:30 | the pruned token log holds exactly the entries with `now - time < timeWindow` |
| RateLimiter.Times | lib/token-rate-limiter.js:48 | the timestamps of the token log, entry by entry |
| RateLimiter.Min | lib/token-rate-limiter.js:37 | the minimum is in the list and below every entry |
| RateLimiter.WaitTime | lib/token-rate-limiter.js:37-38 | an empty log gives an infinite wait; otherwise the sleep ends one second after the oldest entry leaves the window, the first moment any entry does |
| RateLimiter.Waits | lib/token-rate-limiter.js:36-55 | at most two sleeps per call |
| RateLimiter.WaitTimeLong | lib/token-rate-limiter.js:38 | a wait computed from a pruned non-empty log is longer than 1000 ms |
| RateLimiter.WaitsFacts | lib/token-rate-limiter.js:36-55 | at most two sleeps, request first; a request sleep exactly when the pruned requests reach the maximum, a token sleep exactly when pruned tokens plus the estimate exceed the maximum; each finite sleep is over 1000 ms |
| RateLimiter.RequestWaitLength | lib/token-rate-limiter.js:36-44 | with a non-empty pruned log the request sleep is `timeWindow - (now - oldest) + 1000` |
| RateLimiter.TokenWaitLength | lib/token-rate-limiter.js:47-55 | with a non-empty pruned token log the token sleep is `timeWindow - (now - oldest) + 1000`, taken last |
| RateLimiter.PruneTimes | lib/token-rate-limiter.js:29-30 | pruning the token log prunes its timestamps exactly as the request log is pruned |
| RateLimiter.TimesAppend | lib/token-rate-limiter.js:57-58 | appending to the token log appends its timestamps |
| RateLimiter.PruneUsageLength | lib/token-rate-limiter.js:30 | pruning never lengthens the token log |
| RateLimiter.UniformTotal | lib/token-rate-limiter.js:33 | a log of n equal estimates sums to n times the estimate |
| RateLimiter.UniformStep | lib/token-rate-limiter.js:30-58 | a call with the same estimate keeps a uniform log uniform and grows it by at most one |
| RateLimiter.QuietCall | lib/token-rate-limiter.js:33-55 | a call on a uniform log with room for one more request and estimate does not sleep |
| RateLimiter.TokenRateLimiter.constructor | lib/token-rate-limiter.js:12-18 | both logs start empty, the limits are the arguments, and the two logs agree |
| RateLimiter.TokenRateLimiter.Default | lib/token-rate-limiter.js:12 | the defaults are 200 requests, 150000 tokens and a 60000 ms window |
| RateLimiter.TokenRateLimiter.WaitIfNeeded | lib/token-rate-limiter.js:25-59 | the new request log is the pruned old log plus `now`, the token log the pruned old log plus `(now, cost)`, the sleeps are `Waits` of the old logs, and the logs stay in step |
| TextUtils.IndexFrom | lib/text-utils.js:13 | the first occurrence of a character at or after a position, or -1 exactly when there is none |
| TextUtils.RemoveAll | lib/text-utils.js:14-15 | removing a literal never lengthens the text and introduces no character |
| TextUtils.RemoveSpecialTokens | lib/text-utils.js:16 | removing special tokens never lengthens the text and introduces no character |
| TextUtils.StripTags | lib/text-utils.js:13 | after removing `<[^>]*>`, no '<' is followed by '>', and no character is introduced |
| TextUtils.RemoveNul | lib/text-utils.js:17 | the result holds no NUL and no new character |
| TextUtils.CollapseWhitespace | lib/text-utils.js:18 | every whitespace run becomes one space: single-spaced, empty exactly when the input is, leading whitespace preserved, no new non-space character |
| TextUtils.RemoveAllIdle | lib/text-utils.js:14-15 | a tag-shaped literal finds nothing once tags are removed |
| TextUtils.RemoveSpecialTokensIdle | lib/text-utils.js:16 | a special token (`<` and a bar, up to a bar and `>`) finds nothing once tags are removed |
| TextUtils.TokenPassesIdle | lib/text-utils.js:13-16 | the three token passes after the tag pass change nothing |
| TextUtils.RemoveNulKeepsNoTagPair | lib/text-utils.js:17 | removing NULs keeps the text free of tag pairs |
| TextUtils.CollapseKeepsNoTagPair | lib/text-utils.js:18 | collapsing whitespace keeps the text free of tag pairs |
| TextUtils.InfixKeepsShape | lib/text-utils.js:19 | trimming keeps the text free of tag pairs, NULs and double whitespace |
| TextUtils.CleanTextShape | lib/text-utils.js:11-20 | the output has no leading or trailing whitespace, no two adjacent whitespace characters, no NUL, and no '<' followed later by '>' |
| TextUtils.CleanText | lib/text-utils.js:11-20 | every character of the cleaned text is from the input or a space |
| TextUtils.CollapseIdle | lib/text-utils.js:18 | collapsing single-spaced text changes nothing |
| TextUtils.StripTagsIdle | lib/text-utils.js:13 | removing tags from tag-free text changes nothing |
| TextUtils.RemoveNulIdle | lib/text-utils.js:17 | removing NULs from NUL-free text changes nothing |
| TextUtils.CleanTextIdempotent | lib/text-utils.js:11-20 | cleaning a cleaned text changes nothing |
| TextUtils.GetLengthInstruction | lib/text-utils.js:27-52 | the result is the chosen instruction content followed by the fixed suffix |
| TextUtils.LengthContent | lib/text-utils.js:29-48 | `short`/`brief` give the brief sentence, `medium`/`normal` the medium one and `long`/`detailed` the detailed one, whatever the case; any other value ends with the default sentence |
| TextUtils.LengthKeywordsIgnoreCase | lib/text-utils.js:29-41 | spellings that agree once lower-cased give the same instruction, and each keyword pair gives its own sentence |
| TextUtils.LengthOtherValues | lib/text-utils.js:42-48 | any other value gives the default sentence, preceded by `約{length}文字程度…` exactly when it is numeric |
| NewsProcessor.StripEntities | lib/news-processor.js:21 | after removing `&[^;]+;` no entity is left and no character is introduced |
| NewsProcessor.NonBlank | lib/news-processor.js:24 | keeps exactly the sentences that are non-empty once trimmed |
| NewsProcessor.TrimAll | lib/news-processor.js:30 | each sentence trimmed, position by position |
| NewsProcessor.Prefix | lib/news-processor.js:47 | `substring(0, n)` is a prefix of length n when n is in range, clamped otherwise |
| NewsProcessor.Accepted | lib/news-processor.js:29-40 | the loop's stopping index lies between its start and the sentence count |
| NewsProcessor.SummarizeText | lib/news-processor.js:19-48 | the method returns exactly `Summarize(text, maxLength)`, whose meaning `SummarizeFacts` states |
| NewsProcessor.Summarize | lib/news-processor.js:19-48 | a summary is never empty and ends with '。' or `...` |
| NewsProcessor.AcceptSentences | lib/news-processor.js:29-40 | the loop builds the summary of the accepted sentences and stops at the first that does not fit |
| NewsProcessor.TrimKeepsOut | lib/news-processor.js:30 | trimming introduces no character |
| NewsProcessor.PiecesHaveNoStop | lib/news-processor.js:24 | no sentence piece holds '。' |
| NewsProcessor.TrimmedSentences | lib/news-processor.js:24-30 | every sentence is non-empty once trimmed and holds no '。' |
| NewsProcessor.JoinedIsJoin | lib/news-processor.js:35 | the summary of the first n sentences is their trimmed forms joined by '。' |
| NewsProcessor.JoinedNonEmpty | lib/news-processor.js:35 | a summary that accepted a non-blank sentence is non-empty |
| NewsProcessor.JoinedStep | lib/news-processor.js:35 | one more sentence appends '。' (when the summary is non-empty) and the trimmed sentence |
| NewsProcessor.WeightStep | lib/news-processor.js:36 | one more sentence adds its trimmed length plus one to `currentLength` |
| NewsProcessor.AcceptedStep | lib/news-processor.js:34-39 | the loop accepts a sentence exactly when it fits and stops otherwise |
| NewsProcessor.JoinSnoc | lib/news-processor.js:35 | joining one more item appends the separator and the item |
| NewsProcessor.JoinedLength | lib/news-processor.js:34-36 | a non-empty summary plus its closing '。' is exactly `currentLength` long |
| NewsProcessor.JoinedEnds | lib/news-processor.js:35 | the summary ends with the last accepted sentence, trimmed |
| NewsProcessor.AcceptedLongest | lib/news-processor.js:29-40 | the accepted sentences are the longest prefix whose weight fits: it fits, and one more would not |
| NewsProcessor.SummaryOfFacts | lib/news-processor.js:42-47 | accepted sentences give them joined by '。' and closed by '。', within maxLength; none give the first maxLength characters plus `...` |
| NewsProcessor.ClosedOnce | lib/news-processor.js:43-45 | a non-empty summary never already ends in '。', so exactly one '。' is added |
| NewsProcessor.SummarizeFacts | src/lib/news-processor.ts:62-91 | the result is the longest fitting prefix of the trimmed non-blank sentences joined and closed by '。', within maxLength, or the fallback `substring(0, maxLength) + '...'` when none fits |
| NewsProcessor.ContainsKeywords | lib/news-processor.js:53-58 | true exactly when some lower-cased keyword is a substring of the lower-cased text; false for no keywords |
| NewsProcessor.ContainsKeywordsIgnoresCase | src/lib/news-processor.ts:96-101 | lower-casing the text first does not change the answer |
| NewsProcessor.SearchText | lib/news-processor.js:111 | the title, a space, the description, a space and the content, each at its place |
| NewsProcessor.Relevant | lib/news-processor.js:110-113 | keeps exactly the input articles whose search text contains a keyword |
| NewsProcessor.FindIndex | lib/news-processor.js:117 | the first index with the title, or -1 when none has it |
| NewsProcessor.Titles | lib/news-processor.js:117 | the titles of the articles, in order |
| NewsProcessor.FirstOfTitleStep | lib/news-processor.js:116-118 | the filter keeps an article exactly when it is the first of its title |
| NewsProcessor.FirstOfTitleFirst | lib/news-processor.js:116-118 | every kept article is the first occurrence of its title |
| NewsProcessor.AllFirstCons | lib/news-processor.js:116-118 | a first occurrence kept in front keeps all kept articles first occurrences |
| NewsProcessor.AllFirstWeaken | lib/news-processor.js:116-118 | first occurrences found after i+1 are found after i |
| NewsProcessor.FirstOfTitleOrdered | lib/news-processor.js:116-118 | kept articles come in the order of their first occurrences |
| NewsProcessor.InFirstOrderCons | lib/news-processor.js:116-118 | keeping an earlier first occurrence in front preserves the order |
| NewsProcessor.FirstOfTitleComplete | lib/news-processor.js:116-118 | every title is kept once, through its first occurrence |
| NewsProcessor.FirstOfTitleLength | lib/news-processor.js:116-118 | the filter keeps at most one article per position |
| NewsProcessor.DedupByTitle | lib/news-processor.js:116-118 | de-duplication never lengthens the list |
| NewsProcessor.DedupDistinct | lib/news-processor.js:116-118 | the kept titles are pairwise distinct |
| NewsProcessor.SliceTo | lib/news-processor.js:122 | `slice(0, end)` is a prefix of length min(end, n), counting a negative end from the back |
| NewsProcessor.NothingRelevant | lib/news-processor.js:110-113 | without keywords no article is relevant |
| NewsProcessor.NoKeywordsNoNews | lib/news-processor.js:106-113 | without keywords the result is empty |
| NewsProcessor.FilterAndSummarizeNews | lib/news-processor.js:105-129 | at most as many articles as given, each carrying the summary of its `content or description` |
| NewsProcessor.FilterFacts | src/lib/news-processor.ts:148-172 | at most `max_articles or 5` articles, distinct titles, each a relevant input article whose only change is the summary of `content or description` to `summary_length or 200` |
| NewsProcessor.FilteredArticle | lib/news-processor.js:121-128 | result k is a relevant input article with all other fields kept and the summary attached |
| NewsProcessor.Blank | lib/news-processor.js:126 | the articles with the summary field cleared, for comparing the other fields |
| ConfigManager.DefaultApi | lib/config-manager.js:11-14 | `api.url` is `http://localhost:50021` and `api.timeout` is 10000 |
| ConfigManager.DefaultSpeakerAndOutput | lib/config-manager.js:15-22 | `speaker.default_id` is 0, `output.dir` is `output`, `output.filename` is `output.wav` |
| ConfigManager.DefaultPlayback | lib/config-manager.js:23-25 | `playback.auto_play` is true |
| ConfigManager.DefaultConfig | lib/config-manager.js:10-26 | the defaults have exactly the sections `api`, `speaker`, `output` and `playback`, each an object |
| ConfigManager.MergeWith | lib/config-manager.js:64-76 | the merged keys are the union; keys only the target has keep the target's value; a source value under a key the target lacks, or one the test does not call an object, is copied as is |
| ConfigManager.ThrowsWith | lib/config-manager.js:67-69 | the merge can throw only for an object source, and does when an object-valued key meets a target that is not an object |
| ConfigManager.MergeConfig | lib/config-manager.js:64-76 | result keys are the union, target-only keys keep the target's value, a source value under a key the target lacks (objects and arrays included) or a non-object source value is copied as is, and it throws exactly when `key in target` meets a primitive target |
| ConfigManager.MergeConfigShared | lib/config-manager.js:68-69 | at a key both sides have, an object source value is merged recursively: that merge succeeds and gives the merged value there |
| ConfigManager.DefaultLacksWebsites | lib/config-manager.js:10-26 | the defaults have no `websites` section |
| ConfigManager.FileWebsitesKept | lib/config-manager.js:65-72 | a file's `websites` section, absent from the defaults, comes through the merge exactly as written, so an array stays an array |
| ConfigManager.MergeConfigTs | src/lib/config-manager.ts:68-81 | the same key, copy and target-only facts under the test `sourceValue && typeof sourceValue === 'object'`, and it throws exactly in its own `key in target` case |
| ConfigManager.MergeConfigTsShared | src/lib/config-manager.ts:73-74 | the TypeScript merge recurses the same way at a shared key with an object source value |
| ConfigManager.MergeTsAgrees | src/lib/config-manager.ts:73 | on JSON values the TypeScript merge equals the JavaScript merge |
| ConfigManager.ThrowsTsAgrees | src/lib/config-manager.ts:73 | the two versions throw on the same inputs |
| ConfigManager.MergeWithTsAgrees | src/lib/config-manager.ts:73-77 | the truthy-object test and `instanceof Object` give the same merge |
| ConfigManager.FileScalarWins | lib/config-manager.js:67-72 | a non-object value the file sets at a path is what the merged configuration holds there |
| ConfigManager.DefaultSurvives | lib/config-manager.js:65 | a default the file leaves alone survives the merge |
| ConfigManager.Lookup | lib/config-manager.js:88-101 | a non-object gives undefined at the first key, and a found value means the first key is present |
| ConfigManager.ConfigManager.constructor | lib/config-manager.js:8-28 | the configuration starts as the defaults, with the six default values |
| ConfigManager.ConfigManager.LoadConfig | lib/config-manager.js:33-47 | missing file: defaults kept and saved; unreadable file or throwing merge: kept, not saved; otherwise the file merged over the defaults |
| ConfigManager.ConfigManager.Get | lib/config-manager.js:88-101 | the value reached by following the '.'-separated keys through objects, or undefined at the first failed step |
| Json.Entries | lib/config-manager.js:67 | the own keys `for...in` visits; an object's values are smaller than it |
| Json.IndexEntries | lib/config-manager.js:67 | an array's entries are its elements |
| Json.CharEntries | lib/config-manager.js:67 | a string's entries are one-character strings |
| Json.Truthy | lib/text-splitter.js:59-61 | every object is truthy and `null` never is |
| AudioPlayer.DefaultAutoPlay | lib/audio-player.js:9 | with the defaults, auto play is on |
| AudioPlayer.AutoPlayPath | lib/audio-player.js:9 | `playback.auto_play` splits into its two keys |
| AudioPlayer.AutoPlayPathPieces | lib/audio-player.js:9 | the dotted path is its two dot-free keys around a '.' |
| AudioPlayer.AttemptsAppend | lib/audio-player.js:49-67 | the attempts of two event runs are those of each |
| AudioPlayer.Segment | lib/audio-player.js:49-63 | a file's events begin with its play; a pause follows exactly when the play succeeds and a later file remains |
| AudioPlayer.Schedule | lib/audio-player.js:49-67 | n files give between n and 2n events |
| AudioPlayer.ScheduleAttemptsAll | lib/audio-player.js:49-67 | every file is attempted exactly once, in list order, whatever earlier plays did |
| AudioPlayer.ScheduleUnfold | lib/audio-player.js:49 | n files play as n-1 files followed by file n's segment |
| AudioPlayer.AttemptsSnoc | lib/audio-player.js:49-56 | one more segment adds its one attempt at the end |
| AudioPlayer.SegmentAttempt | lib/audio-player.js:56-62 | a file's segment attempts exactly that file |
| AudioPlayer.ScheduleShape | lib/audio-player.js:56-67 | pauses of 1000 ms follow exactly the successful plays other than the last; runs start and end with a play |
| AudioPlayer.SchedulePrefixShape | lib/audio-player.js:49-68 | the pause shape holds after every prefix of the loop |
| AudioPlayer.AudioPlayer.constructor | lib/audio-player.js:7-10 | `autoPlay` is the truthiness of `playback.auto_play`, read once |
| AudioPlayer.AudioPlayer.PlayIfEnabled | lib/audio-player.js:32-36 | plays the file once when `autoPlay`, nothing otherwise; fails exactly when the play fails |
| AudioPlayer.AudioPlayer.PlayMultipleFiles | lib/audio-player.js:41-71 | nothing when `autoPlay` is off, otherwise the full schedule |
| DirectoryReader.Patterns | index.js:23-25 | every kept pattern is non-blank and not a comment |
| DirectoryReader.PatternsAppend | index.js:23-25 | the patterns of two line runs are those of each |
| DirectoryReader.PatternsMember | index.js:23-25 | a pattern is kept exactly when some line trims to it and it is neither blank nor a `#` comment |
| DirectoryReader.PatternFrom | index.js:23-25 | every pattern comes from a line |
| DirectoryReader.PatternKept | index.js:23-25 | every line trimming to a pattern yields it |
| DirectoryReader.LoadReadIgnorePatterns | index.js:18-31 | a missing or unreadable file gives none, otherwise exactly the trimmed non-blank non-comment lines |
| DirectoryReader.AnyPatternMatches | index.js:44-46 | true exactly when some pattern matches the relative path or the base name |
| DirectoryReader.ShouldIgnoreFile | index.js:39-47 | false for no patterns, otherwise true exactly when some pattern matches either path |
| DirectoryReader.IgnoredUsesName | index.js:163-170 | the base name the ignore test matches is the entry's own name |
| DirectoryReader.Ignored | index.js:163-173 | with no patterns no file is ignored |
| DirectoryReader.DirectoryTextFiles | index.js:159-185 | the regular, non-ignored text files, sorted |
| DirectoryReader.GenerateSingleFileAudio | index.js:133-143 | empty or unreadable content generates nothing |
| DirectoryReader.AudioOutcomes | index.js:192-210 | file i's outcome uses its own name and number i+1 |
| DirectoryReader.OutputName | index.js:195 | the audio name is the stem and '_', then the number, ending in `.wav` |
| DirectoryReader.AudioAt | index.js:192-204 | a kept path is non-empty, and empty or unreadable content keeps nothing |
| DirectoryReader.HandleDirectory | index.js:148-225 | the generated paths are the successes in sorted order; nothing is played when none were generated, otherwise exactly that list |
| DirectoryReader.GenerateAll | index.js:190-210 | the loop keeps exactly the successful outcomes in file order, skipping failures |
| DirectoryReader.GeneratedFromSomeFile | index.js:199-204 | every kept path was generated from some file with content, under that file's numbered name |
| DirectoryReader.LastSeparator | index.js:195 | the separator before a separator-free tail is the last one |
| DirectoryReader.LastFieldDetermined | index.js:195 | the text after the last separator is determined |
| DirectoryReader.NumberPart | index.js:195 | the number and extension hold no '_' |
| DirectoryReader.OutputNamesDistinct | index.js:195 | files at different positions get different audio names, so skipped files still use up a number |
| DirectoryReader.NumberedNamesDistinct | index.js:195 | names with different numbers differ |
| DirectoryReader.NumberPartInjective | index.js:195 | the number part determines the number |
| TextFiles.LastDot | index.js:175 | the index of the last '.', or -1 |
| TextFiles.ExtName | index.js:175 | `path.extname` is empty or a dot-led suffix with no other dot, shorter than the name |
| TextFiles.Stem | index.js:195 | the stem followed by the extension is the name |
| TextFiles.TextNameShape | index.js:175-176 | a text file has a non-empty stem and one of the nine extensions |
| TextFiles.IsTextName | index.js:175-176 | an accepted extension is a '.' and at least two more characters |
| TextFiles.TextNameIgnoresCase | index.js:175-176 | the extension test ignores letter case |
| TextFiles.ExtNameLower | index.js:175 | lower-casing commutes with taking the extension |
| TextFiles.LastDotAgrees | index.js:175 | strings with dots at the same places have the same last dot |
| TextFiles.Listed | index.js:162-177 | the filter keeps at most as many names as entries |
| TextFiles.ListedMember | index.js:162-177 | a name is kept exactly when some entry of that name is a regular, non-ignored text file |
| TextFiles.ListedFrom | index.js:162-177 | every kept name is that of a kept entry |
| TextFiles.ListedKept | index.js:162-177 | every kept entry is listed |
| TextFiles.ListedStep | index.js:162 | the filter over one more entry appends that entry when kept |
| TextFiles.Kept | index.js:162-177 | a kept entry has a non-empty stem and is not ignored |
| TextFiles.GetTextFilesInDirectory | website-news-reader.js:154-172 | sorted, a permutation of the filtered names, and empty when reading the directory throws |
| TextFiles.TextFilesMember | website-news-reader.js:158-166 | a name is returned exactly when the listing has it as a regular file with a text extension |
| Sorting.BelowTotal | index.js:185 | any two names are comparable |
| Sorting.BelowTransitive | index.js:185 | the order is transitive |
| Sorting.BelowAntisymmetric | index.js:185 | the order is antisymmetric |
| Sorting.Insert | index.js:185 | insertion keeps the list sorted and adds exactly the one name |
| Sorting.Sort | website-news-reader.js:166 | sorted and a permutation of the input |
| Outcomes.Successes | lib/website-summarizer-core.js:211-213 | the collected values never outnumber the items |
| Outcomes.SuccessesAppend | website-news-reader.js:95-131 | collecting over two batches collects each in turn |
| Outcomes.SuccessesSnoc | index.js:201-202 | one more item adds its value, if any, at the end |
| Outcomes.SuccessesMember | lib/website-summarizer-core.js:208-214 | a value is collected exactly when some item yielded it |
| Outcomes.SuccessesAll | index.js:199-209 | when all items succeed, all values are collected in order |
| Outcomes.SuccessesNone | index.js:212-215 | when all items fail, nothing is collected |
| Text.TrimStart | lib/text-utils.js:19 | drops exactly the leading whitespace |
| Text.TrimStartSuffix | lib/text-utils.js:19 | the left-trimmed text is a suffix |
| Text.TrimEnd | lib/text-utils.js:19 | drops exactly the trailing whitespace |
| Text.Trim | lib/text-utils.js:19 | trimming never lengthens the text and introduces no character |
| Text.TrimNoWhitespace | index.js:24 | trimming text without whitespace changes nothing |
| Text.Digit | index.js:195 | a single decimal digit |
| Text.NatToString | index.js:195 | the decimal digits of a number, without leading zeros |
| Text.NatToStringInjective | index.js:195 | different numbers print differently |
| Text.IntToString | lib/text-splitter.js:37 | the decimal form starts with '-' exactly for a negative number and is all digits otherwise |
| Text.Pad2 | lib/text-splitter.js:80 | `padStart(2, '0')`: at least two digits |
| Text.Pad2Injective | lib/text-splitter.js:80 | different numbers pad differently |
| Text.ToLower | lib/news-processor.js:54 | lower-casing keeps the length, position by position |
| Text.Includes | lib/news-processor.js:56 | a contained string is no longer than the text |
| Text.JoinEnds | lib/news-processor.js:35 | a join begins with its first piece and ends with its last |
| Text.SplitWhere | lib/config-manager.js:89 | the pieces between separators: one more than the separators, none holding a separator |
| Text.SplitWhereNone | lib/config-manager.js:89 | text without separators is one piece |
| Text.SplitWhereFirst | lib/config-manager.js:89 | a separator-free head is the first piece |
| Text.ConcatAppend | lib/text-splitter.js:38 | concatenation distributes over appending lists |
| Text.BaseName | website-news-reader.js:120 | `path.basename` holds no '/' |
| Text.BaseNameOfJoin | website-news-reader.js:106-120 | the base name of `dir/name` is the name |
| WebsiteNewsReader.ReaderSettings | website-news-reader.js:25-42 | no settings exactly when `websites.urls` is not a non-empty array; `output_dir or 'website_summaries'` and `summary_length or 'medium'` |
| WebsiteNewsReader.DefaultConfigHasNoUrls | website-news-reader.js:25-38 | the built-in defaults name no websites |
| WebsiteNewsReader.AudioNamesDistinct | website-news-reader.js:107 | `website_{d+1}_{f+1}.wav` differs for different positions |
| WebsiteNewsReader.AudioNameShape | website-news-reader.js:107 | every audio name starts with `website_` and ends with `.wav` |
| WebsiteNewsReader.FileAudio | website-news-reader.js:112-129 | nothing for empty or unreadable content; a kept file has a non-empty path, its file name and its directory's base name |
| WebsiteNewsReader.FileLists | website-news-reader.js:85-101 | one file list per result directory |
| WebsiteNewsReader.DirOutcomes | website-news-reader.js:104-130 | file f of directory d is generated under its own numbered name |
| WebsiteNewsReader.AllOutcomesCount | website-news-reader.js:85-110 | phase one looks at exactly as many files as it announces |
| WebsiteNewsReader.AllOutcomes | website-news-reader.js:95-130 | every kept outcome has a non-empty path |
| WebsiteNewsReader.TotalFiles | website-news-reader.js:85-88 | the announced total is at least each directory's count |
| WebsiteNewsReader.AllOutcomesMember | website-news-reader.js:95-131 | every outcome is that of some file of some directory |
| WebsiteNewsReader.AudioFileOrigin | website-news-reader.js:95-131 | every collected audio file came from a text file of a result directory |
| WebsiteNewsReader.AudioPaths | website-news-reader.js:143 | the played paths are the collected files' paths, in order |
| WebsiteNewsReader.GenerateAndPlayAllAudio | website-news-reader.js:73-149 | the total is the file count, `currentFileIndex` ends at it, the collected files are the successes by directory then file, and playback happens exactly when one was collected, with their paths |
| WebsiteNewsReader.CountTextFiles | website-news-reader.js:82-88 | the first loop sums the per-directory counts |
| WebsiteNewsReader.GenerateAll | website-news-reader.js:92-131 | the nested loops collect the successes in order and count every file |
| WebsiteNewsReader.FileListsAt | website-news-reader.js:101 | directory d's list is its text files |
| WebsiteNewsReader.TotalFilesUnfold | website-news-reader.js:87 | one more directory adds its count |
| WebsiteNewsReader.AllOutcomesUnfold | website-news-reader.js:95-131 | one more directory appends its outcomes |
| WebsiteNewsReader.GenerateDirectory | website-news-reader.js:104-130 | the inner loop collects that directory's successes and counts each file |
| WebsiteNewsReader.OutputDirs | website-news-reader.js:97 | each result's `outputDir`, in order |
| WebsiteNewsReader.RunReader | website-news-reader.js:15-68 | missing URLs exactly exit 1; no results means no audio phase; non-empty results always run the audio phase, which counts every text file, collects the generated files in order and plays their paths exactly when there are any |
| WebsiteSummarizerCore.Underscore | lib/website-summarizer-core.js:123-124 | the selected characters become '_', the rest are kept |
| WebsiteSummarizerCore.UrlSubdir | lib/website-summarizer-core.js:122-125 | at most 50 characters, no '.', no '/' after the hostname part, each character the hostname's or pathname's with '.' (and '/') replaced |
| WebsiteSummarizerCore.SubdirIsOneName | src/lib/website-summarizer-core.ts:154-157 | for a hostname without '/' the name holds no '/' |
| WebsiteSummarizerCore.DateDirShape | src/lib/website-summarizer-core.ts:144-147 | a four-digit year gives ten characters, digits with '-' at 4 and 7 |
| WebsiteSummarizerCore.DateDirName | src/lib/website-summarizer-core.ts:144-147 | the date directory holds only digits and '-' |
| WebsiteSummarizerCore.FourDigits | src/lib/website-summarizer-core.ts:145 | a year from 1000 to 9999 prints as four digits |
| WebsiteSummarizerCore.DateDirInjective | src/lib/website-summarizer-core.ts:144-148 | different days give different date directories |
| WebsiteSummarizerCore.DashFields | src/lib/website-summarizer-core.ts:145-147 | `y-m-d` with two-character m and d determines its fields |
| WebsiteSummarizerCore.UrlOutputDir | src/lib/website-summarizer-core.ts:148-160 | `outputDir/[date/]subdir`, or none exactly when the URL does not parse |
| WebsiteSummarizerCore.SplitterConfigFacts | lib/website-summarizer-core.js:134-143 | split mode, 100 characters per file, metadata on, prefix `website_summary_` |
| WebsiteSummarizerCore.ReadingLookup | lib/website-summarizer-core.js:136-141 | each reading option reads back from the splitter configuration |
| WebsiteSummarizerCore.SplitterConfigHasNoFeeds | lib/website-summarizer-core.js:134-143 | the splitter configuration names no `news.keywords` and no `news.rss_feeds`, so the report shows `なし` and 0 feeds |
| WebsiteSummarizerCore.SummaryReadingWrites | lib/website-summarizer-core.js:148-157 | the reading files are the summary's 100-character chunks, named `website_summary_01_NN.txt` |
| WebsiteSummarizerCore.SplitModeSingle | lib/text-splitter.js:80 | with one article, split mode names its files after article 01 |
| WebsiteSummarizerCore.PageText | lib/website-summarizer-core.js:31-41 | a present page text is non-empty: empty cleaned text returns null |
| WebsiteSummarizerCore.SummaryArticle | lib/website-summarizer-core.js:148-154 | the article carries the summary, links to the URL, and its title ends with the URL |
| WebsiteSummarizerCore.UrlResult | lib/website-summarizer-core.js:19-190 | null exactly when there is no summary text or the URL does not parse; a result carries its URL |
| WebsiteSummarizerCore.UrlFiles | lib/website-summarizer-core.js:156-164 | a failed URL leaves the files as they were; a result's report file exists afterwards |
| WebsiteSummarizerCore.UrlSuccess | src/lib/website-summarizer-core.ts:180-216 | with text, summary and a parsed URL, the result and the files after the reading files and the report |
| WebsiteSummarizerCore.FailureWritesNothing | lib/website-summarizer-core.js:186-189 | a URL that fails leaves every file as it was |
| WebsiteSummarizerCore.EmptyTextNoResult | src/lib/website-summarizer-core.ts:53-63 | an unfetchable page or empty cleaned text gives null, whatever the chain would say |
| WebsiteSummarizerCore.ResultShape | lib/website-summarizer-core.js:178-184 | the result carries the URL, the summary, the URL's directory, its report path, and the chunk file paths in order |
| WebsiteSummarizerCore.UrlFilesHold | lib/website-summarizer-core.js:157-164 | chunk file j holds chunk j and the report file holds the report: the report never overwrites a chunk |
| WebsiteSummarizerCore.ReportKeepsChunk | lib/website-summarizer-core.js:160-164 | writing the report after the chunks keeps every chunk's content |
| WebsiteSummarizerCore.ChunkIsNotReport | lib/website-summarizer-core.js:163 | no chunk file is the report file |
| WebsiteSummarizerCore.CallLimiter | lib/website-summarizer-core.js:104 | one call announces 7500 tokens, keeps the log uniform and does not sleep before 20 earlier calls |
| WebsiteSummarizerCore.SetupFailureNoResult | lib/website-summarizer-core.js:45-94 | a throw while building the model, the documents, the prompts or the chain gives null and writes nothing |
| WebsiteSummarizerCore.PaceRequests | lib/website-summarizer-core.js:101-109 | a fresh limiter is called `documents.length + 1` times with 7500 tokens each, and the first 20 calls never sleep |
| WebsiteSummarizerCore.WriteSummary | lib/website-summarizer-core.js:145-164 | the result object and the files after the reading files and the report |
| WebsiteSummarizerCore.MapUpdate | lib/text-splitter.js:148 | a map agreeing with an update everywhere is that update |
| WebsiteSummarizerCore.ProcessUrl | lib/website-summarizer-core.js:19-190 | resolves to `UrlResult` and writes `UrlFiles`; no limiter calls without text or when the setup before the limiter loop throws, otherwise `documents + 1` calls of 7500 tokens, the first 20 quiet |
| WebsiteSummarizerCore.SummariseText | src/lib/website-summarizer-core.ts:88-216 | the part after the text is known and the chain is built gives the same result and files |
| WebsiteSummarizerCore.UrlResults | lib/website-summarizer-core.js:208-210 | one outcome per URL, in order |
| WebsiteSummarizerCore.ProcessUrls | lib/website-summarizer-core.js:199-217 | the non-null results in URL order, never more than the URLs, and the files after each URL in turn |
| WebsiteSummarizerCore.ProcessNext | lib/website-summarizer-core.js:209-213 | one loop pass keeps the URL's result if it has one and applies its writes |
| WebsiteSummarizerCore.ResultsStep | lib/website-summarizer-core.js:208-214 | one more URL adds its outcome |
| WebsiteSummarizerCore.FilesAfterStep | lib/website-summarizer-core.js:208-214 | one more URL applies its writes after the earlier ones |
| WebsiteSummarizerCore.ResultsMember | src/lib/website-summarizer-core.ts:238-248 | a result is returned exactly when some URL resolved to it |

## Left out

- The network and external services are parameters of the model:
  - RSS fetching (`fetchNewsFromRSS`, `fetchAllNews`) and the page fetch;
  - the LLM chain, the langchain document splitter (only its document count is used) and `new URL`;
  - the VOICEVOX speech engine and `play-sound`.
- `FileUtils.readTextFile` is the parameter `read`, and `minimatch` and `path.relative` are the parameters `matches` and `relative`.
- Directory listings are inputs: `stat` and `readdirSync` are a listing of entries. A listing does not follow from the files the model writes.
- `Date.now`, `new Date()` and `toLocaleString('ja-JP')` are parameters: the clock readings, the day and the date strings. `Env` holds one day, one `pubDate` and one report date per run. `clock` gives the reading of limiter call k for a URL, so a URL listed twice sees the same readings both times. The code reads the clock afresh each time.
- `Number(length)` parsing in `getLengthInstruction` is the parameter `isNumber`.
- Directory creation (`mkdirSync`) is not modelled. `path.join` is `dir + "/" + name`, without normalisation.
- Console output and the progress loggers are not modelled.
- The CLI glue is not modelled. That covers `main`, `callVoicevoxAPI`, `handleFileMode` and `handleSingleFile` of index.js, and website-summarizer.js, src/read-all.ts, src/news-reader.ts and src/news-fetcher.ts.
- The TypeScript twins src/lib/news-processor.ts and src/lib/config-manager.ts have the same `summarizeText`, `containsKeywords`, `filterAndSummarizeNews`, constructor, `loadConfig` and `get` as the JavaScript files. They are modelled once; only the TypeScript merge test has its own member.
- ConfigManager.ConfigManager.LoadConfig: `saveConfig`'s write and its own failure are not modelled; the method returns the configuration it would save.
- RateLimiter.TokenRateLimiter.WaitIfNeeded: an infinite wait is returned as `Infinite`. Node's clamping of an infinite `setTimeout` delay to 1 ms is not modelled.
- The limiter records the time read on entry and never re-checks after sleeping. The code therefore promises no sliding-window bound, and none is stated.
- WebsiteSummarizerCore.PaceRequests: only the first 20 calls are stated not to sleep. Later calls' sleeps are what `RateLimiter.Waits` gives for the clock readings, which are a parameter.
- TextSplitter.OutputSummaryToFile: `keywords` and `rssFeedCount` are parameters instead of the configuration's `news.keywords` and `news.rss_feeds.length`. A configured keyword setting that is not an array, where `join` would throw, is not modelled. The one caller, `WebsiteSummarizerCore.WriteSummary`, passes `[]` and 0, which `SplitterConfigHasNoFeeds` justifies.
- WebsiteSummarizerCore.ProcessUrl: a thrown error and an early `null` are the same `None`. A throw in the setup before the limiter loop (the model, the documents, the prompts, the chain) is `documents` returning `None`, which also makes no limiter call. A failing write inside `createReadingFiles` or `outputSummaryToFile` is not modelled, so every write succeeds once it starts.
- WebsiteNewsReader.RunReader: `processUrls` is the parameter `process`, because `ProcessUrls` works on the file map; `loadConfig` has already run. Exit status 1 is the outcome `MissingUrls`.
- TextSplitter.SplitTextByLength: requires `maxLength != 0`. For 0 the regular expression `.{1,0}` is a `SyntaxError`, and `max_chars_per_file || 300` never yields 0. A negative limit is modelled: `.{1,-5}` is then `.` followed by the literal text `{1,-5}`.
- TextSplitter.MaxCharsPerFile: a truthy setting that is not a number gives 300 here. JavaScript would use it through coercion, such as a numeric string `"50"` as 50, or `true` as 1 in the comparisons and as the literal text `{1,true}` in the pattern.
- TextSplitter.OutputPrefix: an array or object setting gives `'news_reading_'` here. JavaScript would use its string form, such as `"a,b"` or `"[object Object]"`.
- RateLimiter.TokenRateLimiter.WaitIfNeeded: the estimate has no default. The code's default of 10000 tokens is not modelled, because both callers pass 7500.
- Text.ToLower lowers ASCII letters only; full Unicode lower-casing is not modelled.
- Characters outside the Basic Multilingual Plane are not modelled: they are two UTF-16 code units in JavaScript and one character here.
- JSON numbers are integers.
- `key in value` looks at own keys only: prototype names such as `toString` or an array's `length` are not modelled.
- `summarizeText` skips blank trimmed sentences with `continue`. That branch cannot be reached after the filter, so the loop has no such branch.
- AudioPlayer.AudioPlayer.PlayMultipleFiles: the pause after a successful play is recorded as an event, not slept.
- The speaker id read by `configManager.get('speaker.default_id')` is folded into `tts`.
