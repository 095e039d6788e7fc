/** The news processor of lib/news-processor.js and its TypeScript twin
    src/lib/news-processor.ts (the two bodies are the same): a cheap extractive summary,
    a case-insensitive keyword test, and the filter that keeps relevant, distinct articles
    and attaches their summaries. Fetching RSS feeds is not part of this model. */
module NewsProcessor {
  import opened Common
  import opened Text
  import opened Articles
  import opened TextUtils

  // ---------------------------------------------------------------------------------------
  // summarizeText

  /** `s.replace(/&[^;]+;/g, '')`: from each '&' whose first later ';' is not right after
      it, the text up to and including that ';' is removed. */
  function StripEntities(s: string): (r: string)
    ensures NoEntity(r)
    ensures forall c :: c in r ==> c in s
    decreases |s|
  {
    if s == [] then []
    else if s[0] == '&' && IndexFrom(s, ';', 1) > 1 then StripEntities(s[IndexFrom(s, ';', 1) + 1..])
    else
      var rest := StripEntities(s[1..]);
      assert ';' in rest ==> ';' in s[1..];
      assert s[0] == '&' && ';' in s[1..] ==> s[1] == ';' && rest != [] && rest[0] == ';' by {
        if s[0] == '&' && ';' in s[1..] {
          assert IndexFrom(s, ';', 1) == 1;
          assert s[1..] != [] && s[1..][0] == ';';
        }
      }
      assert forall i | 1 <= i < |[s[0]] + rest| :: ([s[0]] + rest)[i + 1..] == rest[i..];
      [s[0]] + rest
  }

  /** No entity is left: every '&' either has no ';' after it or is followed by ';'. */
  predicate NoEntity(s: string) {
    forall i | 0 <= i < |s| && s[i] == '&' :: EntityFreeAt(s, i)
  }

  predicate EntityFreeAt(s: string, i: nat)
    requires i < |s|
  {
    ';' !in s[i + 1..] || s[i + 1] == ';'
  }

  /** The separators of `split(/[。．！？\n]/)`. */
  predicate IsSentenceStop(c: char) {
    c == '。' || c == '．' || c == '！' || c == '？' || c == '\n'
  }

  /** `filter(s => s.trim().length > 0)`. */
  function NonBlank(ss: seq<string>): (r: seq<string>)
    ensures forall s :: s in r <==> s in ss && Trim(s) != []
  {
    if ss == [] then []
    else (if Trim(ss[0]) != [] then [ss[0]] else []) + NonBlank(ss[1..])
  }

  /** Each sentence trimmed. */
  function TrimAll(ss: seq<string>): (r: seq<string>)
    ensures |r| == |ss| && forall i :: 0 <= i < |ss| ==> r[i] == Trim(ss[i])
  {
    seq(|ss|, i requires 0 <= i < |ss| => Trim(ss[i]))
  }

  /** `text.substring(0, n)`: a negative end counts as 0, one past the end as the length. */
  function Prefix(s: string, n: int): (r: string)
    ensures |r| <= |s| && (0 <= n <= |s| ==> |r| == n) && r == s[..|r|]
  {
    if n <= 0 then [] else if n >= |s| then s else s[..n]
  }

  /** The summary the loop builds from the first `n` sentences:
      `summary += (summary ? '。' : '') + sentence.trim()`. */
  function Joined(ss: seq<string>, n: nat): string
    requires n <= |ss|
  {
    if n == 0 then ""
    else
      var p := Joined(ss, n - 1);
      p + (if p != "" then "。" else "") + Trim(ss[n - 1])
  }

  /** `currentLength` after accepting the first `n` sentences: each counts its trimmed
      length plus one. */
  function Weight(ss: seq<string>, n: nat): int
    requires n <= |ss|
  {
    if n == 0 then 0 else Weight(ss, n - 1) + |Trim(ss[n - 1])| + 1
  }

  /** The index at which the loop stops, started at sentence `i` with `used` characters
      already spent: the first sentence that does not fit, or the end. */
  function Accepted(ss: seq<string>, i: nat, used: int, maxLength: int): (k: nat)
    requires i <= |ss|
    ensures i <= k <= |ss|
    decreases |ss| - i
  {
    if i == |ss| then i
    else if used + |Trim(ss[i])| + 1 <= maxLength then Accepted(ss, i + 1, used + |Trim(ss[i])| + 1, maxLength)
    else i
  }

  /** `if (summary && !summary.endsWith('。')) summary += '。'`. */
  function Close(summary: string): string {
    if summary != "" && !EndsWith(summary, "。") then summary + "。" else summary
  }

  /** What `summarizeText(text, maxLength)` returns. */
  function Summarize(text: string, maxLength: int): (r: string)
    ensures r != []
    ensures EndsWith(r, "。") || EndsWith(r, "...")
  {
    SummaryOf(SentenceList(Clean(text)), Clean(text), maxLength)
  }

  /** The summary of the sentences `ss` of `cleanText`. */
  function SummaryOf(ss: seq<string>, cleanText: string, maxLength: int): string {
    var summary := Close(Joined(ss, Accepted(ss, 0, 0, maxLength)));
    if summary != "" then summary else Prefix(cleanText, maxLength) + "..."
  }

  /** `text.replace(/<[^>]*>/g, '').replace(/&[^;]+;/g, '')`. */
  function Clean(text: string): string {
    StripEntities(StripTags(text))
  }

  /** The non-blank sentences of `cleanText`. */
  function SentenceList(cleanText: string): seq<string> {
    NonBlank(SplitWhere(cleanText, IsSentenceStop))
  }

  /** `summarizeText`: strips tags and entities, splits into sentences, accepts them while
      the running length plus one stays within `maxLength`, and closes the summary with '。';
      with nothing accepted, falls back to a prefix of the stripped text. */
  method SummarizeText(text: string, maxLength: int) returns (r: string)
    ensures r == Summarize(text, maxLength)
  {
    var cleanText := StripEntities(StripTags(text));
    var sentences := NonBlank(SplitWhere(cleanText, IsSentenceStop));
    var summary := AcceptSentences(sentences, maxLength);
    if summary != "" && !EndsWith(summary, "。") {
      summary := summary + "。";
    }
    if summary != "" {
      r := summary;
    } else {
      r := Prefix(cleanText, maxLength) + "...";
    }
  }

  /** The sentence loop of `summarizeText`: appends trimmed sentences, separated by '。',
      while `currentLength + trimmed.length + 1 <= maxLength`, and stops at the first that
      does not fit. */
  method AcceptSentences(sentences: seq<string>, maxLength: int) returns (summary: string)
    ensures summary == Joined(sentences, Accepted(sentences, 0, 0, maxLength))
  {
    summary := "";
    var currentLength := 0;
    var i := 0;
    while i < |sentences|
      invariant 0 <= i <= |sentences|
      invariant summary == Joined(sentences, i) && currentLength == Weight(sentences, i)
      invariant Accepted(sentences, i, currentLength, maxLength) == Accepted(sentences, 0, 0, maxLength)
    {
      // The filter leaves no blank sentence, so the source's `continue` never runs.
      var trimmedSentence := Trim(sentences[i]);
      AcceptedStep(sentences, i, currentLength, maxLength);
      JoinedStep(sentences, i);
      WeightStep(sentences, i);
      if currentLength + |trimmedSentence| + 1 <= maxLength {
        summary := summary + (if summary != "" then "。" else "") + trimmedSentence;
        currentLength := currentLength + |trimmedSentence| + 1;
      } else {
        break;
      }
      i := i + 1;
    }
  }

  /** Trimming only removes characters. */
  lemma TrimKeepsOut(s: string, c: char)
    requires c !in s
    ensures c !in Trim(s)
  {
    var t := TrimStart(s);
    TrimStartSuffix(s);
    assert t == s[|s| - |t|..];
    assert Trim(s) == t[..|Trim(s)|];
  }

  /** No piece of the split holds a stop. */
  lemma PiecesHaveNoStop(cleanText: string, p: string)
    requires p in SplitWhere(cleanText, IsSentenceStop)
    ensures '。' !in p
  {
    var pieces := SplitWhere(cleanText, IsSentenceStop);
    var j :| 0 <= j < |pieces| && pieces[j] == p;
  }

  /** Every sentence is non-empty once trimmed and holds no '。'. */
  predicate ProperSentences(ss: seq<string>) {
    forall k :: 0 <= k < |ss| ==> Trim(ss[k]) != [] && '。' !in Trim(ss[k])
  }

  lemma TrimmedSentences(cleanText: string)
    ensures ProperSentences(SentenceList(cleanText))
  {
    var ss := SentenceList(cleanText);
    forall k | 0 <= k < |ss| ensures Trim(ss[k]) != [] && '。' !in Trim(ss[k]) {
      assert ss[k] in ss;
      PiecesHaveNoStop(cleanText, ss[k]);
      TrimKeepsOut(ss[k], '。');
    }
  }

  /** With sentences that are non-empty once trimmed, the summary built from the first `n`
      is their trimmed forms joined by '。'. */
  lemma {:induction false} JoinedIsJoin(ss: seq<string>, n: nat)
    requires n <= |ss| && forall k :: 0 <= k < n ==> Trim(ss[k]) != []
    ensures Joined(ss, n) == Join(TrimAll(ss)[..n], "。")
  {
    var ts := TrimAll(ss);
    if n == 1 {
      assert Joined(ss, 1) == Trim(ss[0]);
      assert ts[..1] == [Trim(ss[0])];
    } else if n > 1 {
      JoinedIsJoin(ss, n - 1);
      JoinedNonEmpty(ss, n - 1);
      JoinedStep(ss, n - 1);
      JoinSnoc(ts[..n - 1], ts[n - 1], "。");
      TakeSnoc(ts, n);
    }
  }

  /** A summary of at least one sentence that is non-empty once trimmed is non-empty. */
  lemma JoinedNonEmpty(ss: seq<string>, n: nat)
    requires 0 < n <= |ss| && Trim(ss[n - 1]) != []
    ensures Joined(ss, n) != ""
  {
  }

  /** One more sentence: the separator, when the summary so far is not empty, then the
      trimmed sentence. */
  lemma JoinedStep(ss: seq<string>, n: nat)
    requires n < |ss|
    ensures Joined(ss, n + 1) == Joined(ss, n) + (if Joined(ss, n) != "" then "。" else "") + Trim(ss[n])
  {
  }

  lemma WeightStep(ss: seq<string>, n: nat)
    requires n < |ss|
    ensures Weight(ss, n + 1) == Weight(ss, n) + |Trim(ss[n])| + 1
  {
  }

  /** The loop's stopping point, one sentence at a time. */
  lemma AcceptedStep(ss: seq<string>, i: nat, used: int, maxLength: int)
    requires i < |ss|
    ensures Accepted(ss, i, used, maxLength)
      == if used + |Trim(ss[i])| + 1 <= maxLength then Accepted(ss, i + 1, used + |Trim(ss[i])| + 1, maxLength) else i
  {
  }

  lemma {:induction false} JoinSnoc(ts: seq<string>, t: string, d: string)
    requires ts != []
    ensures Join(ts + [t], d) == Join(ts, d) + d + t
  {
    if |ts| > 1 {
      assert (ts + [t])[1..] == ts[1..] + [t];
      JoinSnoc(ts[1..], t, d);
    }
  }

  /** The length of a non-empty built summary, plus the closing '。', is its weight. */
  lemma {:induction false} JoinedLength(ss: seq<string>, n: nat)
    requires n <= |ss| && forall k :: 0 <= k < n ==> Trim(ss[k]) != []
    ensures n > 0 ==> |Joined(ss, n)| + 1 == Weight(ss, n)
  {
    if n > 1 {
      JoinedLength(ss, n - 1);
    }
  }

  /** The built summary ends with the last accepted sentence, trimmed. */
  lemma JoinedEnds(ss: seq<string>, n: nat)
    requires 0 < n <= |ss|
    ensures EndsWith(Joined(ss, n), Trim(ss[n - 1]))
  {
  }

  /** The loop accepts the longest prefix of the sentences whose weight fits: the
      accepted prefix fits, and adding the next sentence would not. */
  lemma {:induction false} AcceptedLongest(ss: seq<string>, i: nat, used: int, maxLength: int)
    requires i <= |ss| && used == Weight(ss, i) && (i == 0 || used <= maxLength)
    ensures Accepted(ss, i, used, maxLength) == 0 || Weight(ss, Accepted(ss, i, used, maxLength)) <= maxLength
    ensures Accepted(ss, i, used, maxLength) < |ss| ==> Weight(ss, Accepted(ss, i, used, maxLength) + 1) > maxLength
    decreases |ss| - i
  {
    if i < |ss| {
      var k := Accepted(ss, i, used, maxLength);
      var next := used + |Trim(ss[i])| + 1;
      AcceptedStep(ss, i, used, maxLength);
      WeightStep(ss, i);
      if next <= maxLength {
        assert k == Accepted(ss, i + 1, next, maxLength);
        AcceptedLongest(ss, i + 1, next, maxLength);
      } else {
        assert k == i;
      }
    }
  }

  /** The summary of proper sentences: when some sentence fits, the accepted sentences
      (the longest prefix whose weight fits), trimmed, joined by '。' and closed by '。', at
      most `maxLength` long; otherwise the first `maxLength` characters of the text followed
      by "...". */
  lemma SummaryOfFacts(ss: seq<string>, cleanText: string, maxLength: int)
    requires ProperSentences(ss)
    ensures var k := Accepted(ss, 0, 0, maxLength);
      var r := SummaryOf(ss, cleanText, maxLength);
      (k < |ss| ==> Weight(ss, k + 1) > maxLength)
      && (k > 0 ==> r == Join(TrimAll(ss)[..k], "。") + "。" && Weight(ss, k) == |r| <= maxLength)
      && (k == 0 ==> r == Prefix(cleanText, maxLength) + "...")
  {
    var k := Accepted(ss, 0, 0, maxLength);
    AcceptedLongest(ss, 0, 0, maxLength);
    if k > 0 {
      JoinedIsJoin(ss, k);
      JoinedLength(ss, k);
      ClosedOnce(ss, k);
    }
  }

  /** A non-empty built summary never ends in '。' already, so the closing '。' is always
      added. */
  lemma ClosedOnce(ss: seq<string>, n: nat)
    requires 0 < n <= |ss| && ProperSentences(ss)
    ensures Joined(ss, n) != "" && Close(Joined(ss, n)) == Joined(ss, n) + "。"
  {
    var last := Trim(ss[n - 1]);
    JoinedEnds(ss, n);
    var j := Joined(ss, n);
    assert j[|j| - 1] == last[|last| - 1];
    assert !EndsWith(j, "。") by {
      assert last[|last| - 1] in last;
    }
  }

  /** What `summarizeText` promises, for the non-blank sentences of the text stripped of
      tags and entities. */
  lemma SummarizeFacts(text: string, maxLength: int)
    ensures var ss := SentenceList(Clean(text));
      var k := Accepted(ss, 0, 0, maxLength);
      var r := Summarize(text, maxLength);
      (k < |ss| ==> Weight(ss, k + 1) > maxLength)
      && (k > 0 ==> r == Join(TrimAll(ss)[..k], "。") + "。" && Weight(ss, k) == |r| <= maxLength)
      && (k == 0 ==> r == Prefix(Clean(text), maxLength) + "...")
  {
    TrimmedSentences(Clean(text));
    SummaryOfFacts(SentenceList(Clean(text)), Clean(text), maxLength);
  }

  // ---------------------------------------------------------------------------------------
  // containsKeywords

  /** `keywords.some(k => text.toLowerCase().includes(k.toLowerCase()))`. */
  function ContainsKeywords(text: string, keywords: seq<string>): (r: bool)
    ensures r <==> exists k :: 0 <= k < |keywords| && Includes(ToLower(text), ToLower(keywords[k]))
  {
    if keywords == [] then false
    else Includes(ToLower(text), ToLower(keywords[0])) || ContainsKeywords(text, keywords[1..])
  }

  /** The test ignores case: the text and the keywords may be lower-cased first. */
  lemma ContainsKeywordsIgnoresCase(text: string, keywords: seq<string>)
    ensures ContainsKeywords(ToLower(text), keywords) == ContainsKeywords(text, keywords)
  {
    assert ToLower(ToLower(text)) == ToLower(text);
  }

  // ---------------------------------------------------------------------------------------
  // filterAndSummarizeNews

  /** The `news` settings the processor reads (the typed `NewsConfig` of the TypeScript
      version); `None` is an absent field. */
  datatype NewsSettings = NewsSettings(
    keywords: Option<seq<string>>,
    summaryLength: Option<int>,
    maxArticles: Option<int>)

  /** `config.news?.keywords || []`. */
  function Keywords(settings: NewsSettings): seq<string> {
    if settings.keywords.Some? then settings.keywords.value else []
  }

  /** `config.news?.summary_length || 200`. */
  function SummaryLength(settings: NewsSettings): int {
    if settings.summaryLength.Some? && settings.summaryLength.value != 0 then settings.summaryLength.value
    else 200
  }

  /** `config.news?.max_articles || 5`. */
  function MaxArticles(settings: NewsSettings): int {
    if settings.maxArticles.Some? && settings.maxArticles.value != 0 then settings.maxArticles.value
    else 5
  }

  /** `${article.title} ${article.description} ${article.content}`. */
  function SearchText(a: Article): (r: string)
    ensures |r| == |a.title| + |a.description| + |a.content| + 2
    ensures StartsWith(r, a.title) && EndsWith(r, a.content)
    ensures r[|a.title| + 1..|a.title| + 1 + |a.description|] == a.description
  {
    a.title + " " + a.description + " " + a.content
  }

  /** The articles whose search text contains a keyword, in order. */
  function Relevant(articles: seq<Article>, keywords: seq<string>): (r: seq<Article>)
    ensures |r| <= |articles|
    ensures forall a :: a in r <==> a in articles && ContainsKeywords(SearchText(a), keywords)
  {
    if articles == [] then []
    else
      (if ContainsKeywords(SearchText(articles[0]), keywords) then [articles[0]] else [])
        + Relevant(articles[1..], keywords)
  }

  /** `s.findIndex(a => a.title === title)`. */
  function FindIndex(s: seq<Article>, title: string): (r: int)
    ensures -1 <= r < |s|
    ensures r == -1 ==> forall j :: 0 <= j < |s| ==> s[j].title != title
    ensures r >= 0 ==> s[r].title == title && forall j :: 0 <= j < r ==> s[j].title != title
  {
    if s == [] then -1
    else if s[0].title == title then 0
    else
      var r := FindIndex(s[1..], title);
      if r == -1 then -1 else r + 1
  }

  function Titles(s: seq<Article>): (r: seq<string>)
    ensures |r| == |s| && forall k :: 0 <= k < |s| ==> r[k] == s[k].title
  {
    seq(|s|, k requires 0 <= k < |s| => s[k].title)
  }

  /** `s.filter((a, index, self) => index === self.findIndex(b => b.title === a.title))`,
      from index `i` on: the articles that are the first of their title. */
  function FirstOfTitle(s: seq<Article>, i: nat): seq<Article>
    requires i <= |s|
    decreases |s| - i
  {
    if i == |s| then []
    else (if FindIndex(s, s[i].title) == i then [s[i]] else []) + FirstOfTitle(s, i + 1)
  }

  /** Each article of `r` is the first of its title in `s`, found at or after `i`. */
  predicate AllFirst(s: seq<Article>, i: nat, r: seq<Article>) {
    forall k :: 0 <= k < |r| ==> i <= FindIndex(s, r[k].title) && s[FindIndex(s, r[k].title)] == r[k]
  }

  /** The articles of `r` come in the order of their first occurrences in `s`. */
  predicate InFirstOrder(s: seq<Article>, r: seq<Article>) {
    forall k1, k2 :: 0 <= k1 < k2 < |r| ==> FindIndex(s, r[k1].title) < FindIndex(s, r[k2].title)
  }

  predicate DistinctTitles(r: seq<Article>) {
    forall k1, k2 :: 0 <= k1 < k2 < |r| ==> r[k1].title != r[k2].title
  }

  lemma FirstOfTitleStep(s: seq<Article>, i: nat)
    requires i < |s|
    ensures FirstOfTitle(s, i) == (if FindIndex(s, s[i].title) == i then [s[i]] else []) + FirstOfTitle(s, i + 1)
  {
  }

  /** Each kept article is the first of its title in `s`, found at or after `i`. */
  lemma {:induction false} FirstOfTitleFirst(s: seq<Article>, i: nat)
    requires i <= |s|
    ensures AllFirst(s, i, FirstOfTitle(s, i))
    decreases |s| - i
  {
    if i < |s| {
      FirstOfTitleFirst(s, i + 1);
      FirstOfTitleStep(s, i);
      if FindIndex(s, s[i].title) == i {
        AllFirstCons(s, i, FirstOfTitle(s, i + 1));
      } else {
        AllFirstWeaken(s, i, FirstOfTitle(s, i + 1));
      }
    }
  }

  lemma AllFirstCons(s: seq<Article>, i: nat, rest: seq<Article>)
    requires i < |s| && FindIndex(s, s[i].title) == i && AllFirst(s, i + 1, rest)
    ensures AllFirst(s, i, [s[i]] + rest)
  {
    var r := [s[i]] + rest;
    forall k | 0 <= k < |r|
      ensures i <= FindIndex(s, r[k].title) && s[FindIndex(s, r[k].title)] == r[k]
    {
      if k > 0 {
        assert r[k] == rest[k - 1];
      }
    }
  }

  lemma AllFirstWeaken(s: seq<Article>, i: nat, rest: seq<Article>)
    requires AllFirst(s, i + 1, rest)
    ensures AllFirst(s, i, rest)
  {
  }

  /** The kept articles come in the order of their first occurrences. */
  lemma {:induction false} FirstOfTitleOrdered(s: seq<Article>, i: nat)
    requires i <= |s|
    ensures InFirstOrder(s, FirstOfTitle(s, i))
    decreases |s| - i
  {
    if i < |s| {
      FirstOfTitleOrdered(s, i + 1);
      FirstOfTitleFirst(s, i + 1);
      FirstOfTitleStep(s, i);
      if FindIndex(s, s[i].title) == i {
        InFirstOrderCons(s, i, FirstOfTitle(s, i + 1));
      }
    }
  }

  lemma InFirstOrderCons(s: seq<Article>, i: nat, rest: seq<Article>)
    requires i < |s| && FindIndex(s, s[i].title) == i
    requires AllFirst(s, i + 1, rest) && InFirstOrder(s, rest)
    ensures InFirstOrder(s, [s[i]] + rest)
  {
    var r := [s[i]] + rest;
    forall k1, k2 | 0 <= k1 < k2 < |r|
      ensures FindIndex(s, r[k1].title) < FindIndex(s, r[k2].title)
    {
      var b := rest[k2 - 1];
      assert r[k2] == b;
      assert i + 1 <= FindIndex(s, b.title);
      if k1 == 0 {
        assert r[k1] == s[i];
      } else {
        assert r[k1] == rest[k1 - 1];
        assert FindIndex(s, rest[k1 - 1].title) < FindIndex(s, b.title);
      }
    }
  }

  /** Every title first met at or after `i` is kept. */
  lemma {:induction false} FirstOfTitleComplete(s: seq<Article>, i: nat)
    requires i <= |s|
    ensures forall j :: i <= j < |s| && FindIndex(s, s[j].title) >= i ==> s[j].title in Titles(FirstOfTitle(s, i))
    decreases |s| - i
  {
    if i < |s| {
      FirstOfTitleComplete(s, i + 1);
      var rest := FirstOfTitle(s, i + 1);
      var r := FirstOfTitle(s, i);
      forall j | i <= j < |s| && FindIndex(s, s[j].title) >= i
        ensures s[j].title in Titles(r)
      {
        if FindIndex(s, s[i].title) == i {
          assert r == [s[i]] + rest;
          assert Titles(r) == [s[i].title] + Titles(rest);
          if FindIndex(s, s[j].title) > i {
            assert j != i;
          }
        } else {
          assert r == rest;
          assert j != i;
        }
      }
    }
  }

  /** At most one article is kept per position. */
  lemma {:induction false} FirstOfTitleLength(s: seq<Article>, i: nat)
    requires i <= |s|
    ensures |FirstOfTitle(s, i)| <= |s| - i
    decreases |s| - i
  {
    if i < |s| {
      FirstOfTitleLength(s, i + 1);
      FirstOfTitleStep(s, i);
    }
  }

  /** The de-duplication by title. */
  function DedupByTitle(s: seq<Article>): (r: seq<Article>)
    ensures |r| <= |s|
  {
    FirstOfTitleLength(s, 0);
    FirstOfTitle(s, 0)
  }

  /** No two kept articles share a title. */
  lemma DedupDistinct(s: seq<Article>)
    ensures DistinctTitles(DedupByTitle(s))
  {
    FirstOfTitleOrdered(s, 0);
  }

  /** `s.slice(0, end)`: a negative end counts from the back. */
  function SliceTo<T>(s: seq<T>, end: int): (r: seq<T>)
    ensures |r| <= |s| && r == s[..|r|]
    ensures 0 <= end ==> |r| == if end < |s| then end else |s|
    ensures end < 0 ==> |r| == if |s| + end < 0 then 0 else |s| + end
  {
    if end < 0 then (if |s| + end < 0 then [] else s[..|s| + end])
    else if end < |s| then s[..end] else s
  }

  /** `content || description`: the text an article is summarised from. */
  function SummarySource(a: Article): string {
    if a.content != "" then a.content else a.description
  }

  /** What `filterAndSummarizeNews(articles)` returns. */
  function FilterAndSummarizeNews(settings: NewsSettings, articles: seq<Article>): (r: seq<Article>)
    ensures |r| <= |articles|
    ensures forall k :: 0 <= k < |r| ==> r[k].summary == Summarize(SummarySource(r[k]), SummaryLength(settings))
  {
    var limited := SliceTo(DedupByTitle(Relevant(articles, Keywords(settings))), MaxArticles(settings));
    seq(|limited|, k requires 0 <= k < |limited| =>
      limited[k].(summary := Summarize(SummarySource(limited[k]), SummaryLength(settings))))
  }

  /** Without keywords no article is relevant. */
  lemma {:induction false} NothingRelevant(articles: seq<Article>)
    ensures Relevant(articles, []) == []
  {
    if articles != [] {
      NothingRelevant(articles[1..]);
    }
  }

  /** Without keywords nothing is returned. */
  lemma NoKeywordsNoNews(settings: NewsSettings, articles: seq<Article>)
    requires Keywords(settings) == []
    ensures FilterAndSummarizeNews(settings, articles) == []
  {
    NothingRelevant(articles);
  }

  /** What `filterAndSummarizeNews` promises: at most `max_articles || 5` articles when
      that is positive, pairwise distinct titles, each an input article that contains a
      keyword, with only its summary replaced by the summary of its content (or, without
      content, its description) to `summary_length || 200` characters. */
  lemma FilterFacts(settings: NewsSettings, articles: seq<Article>)
    ensures MaxArticles(settings) >= 0 ==> |FilterAndSummarizeNews(settings, articles)| <= MaxArticles(settings)
    ensures DistinctTitles(FilterAndSummarizeNews(settings, articles))
    ensures SummarizedFrom(FilterAndSummarizeNews(settings, articles), articles, settings)
  {
    var unique := DedupByTitle(Relevant(articles, Keywords(settings)));
    var r := FilterAndSummarizeNews(settings, articles);
    DedupDistinct(Relevant(articles, Keywords(settings)));
    assert forall k :: 0 <= k < |r| ==> r[k].title == unique[k].title;
    forall k | 0 <= k < |r|
      ensures r[k].(summary := "") in Blank(articles)
      ensures ContainsKeywords(SearchText(r[k]), Keywords(settings))
      ensures r[k].summary == Summarize(SummarySource(r[k]), SummaryLength(settings))
    {
      FilteredArticle(settings, articles, k);
    }
  }

  /** Article `k` of the result is a relevant input article with its summary replaced. */
  lemma FilteredArticle(settings: NewsSettings, articles: seq<Article>, k: nat)
    requires k < |FilterAndSummarizeNews(settings, articles)|
    ensures var r := FilterAndSummarizeNews(settings, articles);
      r[k].(summary := "") in Blank(articles)
      && ContainsKeywords(SearchText(r[k]), Keywords(settings))
      && r[k].summary == Summarize(SummarySource(r[k]), SummaryLength(settings))
  {
    var relevant := Relevant(articles, Keywords(settings));
    var unique := DedupByTitle(relevant);
    var r := FilterAndSummarizeNews(settings, articles);
    var a := unique[k];
    assert r[k] == a.(summary := Summarize(SummarySource(a), SummaryLength(settings)));
    FirstOfTitleFirst(relevant, 0);
    var j := FindIndex(relevant, a.title);
    assert relevant[j] == a;
    assert a in relevant;
    var i :| 0 <= i < |articles| && articles[i] == a;
    assert Blank(articles)[i] == r[k].(summary := "");
  }


  /** Each article of `r` is one of `articles`, contains a keyword, and carries the summary
      of its content (or description). */
  predicate SummarizedFrom(r: seq<Article>, articles: seq<Article>, settings: NewsSettings) {
    forall k :: 0 <= k < |r| ==>
      r[k].(summary := "") in Blank(articles)
      && ContainsKeywords(SearchText(r[k]), Keywords(settings))
      && r[k].summary == Summarize(SummarySource(r[k]), SummaryLength(settings))
  }

  /** The articles with their summaries cleared, for comparing the other fields. */
  function Blank(articles: seq<Article>): (r: seq<Article>)
    ensures |r| == |articles| && forall k :: 0 <= k < |articles| ==> r[k] == articles[k].(summary := "")
  {
    seq(|articles|, k requires 0 <= k < |articles| => articles[k].(summary := ""))
  }
}
