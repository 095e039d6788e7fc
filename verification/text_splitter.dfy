/** The sentence-aware chunker and reading-file writer of lib/text-splitter.js. The file
    system is a map from path to content: each method receives the current map and returns
    the map after its writes. */
module TextSplitter {
  import opened Common
  import opened Text
  import opened Json
  import opened Articles
  import ConfigManager

  // ---------------------------------------------------------------------------------------
  // Sentences

  predicate IsSentenceEnd(c: char) {
    c == '。' || c == '．' || c == '！' || c == '？'
  }

  /** `text.split(/([。．！？])/)`: the text between delimiters, with each delimiter kept as a
      piece of its own between them. */
  function SplitKeep(s: string): (r: seq<string>)
    ensures |r| % 2 == 1
    ensures Concat(r) == s
  {
    if s == [] then [""]
    else
      var rest := SplitKeep(s[1..]);
      if IsSentenceEnd(s[0]) then
        assert Concat(["", [s[0]]] + rest) == "" + Concat([[s[0]]] + rest);
        ["", [s[0]]] + rest
      else
        assert Concat(rest) == rest[0] + Concat(rest[1..]);
        [[s[0]] + rest[0]] + rest[1..]
  }

  /** `.filter(s => s.length > 0)`. */
  function NonEmpty(pieces: seq<string>): (r: seq<string>)
    ensures forall k :: 0 <= k < |r| ==> r[k] != []
    ensures forall c :: c in r ==> c in pieces
    ensures Concat(r) == Concat(pieces)
  {
    if pieces == [] then []
    else if pieces[0] == [] then NonEmpty(pieces[1..])
    else [pieces[0]] + NonEmpty(pieces[1..])
  }

  /** The pieces glued in twos, `pieces[i] + (pieces[i + 1] || '')`. */
  function Pair(pieces: seq<string>): (r: seq<string>)
    ensures |r| == (|pieces| + 1) / 2
    ensures Concat(r) == Concat(pieces)
    ensures (forall k :: 0 <= k < |pieces| ==> pieces[k] != []) ==> forall k :: 0 <= k < |r| ==> r[k] != []
  {
    if |pieces| <= 1 then pieces
    else
      assert Concat(pieces) == pieces[0] + pieces[1] + Concat(pieces[2..]) by {
        assert pieces[1..][1..] == pieces[2..];
      }
      [pieces[0] + pieces[1]] + Pair(pieces[2..])
  }

  lemma {:induction false} PairAt(pieces: seq<string>, k: nat)
    requires 2 * k < |pieces|
    ensures Pair(pieces)[k] == pieces[2 * k] + (if 2 * k + 1 < |pieces| then pieces[2 * k + 1] else "")
  {
    if k > 0 {
      PairAt(pieces[2..], k - 1);
      assert Pair(pieces)[k] == Pair(pieces[2..])[k - 1];
    }
  }

  /** The sentence units the chunker packs: non-empty, and together exactly the text. */
  function Sentences(text: string): (r: seq<string>)
    ensures Concat(r) == text
    ensures forall k :: 0 <= k < |r| ==> r[k] != []
  {
    Pair(NonEmpty(SplitKeep(text)))
  }

  // ---------------------------------------------------------------------------------------
  // Forced split of an over-long sentence

  /** How many characters a greedy `.{1,max}` takes at the start of `s`. */
  function RunLength(s: string, max: nat): (n: nat)
    ensures n <= max && n <= |s|
    ensures NoLineTerminator(s[..n])
    ensures n < max && n < |s| ==> IsLineTerminator(s[n])
  {
    if max == 0 || s == [] || IsLineTerminator(s[0]) then 0
    else
      var n := 1 + RunLength(s[1..], max - 1);
      assert s[..n] == [s[0]] + s[1..][..n - 1];
      n
  }

  predicate AllLineTerminators(s: string) {
    forall i :: 0 <= i < |s| ==> IsLineTerminator(s[i])
  }

  /** `s.match(/.{1,max}/g)`, with `[]` standing for `null`: the runs between line
      terminators, cut greedily into pieces of at most `max` characters. */
  function MatchAll(s: string, max: nat): (r: seq<string>)
    requires max >= 1
    ensures forall k :: 0 <= k < |r| ==> 1 <= |r[k]| <= max && NoLineTerminator(r[k])
    ensures r == [] <==> AllLineTerminators(s)
    decreases |s|
  {
    if s == [] then []
    else if IsLineTerminator(s[0]) then
      var r := MatchAll(s[1..], max);
      assert AllLineTerminators(s) <==> AllLineTerminators(s[1..]);
      r
    else
      var n := RunLength(s, max);
      [s[..n]] + MatchAll(s[n..], max)
  }

  /** The source text of `.{1,max}` after the dot, for a negative `max`. Not being a valid
      quantifier, `{1,-5}` is read as the literal characters `{1,-5}`. */
  function BraceLiteral(max: int): (r: string)
    requires max < 0
    ensures |r| >= 5 && r[0] == '{' && r[|r| - 1] == '}'
  {
    "{1," + IntToString(max) + "}"
  }

  /** `s.match(/.L/g)` for a literal `L`, with `[]` standing for `null`: from left to right,
      each occurrence of `L` behind a character other than a line terminator, together with
      that character, without overlaps. */
  function MatchLiteral(s: string, lit: string): (r: seq<string>)
    requires lit != []
    ensures forall k :: 0 <= k < |r| ==> |r[k]| == 1 + |lit| && !IsLineTerminator(r[k][0]) && r[k][1..] == lit
    decreases |s|
  {
    if |s| < 1 + |lit| then []
    else if !IsLineTerminator(s[0]) && s[1..1 + |lit|] == lit then [s[..1 + |lit|]] + MatchLiteral(s[1 + |lit|..], lit)
    else MatchLiteral(s[1..], lit)
  }

  /** Text without the literal's first character holds no match. */
  lemma {:induction false} MatchLiteralNone(s: string, lit: string)
    requires lit != [] && lit[0] !in s
    ensures MatchLiteral(s, lit) == []
    decreases |s|
  {
    if |s| >= 1 + |lit| {
      assert s[1..1 + |lit|][0] == s[1];
      MatchLiteralNone(s[1..], lit);
    }
  }

  /** `sentence.match(new RegExp(`.{1,${max}}`, 'g')) || [sentence]`. A limit of 0 is left
      out: `.{1,0}` is a `SyntaxError`. */
  function ForceSplit(s: string, max: int): seq<string>
    requires max != 0
  {
    if max >= 1 then (if MatchAll(s, max) == [] then [s] else MatchAll(s, max))
    else (if MatchLiteral(s, BraceLiteral(max)) == [] then [s] else MatchLiteral(s, BraceLiteral(max)))
  }

  /** On a string without line terminators the forced split loses nothing: the pieces are
      consecutive, each exactly `max` long except possibly the last. */
  lemma MatchAllExact(s: string, max: nat)
    requires max >= 1 && NoLineTerminator(s)
    ensures Concat(MatchAll(s, max)) == s
    ensures forall k :: 0 <= k < |MatchAll(s, max)| - 1 ==> |MatchAll(s, max)[k]| == max
  {
    MatchAllConcat(s, max);
    MatchAllFull(s, max);
  }

  lemma {:induction false} MatchAllConcat(s: string, max: nat)
    requires max >= 1 && NoLineTerminator(s)
    ensures Concat(MatchAll(s, max)) == s
    decreases |s|
  {
    if s != [] {
      var n := RunLength(s, max);
      RunLengthFull(s, max);
      var rest := s[n..];
      NoLineTerminatorSuffix(s, n);
      MatchAllConcat(rest, max);
      MatchAllCons(s, max);
      ConcatCons(s[..n], MatchAll(rest, max));
      assert s == s[..n] + rest;
    }
  }

  lemma {:induction false} MatchAllFull(s: string, max: nat)
    requires max >= 1 && NoLineTerminator(s)
    ensures forall k :: 0 <= k < |MatchAll(s, max)| - 1 ==> |MatchAll(s, max)[k]| == max
    decreases |s|
  {
    if s != [] {
      var n := RunLength(s, max);
      RunLengthFull(s, max);
      var rest := s[n..];
      NoLineTerminatorSuffix(s, n);
      var tail := MatchAll(rest, max);
      MatchAllFull(rest, max);
      MatchAllCons(s, max);
      var r := MatchAll(s, max);
      assert n < max ==> |r| == 1 by {
        if n < max {
          assert rest == [];
        }
      }
      forall k | 0 <= k < |r| - 1 ensures |r[k]| == max {
        if k > 0 {
          assert r[k] == tail[k - 1];
        }
      }
    }
  }

  lemma MatchAllCons(s: string, max: nat)
    requires max >= 1 && s != [] && !IsLineTerminator(s[0])
    ensures MatchAll(s, max) == [s[..RunLength(s, max)]] + MatchAll(s[RunLength(s, max)..], max)
  {
  }

  /** On a string without line terminators a greedy run takes `max` characters or all. */
  lemma RunLengthFull(s: string, max: nat)
    requires max >= 1 && s != [] && NoLineTerminator(s)
    ensures !IsLineTerminator(s[0])
    ensures RunLength(s, max) == max || RunLength(s, max) == |s|
  {
    var n := RunLength(s, max);
    assert n < |s| ==> !IsLineTerminator(s[n]);
  }

  lemma NoLineTerminatorSuffix(s: string, n: nat)
    requires n <= |s| && NoLineTerminator(s)
    ensures NoLineTerminator(s[n..])
  {
    forall i | 0 <= i < |s[n..]| ensures !IsLineTerminator(s[n..][i]) {
      assert s[n..][i] == s[n + i];
    }
  }

  lemma ConcatCons(a: string, r: seq<string>)
    ensures Concat([a] + r) == a + Concat(r)
  {
    assert ([a] + r)[1..] == r;
  }

  // ---------------------------------------------------------------------------------------
  // Greedy packing

  /** The loop state of `splitTextByLength`: the chunks so far and the chunk being filled. */
  datatype Packing = Packing(chunks: seq<string>, current: string)

  /** One iteration of the packing loop. */
  function Step(p: Packing, sentence: string, max: int): Packing
    requires max != 0
  {
    if |p.current| + |sentence| <= max then Packing(p.chunks, p.current + sentence)
    else
      var flushed := Flush(p);
      if |sentence| > max then Packing(flushed + ForceSplit(sentence, max), "")
      else Packing(flushed, sentence)
  }

  /** The chunks with the pending chunk, trimmed, pushed when it is non-empty. */
  function Flush(p: Packing): seq<string> {
    if |p.current| > 0 then p.chunks + [Trim(p.current)] else p.chunks
  }

  /** The packing loop run over `ss` from the empty state. */
  function Pack(ss: seq<string>, max: int): (r: Packing)
    requires max != 0
    ensures max >= 1 ==> |r.current| <= max
    ensures max < 0 ==> r.current == ""
  {
    if ss == [] then Packing([], "") else Step(Pack(ss[..|ss| - 1], max), ss[|ss| - 1], max)
  }

  lemma PackSnoc(ss: seq<string>, k: nat, max: int)
    requires max != 0 && k < |ss|
    ensures Pack(ss[..k + 1], max) == Step(Pack(ss[..k], max), ss[k], max)
  {
    assert ss[..k + 1][..k] == ss[..k];
  }

  /** What `splitTextByLength(text, max)` returns. */
  function SplitByLength(text: string, max: int): (r: seq<string>)
    requires max != 0
    ensures forall k :: 0 <= k < |r| ==> r[k] != []
    ensures text == [] ==> r == []
  {
    NonEmpty(Flush(Pack(Sentences(text), max)))
  }

  /** `splitTextByLength(text, maxLength)`. */
  method SplitTextByLength(text: string, maxLength: int) returns (r: seq<string>)
    requires maxLength != 0
    ensures r == SplitByLength(text, maxLength)
  {
    var chunks: seq<string> := [];
    var currentChunk := "";
    var sentences := NonEmpty(SplitKeep(text));
    var i := 0;
    ghost var k := 0;
    while i < |sentences|
      invariant i == 2 * k && k <= |Pair(sentences)|
      invariant Packing(chunks, currentChunk) == Pack(Pair(sentences)[..k], maxLength)
    {
      PairAt(sentences, k);
      var sentence := sentences[i] + (if i + 1 < |sentences| then sentences[i + 1] else "");
      PackSnoc(Pair(sentences), k, maxLength);
      if |currentChunk| + |sentence| <= maxLength {
        currentChunk := currentChunk + sentence;
      } else {
        if |currentChunk| > 0 {
          chunks := chunks + [Trim(currentChunk)];
          currentChunk := "";
        }
        if |sentence| > maxLength {
          chunks := chunks + ForceSplit(sentence, maxLength);
        } else {
          currentChunk := sentence;
        }
      }
      i := i + 2;
      k := k + 1;
    }
    assert Pair(sentences)[..k] == Pair(sentences);
    if |currentChunk| > 0 {
      chunks := chunks + [Trim(currentChunk)];
    }
    r := NonEmpty(chunks);
  }

  /** Every chunk respects the limit, except a forced-split fallback: a sentence longer than
      the limit made only of line terminators, which `.{1,max}` cannot match. */
  lemma {:induction false} PackBounded(ss: seq<string>, max: nat)
    requires max >= 1
    ensures |Pack(ss, max).current| <= max
    ensures forall c :: c in Pack(ss, max).chunks ==> |c| <= max || (c in ss && AllLineTerminators(c))
  {
    if ss != [] {
      var prev := ss[..|ss| - 1];
      PackBounded(prev, max);
      assert forall c :: c in prev ==> c in ss;
    }
  }

  lemma {:induction false} ConcatHas(ss: seq<string>, c: string, ch: char)
    requires c in ss && ch in c
    ensures ch in Concat(ss)
  {
    if ss[0] != c {
      ConcatHas(ss[1..], c, ch);
    }
  }

  /** Every chunk is at most `max` long or is a sentence made only of line terminators; for a
      text without line terminators, every chunk is at most `max` long. */
  lemma ChunksBounded(text: string, max: nat)
    requires max >= 1
    ensures forall c :: c in SplitByLength(text, max) ==>
      |c| <= max || (c in Sentences(text) && AllLineTerminators(c))
    ensures NoLineTerminator(text) ==> forall c :: c in SplitByLength(text, max) ==> |c| <= max
  {
    var ss := Sentences(text);
    PackBounded(ss, max);
    var p := Pack(ss, max);
    assert forall c :: c in Flush(p) ==> |c| <= max || (c in ss && AllLineTerminators(c));
    if NoLineTerminator(text) {
      forall c | c in SplitByLength(text, max) ensures |c| <= max {
        if |c| > max {
          ConcatHas(ss, c, c[0]);
        }
      }
    }
  }

  lemma FlushConcat(p: Packing)
    requires NoWhitespace(p.current)
    ensures Concat(Flush(p)) == Concat(p.chunks) + p.current
  {
    TrimNoWhitespace(p.current);
    ConcatAppend(p.chunks, [Trim(p.current)]);
    assert Concat([Trim(p.current)]) == Trim(p.current);
  }

  lemma ForceSplitConcat(s: string, max: nat)
    requires max >= 1 && NoLineTerminator(s)
    ensures Concat(ForceSplit(s, max)) == s
  {
    MatchAllExact(s, max);
    assert Concat([s]) == s;
  }

  lemma StepConcat(p: Packing, s: string, max: nat)
    requires max >= 1 && NoWhitespace(p.current) && NoWhitespace(s)
    ensures Concat(Step(p, s, max).chunks) + Step(p, s, max).current == Concat(p.chunks) + p.current + s
    ensures NoWhitespace(Step(p, s, max).current)
  {
    if |p.current| + |s| > max {
      FlushConcat(p);
      if |s| > max {
        ForceSplitConcat(s, max);
        ConcatAppend(Flush(p), ForceSplit(s, max));
      }
    }
  }

  /** On sentences without whitespace, packing loses and reorders nothing. */
  lemma {:induction false} PackConcat(ss: seq<string>, max: nat)
    requires max >= 1
    requires forall c :: c in ss ==> NoWhitespace(c)
    ensures Concat(Pack(ss, max).chunks) + Pack(ss, max).current == Concat(ss)
    ensures NoWhitespace(Pack(ss, max).current)
  {
    if ss != [] {
      var prev := ss[..|ss| - 1];
      var s := ss[|ss| - 1];
      assert forall c :: c in prev ==> c in ss;
      PackConcat(prev, max);
      StepConcat(Pack(prev, max), s, max);
      ConcatAppend(prev, [s]);
      assert prev + [s] == ss;
      assert Concat([s]) == s;
    }
  }

  /** A text without whitespace comes back whole: the chunks, in order, spell the text. */
  lemma NoWhitespaceRoundTrip(text: string, max: nat)
    requires max >= 1 && NoWhitespace(text)
    ensures Concat(SplitByLength(text, max)) == text
  {
    var ss := Sentences(text);
    forall c | c in ss ensures NoWhitespace(c) {
      forall i | 0 <= i < |c| ensures !IsWhitespace(c[i]) {
        ConcatHas(ss, c, c[i]);
      }
    }
    PackConcat(ss, max);
    var p := Pack(ss, max);
    TrimNoWhitespace(p.current);
    ConcatAppend(p.chunks, [Trim(p.current)]);
    assert Concat([Trim(p.current)]) == Trim(p.current);
  }

  /** A sentence longer than the limit flushes the pending chunk first and then becomes
      pieces of its own; nothing is left pending, so the next sentence starts afresh. */
  lemma LongSentenceStandsAlone(p: Packing, sentence: string, max: nat)
    requires max >= 1 && |sentence| > max && NoLineTerminator(sentence)
    ensures Step(p, sentence, max) == Packing(Flush(p) + MatchAll(sentence, max), "")
    ensures Concat(MatchAll(sentence, max)) == sentence
    ensures forall k :: 0 <= k < |MatchAll(sentence, max)| - 1 ==> |MatchAll(sentence, max)[k]| == max
  {
    MatchAllExact(sentence, max);
  }

  /** A negative limit never lets a sentence join the pending chunk, so every sentence is cut
      on its own by the literal pattern; sentences without '{' have no match and each becomes
      one chunk, untrimmed. */
  lemma {:induction false} NegativeLimitPack(ss: seq<string>, max: int)
    requires max < 0
    requires forall k :: 0 <= k < |ss| ==> '{' !in ss[k]
    ensures Pack(ss, max) == Packing(ss, "")
  {
    NegativeLimitPackPrefix(ss, max, |ss|);
    assert ss[..|ss|] == ss;
  }

  lemma {:induction false} NegativeLimitPackPrefix(ss: seq<string>, max: int, i: nat)
    requires max < 0 && i <= |ss|
    requires forall k :: 0 <= k < |ss| ==> '{' !in ss[k]
    ensures Pack(ss[..i], max) == Packing(ss[..i], "")
  {
    if i > 0 {
      NegativeLimitPackPrefix(ss, max, i - 1);
      NegativeLimitPackNext(ss, max, i - 1);
    }
  }

  lemma NegativeLimitPackNext(ss: seq<string>, max: int, i: nat)
    requires max < 0 && i < |ss| && '{' !in ss[i]
    requires Pack(ss[..i], max) == Packing(ss[..i], "")
    ensures Pack(ss[..i + 1], max) == Packing(ss[..i + 1], "")
  {
    PackSnoc(ss, i, max);
    NegativeLimitStep(ss[..i], ss[i], max);
    TakeSnoc(ss, i + 1);
  }

  lemma NegativeLimitStep(prev: seq<string>, last: string, max: int)
    requires max < 0 && '{' !in last
    ensures Step(Packing(prev, ""), last, max) == Packing(prev + [last], "")
  {
    MatchLiteralNone(last, BraceLiteral(max));
  }

  lemma {:induction false} NonEmptyKeepsAll(pieces: seq<string>)
    requires forall k :: 0 <= k < |pieces| ==> pieces[k] != []
    ensures NonEmpty(pieces) == pieces
  {
    if pieces != [] {
      NonEmptyKeepsAll(pieces[1..]);
    }
  }

  /** With a negative limit, a text without '{' is split into exactly its sentence units:
      no merging, no cutting and no trimming. */
  lemma NegativeLimitSentences(text: string, max: int)
    requires max < 0 && '{' !in text
    ensures SplitByLength(text, max) == Sentences(text)
  {
    var ss := Sentences(text);
    forall k | 0 <= k < |ss| ensures '{' !in ss[k] {
      if '{' in ss[k] {
        ConcatHas(ss, ss[k], '{');
      }
    }
    NegativeLimitPack(ss, max);
    NonEmptyKeepsAll(ss);
  }

  // ---------------------------------------------------------------------------------------
  // Reading files

  const DefaultMaxChars := 300
  const DefaultPrefix := "news_reading_"

  /** `config.news?.reading?.[key]`. */
  function ReadingOption(config: Json, key: string): Option<Json> {
    ConfigManager.Lookup(config, ["news", "reading", key])
  }

  /** `split_files !== false`. */
  predicate SplitFiles(config: Json) {
    ReadingOption(config, "split_files") != Some(JBool(false))
  }

  /** `include_metadata === true`. */
  predicate IncludeMetadata(config: Json) {
    ReadingOption(config, "include_metadata") == Some(JBool(true))
  }

  /** `max_chars_per_file || 300` for a number: a non-zero number, negative ones included, is
      kept and 0 gives 300. Any other setting gives 300 here. */
  function MaxCharsPerFile(config: Json): (r: int)
    ensures r != 0
    ensures var o := ReadingOption(config, "max_chars_per_file");
      (o.Some? && o.value.JNum? && o.value.n != 0 ==> r == o.value.n)
      && (o.None? || !Truthy(o.value) ==> r == DefaultMaxChars)
  {
    match ReadingOption(config, "max_chars_per_file")
    case Some(JNum(n)) => if n != 0 then n else DefaultMaxChars
    case _ => DefaultMaxChars
  }

  /** `output_prefix || 'news_reading_'`: a non-empty string is used as it is, a non-zero
      number and `true` as their template rendering, and a falsy value or a missing key gives
      the default. An array or object setting gives the default here. */
  function OutputPrefix(config: Json): (r: string)
    ensures r != []
    ensures var o := ReadingOption(config, "output_prefix");
      (o.Some? && o.value.JStr? && o.value.s != "" ==> r == o.value.s)
      && (o.None? || !Truthy(o.value) ==> r == DefaultPrefix)
  {
    match ReadingOption(config, "output_prefix")
    case Some(JStr(s)) => if s != "" then s else DefaultPrefix
    case Some(JNum(n)) => if n != 0 then IntToString(n) else DefaultPrefix
    case Some(JBool(b)) => if b then "true" else DefaultPrefix
    case _ => DefaultPrefix
  }

  datatype FileWrite = FileWrite(path: string, content: string)

  /** The file system after the writes, performed in order. */
  function Apply(files: map<string, string>, writes: seq<FileWrite>): map<string, string>
    decreases |writes|
  {
    if writes == [] then files else Apply(files[writes[0].path := writes[0].content], writes[1..])
  }

  function Paths(writes: seq<FileWrite>): (r: seq<string>)
    ensures |r| == |writes| && forall k :: 0 <= k < |r| ==> r[k] == writes[k].path
  {
    seq(|writes|, k requires 0 <= k < |writes| => writes[k].path)
  }

  /** The name of chunk file `j`: `stem + pad2(j + 1) + ".txt"`. */
  function ChunkName(stem: string, j: nat): string {
    stem + Pad2(j + 1) + ".txt"
  }

  /** The chunk files `ChunkName(stem, j)` in `dir`, one per chunk, in order. */
  function ChunkWrites(dir: string, stem: string, chunks: seq<string>): (r: seq<FileWrite>)
    ensures |r| == |chunks|
  {
    seq(|chunks|, j requires 0 <= j < |chunks| => FileWrite(PathJoin(dir, ChunkName(stem, j)), chunks[j]))
  }

  /** Each article's summary chunked on its own. */
  function ChunkLists(articles: seq<Article>, max: int): (r: seq<seq<string>>)
    requires max != 0
    ensures |r| == |articles|
  {
    seq(|articles|, i requires 0 <= i < |articles| => SplitByLength(articles[i].summary, max))
  }

  /** Split mode: the chunk files of article `i` are `prefix + pad2(i + 1) + "_" + pad2(j + 1)
      + ".txt"`, article after article. */
  function SplitModeWrites(dir: string, prefix: string, lists: seq<seq<string>>): (r: seq<FileWrite>)
    ensures |r| == TotalChunks(lists)
    decreases |lists|
  {
    if lists == [] then []
    else
      var n := |lists|;
      SplitModeWrites(dir, prefix, lists[..n - 1]) + ChunkWrites(dir, prefix + Pad2(n) + "_", lists[n - 1])
  }

  /** Combined mode's count header, present only with metadata. */
  function CombinedHeader(articles: seq<Article>, includeMetadata: bool): string {
    if includeMetadata then "" + "ニュース要約。" + NatToString(|articles|) + "件の記事があります。" else ""
  }

  /** `content` with one article appended: `記事N。` with metadata, then `title。summary。`. */
  function AppendArticle(content: string, index: nat, article: Article, includeMetadata: bool): string {
    (if includeMetadata then content + "記事" + NatToString(index + 1) + "。" else content)
      + article.title + "。" + article.summary + "。"
  }

  /** `content` with every article of `articles` appended in order. */
  function AppendArticles(content: string, articles: seq<Article>, includeMetadata: bool): string {
    if articles == [] then content
    else
      AppendArticle(AppendArticles(content, articles[..|articles| - 1], includeMetadata),
        |articles| - 1, articles[|articles| - 1], includeMetadata)
  }

  /** Combined mode's text: the optional count header, then every article. */
  function CombinedContent(articles: seq<Article>, includeMetadata: bool): string {
    AppendArticles(CombinedHeader(articles, includeMetadata), articles, includeMetadata)
  }

  /** Every file `createReadingFiles` writes, in order. */
  function ReadingWrites(config: Json, articles: seq<Article>, dir: string): (r: seq<FileWrite>)
    ensures SplitFiles(config) ==> |r| == TotalChunks(ChunkLists(articles, MaxCharsPerFile(config)))
    ensures !SplitFiles(config) ==>
      |r| == |SplitByLength(CombinedContent(articles, IncludeMetadata(config)), MaxCharsPerFile(config))|
  {
    var max := MaxCharsPerFile(config);
    if SplitFiles(config) then SplitModeWrites(dir, OutputPrefix(config), ChunkLists(articles, max))
    else ChunkWrites(dir, OutputPrefix(config), SplitByLength(CombinedContent(articles, IncludeMetadata(config)), max))
  }

  /** The `chunks.forEach` loop of `createReadingFiles`: writes chunk `j` to
      `outputDir/stem + pad2(j + 1) + ".txt"` and records the path. */
  method WriteChunkFiles(outputDir: string, stem: string, chunks: seq<string>, files: map<string, string>)
    returns (createdFiles: seq<string>, files': map<string, string>)
    ensures createdFiles == Paths(ChunkWrites(outputDir, stem, chunks))
    ensures files' == Apply(files, ChunkWrites(outputDir, stem, chunks))
  {
    createdFiles := [];
    files' := files;
    ghost var done: seq<FileWrite> := [];
    var chunkIndex := 0;
    while chunkIndex < |chunks|
      invariant 0 <= chunkIndex <= |chunks|
      invariant done == ChunkWrites(outputDir, stem, chunks[..chunkIndex])
      invariant createdFiles == Paths(done) && files' == Apply(files, done)
    {
      var filePath := PathJoin(outputDir, ChunkName(stem, chunkIndex));
      ghost var w := FileWrite(filePath, chunks[chunkIndex]);
      ApplyAppend(files, done, w);
      files' := files'[filePath := chunks[chunkIndex]];
      createdFiles := createdFiles + [filePath];
      ChunkWritesSnoc(outputDir, stem, chunks, chunkIndex);
      done := done + [w];
      chunkIndex := chunkIndex + 1;
    }
    assert chunks[..chunkIndex] == chunks;
  }

  /** The combined text, built with `+=` as `createReadingFiles` does. */
  method BuildCombinedContent(articles: seq<Article>, includeMetadata: bool) returns (allContent: string)
    ensures allContent == CombinedContent(articles, includeMetadata)
  {
    allContent := "";
    if includeMetadata {
      allContent := allContent + "ニュース要約。" + NatToString(|articles|) + "件の記事があります。";
    }
    var header := allContent;
    var index := 0;
    while index < |articles|
      invariant 0 <= index <= |articles|
      invariant allContent == AppendArticles(header, articles[..index], includeMetadata)
    {
      assert articles[..index + 1][..index] == articles[..index];
      if includeMetadata {
        allContent := allContent + "記事" + NatToString(index + 1) + "。";
      }
      allContent := allContent + articles[index].title + "。";
      allContent := allContent + articles[index].summary + "。";
      index := index + 1;
    }
    assert articles[..index] == articles;
  }

  lemma ChunkWritesSnoc(dir: string, stem: string, chunks: seq<string>, k: nat)
    requires k < |chunks|
    ensures ChunkWrites(dir, stem, chunks[..k + 1])
      == ChunkWrites(dir, stem, chunks[..k]) + [FileWrite(PathJoin(dir, ChunkName(stem, k)), chunks[k])]
  {
    var a := ChunkWrites(dir, stem, chunks[..k + 1]);
    var b := ChunkWrites(dir, stem, chunks[..k]) + [FileWrite(PathJoin(dir, ChunkName(stem, k)), chunks[k])];
    assert |a| == |b|;
    forall j | 0 <= j < |a| ensures a[j] == b[j] {
      assert chunks[..k + 1][j] == chunks[j];
    }
  }

  /** `createReadingFiles(articles, outputDir)`: returns the created paths and the file
      system after the writes. */
  method CreateReadingFiles(config: Json, articles: seq<Article>, outputDir: string, files: map<string, string>)
    returns (createdFiles: seq<string>, files': map<string, string>)
    ensures createdFiles == Paths(ReadingWrites(config, articles, outputDir))
    ensures files' == Apply(files, ReadingWrites(config, articles, outputDir))
  {
    var maxChars := MaxCharsPerFile(config);
    var prefix := OutputPrefix(config);
    if SplitFiles(config) {
      createdFiles, files' := WriteSplitFiles(outputDir, prefix, articles, maxChars, files);
    } else {
      var allContent := BuildCombinedContent(articles, IncludeMetadata(config));
      var chunks := SplitTextByLength(allContent, maxChars);
      createdFiles, files' := WriteChunkFiles(outputDir, prefix, chunks, files);
    }
  }

  /** Split mode of `createReadingFiles`: article after article, its summary's chunks. */
  method WriteSplitFiles(outputDir: string, prefix: string, articles: seq<Article>, maxChars: int,
                         files: map<string, string>)
    returns (createdFiles: seq<string>, files': map<string, string>)
    requires maxChars != 0
    ensures createdFiles == Paths(SplitModeWrites(outputDir, prefix, ChunkLists(articles, maxChars)))
    ensures files' == Apply(files, SplitModeWrites(outputDir, prefix, ChunkLists(articles, maxChars)))
  {
    createdFiles := [];
    files' := files;
    ghost var lists := ChunkLists(articles, maxChars);
    ghost var done: seq<FileWrite> := [];
    var index := 0;
    while index < |articles|
      invariant 0 <= index <= |articles|
      invariant done == SplitModeWrites(outputDir, prefix, lists[..index])
      invariant createdFiles == Paths(done) && files' == Apply(files, done)
    {
      var chunks := SplitTextByLength(articles[index].summary, maxChars);
      var stem := prefix + Pad2(index + 1) + "_";
      var paths, next := WriteChunkFiles(outputDir, stem, chunks, files');
      ghost var more := ChunkWrites(outputDir, stem, chunks);
      ApplyConcat(files, done, more);
      PathsConcat(done, more);
      SplitModeSnoc(outputDir, prefix, lists, index);
      createdFiles := createdFiles + paths;
      files' := next;
      done := done + more;
      index := index + 1;
    }
    assert lists[..index] == lists;
  }

  lemma SplitModeSnoc(dir: string, prefix: string, lists: seq<seq<string>>, k: nat)
    requires k < |lists|
    ensures SplitModeWrites(dir, prefix, lists[..k + 1])
      == SplitModeWrites(dir, prefix, lists[..k]) + ChunkWrites(dir, prefix + Pad2(k + 1) + "_", lists[k])
  {
    assert lists[..k + 1][..k] == lists[..k];
  }

  lemma PathsConcat(a: seq<FileWrite>, b: seq<FileWrite>)
    ensures Paths(a + b) == Paths(a) + Paths(b)
  {
  }

  lemma {:induction false} ApplyAppend(files: map<string, string>, writes: seq<FileWrite>, w: FileWrite)
    ensures Apply(files, writes + [w]) == Apply(files, writes)[w.path := w.content]
    decreases |writes|
  {
    if writes != [] {
      assert (writes + [w])[1..] == writes[1..] + [w];
      ApplyAppend(files[writes[0].path := writes[0].content], writes[1..], w);
    }
  }

  lemma {:induction false} ApplyConcat(files: map<string, string>, a: seq<FileWrite>, b: seq<FileWrite>)
    ensures Apply(files, a + b) == Apply(Apply(files, a), b)
    decreases |a|
  {
    if a != [] {
      assert (a + b)[1..] == a[1..] + b;
      ApplyConcat(files[a[0].path := a[0].content], a[1..], b);
    } else {
      assert a + b == b;
    }
  }

  /** Writes to other paths leave a path's content alone. */
  lemma {:induction false} ApplyUntouched(files: map<string, string>, writes: seq<FileWrite>, path: string)
    requires forall k :: 0 <= k < |writes| ==> writes[k].path != path
    ensures path in Apply(files, writes) <==> path in files
    ensures path in files ==> Apply(files, writes)[path] == files[path]
    decreases |writes|
  {
    if writes != [] {
      ApplyUntouched(files[writes[0].path := writes[0].content], writes[1..], path);
    }
  }

  /** The last write to a path decides its content. */
  lemma {:induction false} ApplyFinal(files: map<string, string>, writes: seq<FileWrite>, k: nat)
    requires k < |writes|
    requires forall m :: k < m < |writes| ==> writes[m].path != writes[k].path
    ensures writes[k].path in Apply(files, writes)
    ensures Apply(files, writes)[writes[k].path] == writes[k].content
    decreases |writes|
  {
    var next := files[writes[0].path := writes[0].content];
    if k == 0 {
      ApplyUntouched(next, writes[1..], writes[0].path);
    } else {
      ApplyFinal(next, writes[1..], k - 1);
    }
  }

  lemma PathJoinInjective(dir: string, a: string, b: string)
    requires PathJoin(dir, a) == PathJoin(dir, b)
    ensures a == b
  {
    if dir != "" {
      assert a == PathJoin(dir, a)[|dir| + 1..];
    }
  }

  /** Names `stem + A + tail` with different digit strings `A` and `B` followed by a
      non-digit never coincide. */
  lemma {:induction false} DigitFieldsDiffer(stem: string, a: string, b: string, sep: char, x: string, y: string)
    requires AllDigits(a) && AllDigits(b) && a != b && !IsDigit(sep)
    ensures stem + a + [sep] + x != stem + b + [sep] + y
  {
    var u := stem + a + [sep] + x;
    var v := stem + b + [sep] + y;
    if |a| < |b| {
      assert u[|stem| + |a|] == sep && v[|stem| + |a|] == b[|a|];
    } else if |b| < |a| {
      assert v[|stem| + |b|] == sep && u[|stem| + |b|] == a[|b|];
    } else {
      assert u[|stem|..|stem| + |a|] == a && v[|stem|..|stem| + |b|] == b;
    }
  }

  /** Chunk files of one stem get distinct names: the zero-padded numbers never collide. */
  lemma ChunkPathsDistinct(dir: string, stem: string, a: nat, b: nat)
    requires a != b
    ensures PathJoin(dir, ChunkName(stem, a)) != PathJoin(dir, ChunkName(stem, b))
  {
    ChunkNumbersDistinct(dir, stem, a + 1, b + 1);
  }

  lemma ChunkNumbersDistinct(dir: string, stem: string, a: nat, b: nat)
    requires a != b
    ensures PathJoin(dir, stem + Pad2(a) + ".txt") != PathJoin(dir, stem + Pad2(b) + ".txt")
  {
    if PathJoin(dir, stem + Pad2(a) + ".txt") == PathJoin(dir, stem + Pad2(b) + ".txt") {
      PathJoinInjective(dir, stem + Pad2(a) + ".txt", stem + Pad2(b) + ".txt");
      if Pad2(a) == Pad2(b) {
        Pad2Injective(a, b);
      } else {
        assert stem + Pad2(a) + ".txt" == stem + Pad2(a) + ['.'] + "txt";
        assert stem + Pad2(b) + ".txt" == stem + Pad2(b) + ['.'] + "txt";
        DigitFieldsDiffer(stem, Pad2(a), Pad2(b), '.', "txt", "txt");
      }
    }
  }

  /** In the directory after writing chunk files, the file for chunk `j` holds chunk `j`. */
  lemma ChunkFileHolds(files: map<string, string>, dir: string, stem: string, chunks: seq<string>, j: nat)
    requires j < |chunks|
    ensures var writes := ChunkWrites(dir, stem, chunks);
      var path := PathJoin(dir, ChunkName(stem, j));
      path in Apply(files, writes) && Apply(files, writes)[path] == chunks[j]
  {
    var writes := ChunkWrites(dir, stem, chunks);
    forall m | j < m < |writes| ensures writes[m].path != writes[j].path {
      ChunkPathsDistinct(dir, stem, m, j);
    }
    ApplyFinal(files, writes, j);
  }

  /** Split mode's name for chunk `j` of article `i`:
      `prefix + pad2(i + 1) + "_" + pad2(j + 1) + ".txt"`. */
  function SplitName(prefix: string, i: nat, j: nat): string {
    ChunkName(prefix + Pad2(i + 1) + "_", j)
  }

  /** Files of different articles get distinct names. */
  lemma SplitNameFields(prefix: string, i: nat, j: nat)
    ensures SplitName(prefix, i, j) == prefix + Pad2(i + 1) + ['_'] + (Pad2(j + 1) + ".txt")
  {
  }

  lemma SplitNamesDiffer(dir: string, prefix: string, i: nat, j: nat, i': nat, j': nat)
    requires i != i'
    ensures PathJoin(dir, SplitName(prefix, i, j)) != PathJoin(dir, SplitName(prefix, i', j'))
  {
    var u := SplitName(prefix, i, j);
    var v := SplitName(prefix, i', j');
    if PathJoin(dir, u) == PathJoin(dir, v) {
      PathJoinInjective(dir, u, v);
      if Pad2(i + 1) == Pad2(i' + 1) {
        Pad2Injective(i + 1, i' + 1);
      } else {
        SplitNameFields(prefix, i, j);
        SplitNameFields(prefix, i', j');
        DigitFieldsDiffer(prefix, Pad2(i + 1), Pad2(i' + 1), '_', Pad2(j + 1) + ".txt", Pad2(j' + 1) + ".txt");
      }
    }
  }

  /** Split mode: after the writes, the file named for article `i` and chunk `j` holds chunk
      `j` of article `i`, whatever the other articles produced. */
  lemma {:induction false} SplitModeFileHolds(files: map<string, string>, dir: string, prefix: string,
                                             lists: seq<seq<string>>, i: nat, j: nat)
    requires i < |lists| && j < |lists[i]|
    ensures var after := Apply(files, SplitModeWrites(dir, prefix, lists));
      var path := PathJoin(dir, SplitName(prefix, i, j));
      path in after && after[path] == lists[i][j]
    decreases |lists|
  {
    var n := |lists|;
    var earlier := SplitModeWrites(dir, prefix, lists[..n - 1]);
    var last := ChunkWrites(dir, prefix + Pad2(n) + "_", lists[n - 1]);
    ApplyConcat(files, earlier, last);
    var path := PathJoin(dir, SplitName(prefix, i, j));
    if i == n - 1 {
      ChunkFileHolds(Apply(files, earlier), dir, prefix + Pad2(n) + "_", lists[n - 1], j);
      assert SplitName(prefix, i, j) == ChunkName(prefix + Pad2(n) + "_", j);
    } else {
      SplitModeFileHolds(files, dir, prefix, lists[..n - 1], i, j);
      forall m | 0 <= m < |last| ensures last[m].path != path {
        assert last[m].path == PathJoin(dir, SplitName(prefix, n - 1, m));
        SplitNamesDiffer(dir, prefix, n - 1, m, i, j);
      }
      ApplyUntouched(Apply(files, earlier), last, path);
    }
  }

  /** The number of chunks over all articles. */
  function TotalChunks(lists: seq<seq<string>>): nat {
    if lists == [] then 0 else TotalChunks(lists[..|lists| - 1]) + |lists[|lists| - 1]|
  }

  /** Split mode creates exactly one file per chunk. */
  lemma {:induction false} SplitModeCount(dir: string, prefix: string, lists: seq<seq<string>>)
    ensures |SplitModeWrites(dir, prefix, lists)| == TotalChunks(lists)
    decreases |lists|
  {
    if lists != [] {
      SplitModeCount(dir, prefix, lists[..|lists| - 1]);
    }
  }

  /** The file for article `i`, chunk `j` comes after every chunk of the earlier articles:
      split mode's paths are in (i, j) order. */
  lemma SplitModeOrder(dir: string, prefix: string, lists: seq<seq<string>>, i: nat, j: nat)
    requires i < |lists| && j < |lists[i]|
    ensures TotalChunks(lists[..i]) + j < |SplitModeWrites(dir, prefix, lists)|
    ensures SplitModeWrites(dir, prefix, lists)[TotalChunks(lists[..i]) + j]
      == FileWrite(PathJoin(dir, SplitName(prefix, i, j)), lists[i][j])
  {
    var a := SplitModeWrites(dir, prefix, lists[..i]);
    var chunks := ChunkWrites(dir, prefix + Pad2(i + 1) + "_", lists[i]);
    var b := SplitModeWrites(dir, prefix, lists[..i + 1]);
    var w := SplitModeWrites(dir, prefix, lists);
    SplitModeCount(dir, prefix, lists[..i]);
    SplitModeSnoc(dir, prefix, lists, i);
    SplitModePrefix(dir, prefix, lists, i + 1);
    var idx := |a| + j;
    assert idx == TotalChunks(lists[..i]) + j;
    assert b[idx] == chunks[j];
    assert w[idx] == w[..|b|][idx];
    var stem := prefix + Pad2(i + 1) + "_";
    assert SplitName(prefix, i, j) == ChunkName(stem, j);
    assert chunks[j] == FileWrite(PathJoin(dir, ChunkName(stem, j)), lists[i][j]);
  }

  /** The writes of the first `m` articles begin the writes of all of them. */
  lemma {:induction false} SplitModePrefix(dir: string, prefix: string, lists: seq<seq<string>>, m: nat)
    requires m <= |lists|
    ensures |SplitModeWrites(dir, prefix, lists[..m])| <= |SplitModeWrites(dir, prefix, lists)|
    ensures SplitModeWrites(dir, prefix, lists)[..|SplitModeWrites(dir, prefix, lists[..m])|]
      == SplitModeWrites(dir, prefix, lists[..m])
    decreases |lists| - m
  {
    if m == |lists| {
      assert lists[..m] == lists;
    } else {
      SplitModePrefix(dir, prefix, lists, m + 1);
      SplitModeSnoc(dir, prefix, lists, m);
      var a := SplitModeWrites(dir, prefix, lists[..m]);
      var b := SplitModeWrites(dir, prefix, lists[..m + 1]);
      assert b[..|a|] == a;
      PrefixOfPrefix(SplitModeWrites(dir, prefix, lists), b, a);
    }
  }


  // ---------------------------------------------------------------------------------------
  // Summary report

  function KeywordsLine(keywords: seq<string>): string {
    var joined := Join(keywords, ", ");
    if joined != "" then joined else "なし"
  }

  function ReportHeader(date: string, keywords: seq<string>, rssFeedCount: nat, articleCount: nat): string {
    "# ニュース要約レポート\n"
      + "生成日時: " + date + "\n"
      + "検索キーワード: " + KeywordsLine(keywords) + "\n"
      + "記事数: " + NatToString(articleCount) + "件\n"
      + "RSSフィード数: " + NatToString(rssFeedCount) + "件\n\n"
  }

  /** `content` with the report section of one article appended. */
  function AppendSection(content: string, index: nat, article: Article): string {
    content
      + "## " + NatToString(index + 1) + ". " + article.title + "\n"
      + "**ソース**: " + article.source + "\n"
      + "**公開日**: " + article.pubDate + "\n"
      + "**URL**: " + article.link + "\n\n"
      + "**要約**:\n" + article.summary + "\n\n"
      + "---\n\n"
  }

  function AppendSections(content: string, articles: seq<Article>): string {
    if articles == [] then content
    else AppendSection(AppendSections(content, articles[..|articles| - 1]), |articles| - 1, articles[|articles| - 1])
  }

  /** The report text: `date` is the `toLocaleString('ja-JP')` rendering of the clock,
      `keywords` the configured keywords (absent is `[]`) and `rssFeedCount` the number of
      configured feeds (absent is 0). */
  function Report(date: string, keywords: seq<string>, rssFeedCount: nat, articles: seq<Article>): string {
    AppendSections(ReportHeader(date, keywords, rssFeedCount, |articles|), articles)
  }

  /** `outputSummaryToFile(articles, outputDir, outputFileName)`: writes exactly one file,
      `outputDir/outputFileName`, and returns its path. */
  method OutputSummaryToFile(articles: seq<Article>, outputDir: string, outputFileName: string,
                             date: string, keywords: seq<string>, rssFeedCount: nat,
                             files: map<string, string>)
    returns (outputFile: string, files': map<string, string>)
    ensures outputFile == PathJoin(outputDir, outputFileName)
    ensures files'.Keys == files.Keys + {outputFile}
    ensures forall p :: p in files && p != outputFile ==> files'[p] == files[p]
    ensures files'[outputFile] == Report(date, keywords, rssFeedCount, articles)
  {
    outputFile := PathJoin(outputDir, outputFileName);
    var header := ReportHeader(date, keywords, rssFeedCount, |articles|);
    var content := header;
    var index := 0;
    while index < |articles|
      invariant 0 <= index <= |articles|
      invariant content == AppendSections(header, articles[..index])
    {
      assert articles[..index + 1][..index] == articles[..index];
      content := content + "## " + NatToString(index + 1) + ". " + articles[index].title + "\n";
      content := content + "**ソース**: " + articles[index].source + "\n";
      content := content + "**公開日**: " + articles[index].pubDate + "\n";
      content := content + "**URL**: " + articles[index].link + "\n\n";
      content := content + "**要約**:\n" + articles[index].summary + "\n\n";
      content := content + "---\n\n";
      index := index + 1;
    }
    assert articles[..index] == articles;
    files' := files[outputFile := content];
  }
}
