/** Text utilities of lib/text-utils.js: `cleanText`, a chain of global regular-expression
    replacements, and `getLengthInstruction`, the length instruction put into the
    summarisation prompt. */
module TextUtils {
  import opened Text

  /** No '<' is followed anywhere later by '>': nothing tag-shaped is left. */
  predicate NoTagPair(s: string) {
    forall i | 0 <= i < |s| && s[i] == '<' :: '>' !in s[i + 1..]
  }

  /** Every whitespace character is a plain space and no two whitespace characters are adjacent. */
  predicate SingleSpaced(s: string) {
    (forall i | 0 <= i < |s| && IsWhitespace(s[i]) :: s[i] == ' ') &&
    (forall i | 0 <= i < |s| - 1 && IsWhitespace(s[i]) :: !IsWhitespace(s[i + 1]))
  }

  /** The index of the first `c` at or after `from`, if any. */
  function IndexFrom(s: string, c: char, from: nat): (r: int)
    requires from <= |s|
    ensures r == -1 || (from <= r < |s| && s[r] == c && c !in s[from..r])
    ensures r == -1 <==> c !in s[from..]
    decreases |s| - from
  {
    if from == |s| then -1
    else if s[from] == c then from
    else
      var r := IndexFrom(s, c, from + 1);
      assert s[from..] == [s[from]] + s[from + 1..];
      assert r != -1 ==> s[from..r] == [s[from]] + s[from + 1..r];
      r
  }

  /** `s.replace(/<[^>]*>/g, '')`: from each '<' that has a '>' after it, the text up to and
      including the first such '>' is removed; a '<' with no '>' after it stays. */
  function StripTags(s: string): (r: string)
    ensures NoTagPair(r)
    ensures forall c :: c in r ==> c in s
    decreases |s|
  {
    if s == [] then []
    else if s[0] == '<' && IndexFrom(s, '>', 1) != -1 then StripTags(s[IndexFrom(s, '>', 1) + 1..])
    else
      var rest := StripTags(s[1..]);
      assert '>' in rest ==> '>' in s[1..];
      assert forall i | 1 <= i < |[s[0]] + rest| :: ([s[0]] + rest)[i + 1..] == rest[i..];
      [s[0]] + rest
  }

  /** `s.replace(/lit/g, '')` for a literal pattern. */
  function RemoveAll(s: string, lit: string): (r: string)
    requires lit != []
    ensures |r| <= |s|
    ensures forall c :: c in r ==> c in s
    decreases |s|
  {
    if s == [] then []
    else if StartsWith(s, lit) then RemoveAll(s[|lit|..], lit)
    else [s[0]] + RemoveAll(s[1..], lit)
  }

  /** `s.replace(/<\|[^|]*\|>/g, '')`: "<|", then everything up to the first later '|',
      which must be followed by '>'. */
  function RemoveSpecialTokens(s: string): (r: string)
    ensures |r| <= |s|
    ensures forall c :: c in r ==> c in s
    decreases |s|
  {
    if s == [] then []
    else if |s| >= 2 && s[0] == '<' && s[1] == '|' && IndexFrom(s, '|', 2) != -1
            && IndexFrom(s, '|', 2) + 1 < |s| && s[IndexFrom(s, '|', 2) + 1] == '>'
    then RemoveSpecialTokens(s[IndexFrom(s, '|', 2) + 2..])
    else [s[0]] + RemoveSpecialTokens(s[1..])
  }

  /** `s.replace(/\x00/g, '')`. */
  function RemoveNul(s: string): (r: string)
    ensures '\0' !in r
    ensures forall c :: c in r ==> c in s
  {
    if s == [] then [] else (if s[0] == '\0' then [] else [s[0]]) + RemoveNul(s[1..])
  }

  /** `s.replace(/\s+/g, ' ')`: every maximal run of whitespace becomes one space. */
  function CollapseWhitespace(s: string): (r: string)
    ensures SingleSpaced(r)
    ensures (r == []) == (s == [])
    ensures s != [] ==> (IsWhitespace(r[0]) <==> IsWhitespace(s[0]))
    ensures forall c :: c in r && c != ' ' ==> c in s
    decreases |s|
  {
    if s == [] then []
    else if IsWhitespace(s[0]) then
      var t := TrimStart(s);
      TrimStartSuffix(s);
      assert |t| < |s|;
      " " + CollapseWhitespace(t)
    else [s[0]] + CollapseWhitespace(s[1..])
  }

  const EndOfText := "<|endoftext|>"
  const StartOfText := "<|startoftext|>"

  /** `cleanText(text)`. */
  function CleanText(text: string): (r: string)
    ensures forall c :: c in r ==> c in text || c == ' '
  {
    var noTags := StripTags(text);
    var noEnd := RemoveAll(noTags, EndOfText);
    var noStart := RemoveAll(noEnd, StartOfText);
    var noSpecial := RemoveSpecialTokens(noStart);
    Trim(CollapseWhitespace(RemoveNul(noSpecial)))
  }

  /** A literal that is itself tag-shaped finds nothing to remove once the tags are gone. */
  lemma {:induction false} RemoveAllIdle(s: string, lit: string)
    requires |lit| >= 2 && lit[0] == '<' && lit[|lit| - 1] == '>'
    requires NoTagPair(s)
    ensures RemoveAll(s, lit) == s
    decreases |s|
  {
    if s != [] {
      assert NoTagPair(s[1..]) by {
        forall i | 0 <= i < |s[1..]| && s[1..][i] == '<' ensures '>' !in s[1..][i + 1..] {
          assert s[1..][i + 1..] == s[i + 2..];
        }
      }
      RemoveAllIdle(s[1..], lit);
    }
  }

  lemma {:induction false} RemoveSpecialTokensIdle(s: string)
    requires NoTagPair(s)
    ensures RemoveSpecialTokens(s) == s
    decreases |s|
  {
    if s != [] {
      assert NoTagPair(s[1..]) by {
        forall i | 0 <= i < |s[1..]| && s[1..][i] == '<' ensures '>' !in s[1..][i + 1..] {
          assert s[1..][i + 1..] == s[i + 2..];
        }
      }
      RemoveSpecialTokensIdle(s[1..]);
    }
  }

  /** The three token passes of `cleanText` never change anything: the tag pass before them
      has already removed every '<' that a '>' follows. */
  lemma TokenPassesIdle(text: string)
    ensures var noTags := StripTags(text);
      RemoveSpecialTokens(RemoveAll(RemoveAll(noTags, EndOfText), StartOfText)) == noTags
  {
    var noTags := StripTags(text);
    RemoveAllIdle(noTags, EndOfText);
    RemoveAllIdle(noTags, StartOfText);
    RemoveSpecialTokensIdle(noTags);
  }

  /** Removing characters other than '<' keeps a string free of tag pairs. */
  lemma {:induction false} RemoveNulKeepsNoTagPair(s: string)
    requires NoTagPair(s)
    ensures NoTagPair(RemoveNul(s))
    decreases |s|
  {
    if s != [] {
      assert NoTagPair(s[1..]) by {
        forall i | 0 <= i < |s[1..]| && s[1..][i] == '<' ensures '>' !in s[1..][i + 1..] {
          assert s[1..][i + 1..] == s[i + 2..];
        }
      }
      RemoveNulKeepsNoTagPair(s[1..]);
      var rest := RemoveNul(s[1..]);
      var r := RemoveNul(s);
      if s[0] != '\0' {
        assert r == [s[0]] + rest;
        assert s[0] == '<' ==> '>' !in rest;
        forall i | 0 <= i < |r| && r[i] == '<' ensures '>' !in r[i + 1..] {
          if i > 0 {
            assert r[i + 1..] == rest[i..];
          }
        }
      }
    }
  }

  lemma {:induction false} CollapseKeepsNoTagPair(s: string)
    requires NoTagPair(s)
    ensures NoTagPair(CollapseWhitespace(s))
    decreases |s|
  {
    if s != [] {
      var r := CollapseWhitespace(s);
      if IsWhitespace(s[0]) {
        var t := TrimStart(s);
        TrimStartSuffix(s);
        assert NoTagPair(t) by {
          forall i | 0 <= i < |t| && t[i] == '<' ensures '>' !in t[i + 1..] {
            assert t[i + 1..] == s[|s| - |t| + i + 1..];
          }
        }
        CollapseKeepsNoTagPair(t);
        var rest := CollapseWhitespace(t);
        assert r == " " + rest;
        forall i | 0 <= i < |r| && r[i] == '<' ensures '>' !in r[i + 1..] {
          assert r[i + 1..] == rest[i..];
        }
      } else {
        assert NoTagPair(s[1..]) by {
          forall i | 0 <= i < |s[1..]| && s[1..][i] == '<' ensures '>' !in s[1..][i + 1..] {
            assert s[1..][i + 1..] == s[i + 2..];
          }
        }
        CollapseKeepsNoTagPair(s[1..]);
        var rest := CollapseWhitespace(s[1..]);
        assert r == [s[0]] + rest;
        forall i | 0 <= i < |r| && r[i] == '<' ensures '>' !in r[i + 1..] {
          if i > 0 {
            assert r[i + 1..] == rest[i..];
          }
        }
      }
    }
  }

  /** What `cleanText` guarantees of its output. */
  predicate Cleaned(s: string) {
    NoTagPair(s) && '\0' !in s && SingleSpaced(s)
    && (s == [] || (!IsWhitespace(s[0]) && !IsWhitespace(s[|s| - 1])))
  }

  /** Taking an infix keeps the shape `cleanText` produces. */
  lemma InfixKeepsShape(s: string, lo: nat, hi: nat)
    requires lo <= hi <= |s|
    requires NoTagPair(s) && '\0' !in s && SingleSpaced(s)
    ensures var r := s[lo..hi]; NoTagPair(r) && '\0' !in r && SingleSpaced(r)
  {
    var r := s[lo..hi];
    forall i | 0 <= i < |r| && r[i] == '<' ensures '>' !in r[i + 1..] {
      assert s[lo + i] == '<';
      assert r[i + 1..] == s[lo + i + 1..hi];
    }
  }

  /** `cleanText`'s output has no leading or trailing whitespace, no two adjacent whitespace
      characters (each run became one space), no NUL, and no '<' followed later by '>'. */
  lemma CleanTextShape(text: string)
    ensures Cleaned(CleanText(text))
  {
    var noTags := StripTags(text);
    TokenPassesIdle(text);
    RemoveNulKeepsNoTagPair(noTags);
    var e := RemoveNul(noTags);
    CollapseKeepsNoTagPair(e);
    var f := CollapseWhitespace(e);
    assert '\0' !in f;
    var t := TrimStart(f);
    TrimStartSuffix(f);
    InfixKeepsShape(f, |f| - |t|, |f|);
    var u := TrimEnd(t);
    InfixKeepsShape(t, 0, |u|);
    assert CleanText(text) == u;
  }

  lemma {:induction false} CollapseIdle(s: string)
    requires SingleSpaced(s)
    ensures CollapseWhitespace(s) == s
    decreases |s|
  {
    if s != [] {
      var t := s[1..];
      assert SingleSpaced(t) by {
        assert forall i | 0 <= i < |t| :: t[i] == s[i + 1];
      }
      CollapseIdle(t);
      if IsWhitespace(s[0]) {
        assert t == [] || !IsWhitespace(t[0]);
        assert TrimStart(t) == t;
      }
    }
  }

  lemma {:induction false} StripTagsIdle(s: string)
    requires NoTagPair(s)
    ensures StripTags(s) == s
    decreases |s|
  {
    if s != [] {
      assert NoTagPair(s[1..]) by {
        forall i | 0 <= i < |s[1..]| && s[1..][i] == '<' ensures '>' !in s[1..][i + 1..] {
          assert s[1..][i + 1..] == s[i + 2..];
        }
      }
      StripTagsIdle(s[1..]);
    }
  }

  lemma {:induction false} RemoveNulIdle(s: string)
    requires '\0' !in s
    ensures RemoveNul(s) == s
    decreases |s|
  {
    if s != [] {
      RemoveNulIdle(s[1..]);
    }
  }

  /** `cleanText` is idempotent: cleaning a cleaned text changes nothing. */
  lemma CleanTextIdempotent(text: string)
    ensures CleanText(CleanText(text)) == CleanText(text)
  {
    var y := CleanText(text);
    CleanTextShape(text);
    StripTagsIdle(y);
    RemoveAllIdle(y, EndOfText);
    RemoveAllIdle(y, StartOfText);
    RemoveSpecialTokensIdle(y);
    RemoveNulIdle(y);
    CollapseIdle(y);
    assert TrimStart(y) == y;
    assert TrimEnd(y) == y;
  }

  const BriefInstruction := "簡潔に2-3文で要約してください。"
  const MediumInstruction := "適度な長さ（5-8文程度）で要約してください。"
  const DetailedInstruction := "詳細に10-15文程度で要約してください。"
  const DefaultInstruction := "適度な長さで要約してください。"
  const InstructionSuffix := "。要約は日本語で行ってください。記事のタイトルとして抽出できそうな部分があれば、1行目にタイトルを記載してください。"

  /** The instruction sentence chosen by the `switch` on the lower-cased length keyword;
      `isNumber` says whether `Number(length)` is a number (not NaN). */
  function LengthContent(length: string, isNumber: bool): (r: string)
    ensures r == BriefInstruction || r == MediumInstruction || r == DetailedInstruction
      || EndsWith(r, DefaultInstruction)
    ensures ToLower(length) in {"short", "brief"} ==> r == BriefInstruction
    ensures ToLower(length) in {"medium", "normal"} ==> r == MediumInstruction
    ensures ToLower(length) in {"long", "detailed"} ==> r == DetailedInstruction
  {
    var key := ToLower(length);
    if key == "short" || key == "brief" then BriefInstruction
    else if key == "medium" || key == "normal" then MediumInstruction
    else if key == "long" || key == "detailed" then DetailedInstruction
    else (if isNumber then "約" + length + "文字程度で要約してください。" else "") + DefaultInstruction
  }

  /** `getLengthInstruction(length)`. */
  function GetLengthInstruction(length: string, isNumber: bool): (r: string)
    ensures EndsWith(r, InstructionSuffix)
    ensures r[..|r| - |InstructionSuffix|] == LengthContent(length, isNumber)
  {
    LengthContent(length, isNumber) + InstructionSuffix
  }

  /** The keyword match ignores case: spellings that agree once lower-cased give the same
      instruction, one of the three fixed sentences. */
  lemma LengthKeywordsIgnoreCase(a: string, b: string, isNumberA: bool, isNumberB: bool)
    requires ToLower(a) == ToLower(b)
    requires ToLower(a) in {"short", "brief", "medium", "normal", "long", "detailed"}
    ensures GetLengthInstruction(a, isNumberA) == GetLengthInstruction(b, isNumberB)
    ensures LengthContent(a, isNumberA) in {BriefInstruction, MediumInstruction, DetailedInstruction}
    ensures ToLower(b) in {"short", "brief"} ==> LengthContent(a, isNumberA) == BriefInstruction
    ensures ToLower(b) in {"medium", "normal"} ==> LengthContent(a, isNumberA) == MediumInstruction
    ensures ToLower(b) in {"long", "detailed"} ==> LengthContent(a, isNumberA) == DetailedInstruction
  {
  }

  /** Any other value yields the default sentence, preceded by the character-count sentence
      exactly when `Number(length)` is not NaN. */
  lemma LengthOtherValues(length: string, isNumber: bool)
    requires ToLower(length) !in {"short", "brief", "medium", "normal", "long", "detailed"}
    ensures EndsWith(LengthContent(length, isNumber), DefaultInstruction)
    ensures isNumber ==> StartsWith(LengthContent(length, isNumber), "約" + length)
    ensures !isNumber ==> LengthContent(length, isNumber) == DefaultInstruction
  {
  }
}
