/** String helpers shared by the model. A `string` is a sequence of UTF-16 code units, as in
    JavaScript; every literal the model uses lies in the Basic Multilingual Plane, where one
    Dafny `char` is one code unit. */
module Text {

  /** The code points ECMAScript counts as WhiteSpace or LineTerminator: exactly the set the
      regular-expression class `\s` matches and `String.prototype.trim` removes. */
  predicate IsWhitespace(c: char) {
    c == '\t' || c == '\n' || c == '\U{000B}' || c == '\U{000C}' || c == '\r' || c == ' '
    || c == '\U{00A0}' || c == '\U{1680}' || ('\U{2000}' <= c <= '\U{200A}')
    || c == '\U{2028}' || c == '\U{2029}' || c == '\U{202F}' || c == '\U{205F}'
    || c == '\U{3000}' || c == '\U{FEFF}'
  }

  /** The characters a regular expression's `.` does not match (no `s` flag). */
  predicate IsLineTerminator(c: char) {
    c == '\n' || c == '\r' || c == '\U{2028}' || c == '\U{2029}'
  }

  predicate NoWhitespace(s: string) {
    forall i :: 0 <= i < |s| ==> !IsWhitespace(s[i])
  }

  predicate NoLineTerminator(s: string) {
    forall i :: 0 <= i < |s| ==> !IsLineTerminator(s[i])
  }

  /** `s.trimStart()`: drops the leading whitespace and nothing else. */
  function TrimStart(s: string): (r: string)
    ensures |r| <= |s|
    ensures r == [] || !IsWhitespace(r[0])
    ensures forall i :: 0 <= i < |s| - |r| ==> IsWhitespace(s[i])
  {
    if s != [] && IsWhitespace(s[0]) then TrimStart(s[1..]) else s
  }

  /** What `trimStart` leaves is a suffix of the string. */
  lemma TrimStartSuffix(s: string)
    ensures TrimStart(s) == s[|s| - |TrimStart(s)|..]
  {
  }

  /** `s.trimEnd()`: drops the trailing whitespace and nothing else. */
  function TrimEnd(s: string): (r: string)
    ensures |r| <= |s| && r == s[..|r|]
    ensures r == [] || !IsWhitespace(r[|r| - 1])
    ensures forall i :: |r| <= i < |s| ==> IsWhitespace(s[i])
  {
    if s != [] && IsWhitespace(s[|s| - 1]) then TrimEnd(s[..|s| - 1]) else s
  }

  /** `s.trim()`. */
  function Trim(s: string): (r: string)
    ensures |r| <= |s|
    ensures forall c :: c in r ==> c in s
  {
    TrimStartSuffix(s);
    TrimEnd(TrimStart(s))
  }

  /** Trimming a string without whitespace changes nothing. */
  lemma TrimNoWhitespace(s: string)
    requires NoWhitespace(s)
    ensures Trim(s) == s
  {
  }

  predicate IsDigit(c: char) {
    '0' <= c <= '9'
  }

  predicate AllDigits(s: string) {
    forall i :: 0 <= i < |s| ==> IsDigit(s[i])
  }

  function Digit(d: nat): (c: char)
    requires d < 10
    ensures IsDigit(c)
  {
    (48 + d) as char
  }

  /** `String(n)` for a non-negative integer: its decimal digits, without leading zeros. */
  function NatToString(n: nat): (r: string)
    ensures |r| >= 1 && AllDigits(r)
    ensures (r[0] == '0') == (n == 0)
    ensures (|r| == 1) == (n < 10)
    decreases n
  {
    if n < 10 then [Digit(n)] else NatToString(n / 10) + [Digit(n % 10)]
  }

  /** Distinct numbers print differently. */
  lemma {:induction false} NatToStringInjective(a: nat, b: nat)
    requires NatToString(a) == NatToString(b)
    ensures a == b
    decreases a
  {
    var s := NatToString(a);
    if a >= 10 && b >= 10 {
      assert NatToString(a / 10) == s[..|s| - 1] == NatToString(b / 10);
      NatToStringInjective(a / 10, b / 10);
      assert Digit(a % 10) == s[|s| - 1] == Digit(b % 10);
    }
  }

  /** `String(n).padStart(2, '0')`. */
  function Pad2(n: nat): (r: string)
    ensures |r| >= 2 && AllDigits(r)
    ensures n < 100 ==> |r| == 2
  {
    if n < 10 then "0" + NatToString(n) else NatToString(n)
  }

  /** Distinct numbers pad differently, so zero-padded file names never collide. */
  lemma Pad2Injective(a: nat, b: nat)
    requires Pad2(a) == Pad2(b)
    ensures a == b
  {
    if a < 10 && b < 10 {
      assert NatToString(a) == Pad2(a)[1..] == Pad2(b)[1..] == NatToString(b);
      NatToStringInjective(a, b);
    } else if a >= 10 && b >= 10 {
      NatToStringInjective(a, b);
    }
  }

  /** `String(n)` for any integer: a '-' in front of the digits of a negative number. */
  function IntToString(n: int): (r: string)
    ensures |r| >= 1 && (r[0] == '-') == (n < 0)
    ensures n >= 0 ==> AllDigits(r)
  {
    if n < 0 then "-" + NatToString(-n) else NatToString(n)
  }

  /** `toLowerCase` restricted to ASCII letters; every other character is kept. */
  function LowerChar(c: char): char {
    if 'A' <= c <= 'Z' then (c as int + 32) as char else c
  }

  function ToLower(s: string): (r: string)
    ensures |r| == |s| && forall i :: 0 <= i < |s| ==> r[i] == LowerChar(s[i])
  {
    seq(|s|, i requires 0 <= i < |s| => LowerChar(s[i]))
  }

  /** `s.includes(p)`: `p` occurs in `s` at some offset. */
  predicate Includes(s: string, p: string)
    ensures Includes(s, p) ==> |p| <= |s|
  {
    exists i | 0 <= i <= |s| - |p| :: OccursAt(s, p, i)
  }

  predicate OccursAt(s: string, p: string, i: int) {
    0 <= i <= |s| - |p| && s[i..i + |p|] == p
  }

  /** `s.startsWith(p)`. */
  predicate StartsWith(s: string, p: string) {
    |p| <= |s| && s[..|p|] == p
  }

  /** `s.endsWith(p)`. */
  predicate EndsWith(s: string, p: string) {
    |p| <= |s| && s[|s| - |p|..] == p
  }

  /** `s.split(re)` where `re` matches exactly one character satisfying `sep`: the pieces
      between separators, in order, always one more piece than there are separators. */
  function SplitWhere(s: string, sep: char -> bool): (r: seq<string>)
    ensures |r| >= 1
    ensures forall k, i :: 0 <= k < |r| && 0 <= i < |r[k]| ==> !sep(r[k][i])
  {
    if s == [] then [[]]
    else
      var rest := SplitWhere(s[1..], sep);
      if sep(s[0]) then [[]] + rest else [[s[0]] + rest[0]] + rest[1..]
  }

  /** A string without separators is one piece. */
  lemma {:induction false} SplitWhereNone(s: string, sep: char -> bool)
    requires forall i :: 0 <= i < |s| ==> !sep(s[i])
    ensures SplitWhere(s, sep) == [s]
  {
    if s != [] {
      SplitWhereNone(s[1..], sep);
      assert s == [s[0]] + s[1..];
    }
  }

  /** A separator after a separator-free `a` ends the first piece, `a`. */
  lemma {:induction false} SplitWhereFirst(a: string, c: char, b: string, sep: char -> bool)
    requires forall i :: 0 <= i < |a| ==> !sep(a[i])
    requires sep(c)
    ensures SplitWhere(a + [c] + b, sep) == [a] + SplitWhere(b, sep)
  {
    if a == [] {
      assert a + [c] + b == [c] + b;
      assert ([c] + b)[1..] == b;
    } else {
      SplitWhereFirst(a[1..], c, b, sep);
      assert (a + [c] + b)[1..] == a[1..] + [c] + b;
      assert a == [a[0]] + a[1..];
    }
  }

  /** The pieces written one after another (`pieces.join('')`). */
  function Concat(pieces: seq<string>): string {
    if pieces == [] then "" else pieces[0] + Concat(pieces[1..])
  }

  lemma {:induction false} ConcatAppend(a: seq<string>, b: seq<string>)
    ensures Concat(a + b) == Concat(a) + Concat(b)
  {
    if a != [] {
      assert (a + b)[1..] == a[1..] + b;
      ConcatAppend(a[1..], b);
    } else {
      assert a + b == b;
    }
  }

  /** `pieces.join(d)`. Its ends are stated by `JoinEnds`. */
  function Join(pieces: seq<string>, d: string): string {
    if |pieces| == 0 then "" else if |pieces| == 1 then pieces[0] else pieces[0] + d + Join(pieces[1..], d)
  }

  /** A join begins with its first piece and ends with its last. */
  lemma {:induction false} JoinEnds(pieces: seq<string>, d: string)
    requires pieces != []
    ensures StartsWith(Join(pieces, d), pieces[0])
    ensures EndsWith(Join(pieces, d), pieces[|pieces| - 1])
  {
    if |pieces| > 1 {
      var rest := Join(pieces[1..], d);
      JoinEnds(pieces[1..], d);
      assert pieces[1..][|pieces[1..]| - 1] == pieces[|pieces| - 1];
      assert Join(pieces, d) == pieces[0] + d + rest;
      assert Join(pieces, d)[..|pieces[0]|] == pieces[0];
      assert Join(pieces, d)[|Join(pieces, d)| - |rest|..] == rest;
    }
  }

  /** `path.join(dir, name)` for a directory and a plain file name. */
  function PathJoin(dir: string, name: string): string {
    if dir == "" then name else dir + "/" + name
  }

  /** `path.basename(p)`: what follows the last '/'. Node also drops trailing '/'s first
      ("a/b/" gives "b"); this model gives "" there. The paths it is applied to are built by
      `path.join` with a non-empty last part, so they never end in '/'. */
  function BaseName(p: string): (r: string)
    ensures '/' !in r
  {
    if p == [] || p[|p| - 1] == '/' then [] else BaseName(p[..|p| - 1]) + [p[|p| - 1]]
  }

  /** The base name of a joined path is the file name that was joined. */
  lemma {:induction false} BaseNameOfJoin(dir: string, name: string)
    requires '/' !in name
    ensures BaseName(PathJoin(dir, name)) == name
  {
    if name != [] {
      var p := PathJoin(dir, name);
      assert p[..|p| - 1] == PathJoin(dir, name[..|name| - 1]);
      BaseNameOfJoin(dir, name[..|name| - 1]);
    } else if dir != "" {
      assert PathJoin(dir, name)[|PathJoin(dir, name)| - 1] == '/';
    }
  }
}
