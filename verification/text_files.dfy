/** The text files of a directory, as index.js and website-news-reader.js pick them: regular
    files whose lower-cased extension is one of nine, sorted by name. The file system is a
    listing handed in; `None` stands for `readdirSync` or one of the `statSync` calls throwing. */
module TextFiles {
  import opened Common
  import opened Text
  import opened Sorting

  /** A directory entry: its name (never containing '/') and whether `stat` calls it a
      regular file. */
  datatype Entry = Entry(name: string, isFile: bool)

  /** The index of the last '.' of `s`, or -1. */
  function LastDot(s: string): (r: int)
    ensures -1 <= r < |s|
    ensures r >= 0 ==> s[r] == '.'
    ensures forall i :: r < i < |s| ==> s[i] != '.'
  {
    if s == [] then -1
    else if s[|s| - 1] == '.' then |s| - 1
    else LastDot(s[..|s| - 1])
  }

  /** `path.extname(name)` for a file name: from the last '.' to the end, except that a name
      without a '.', a name whose only leading run of dots ends there (".bashrc") and ".."
      have none. */
  function ExtName(name: string): (r: string)
    ensures r == [] || (r[0] == '.' && forall i :: 0 < i < |r| ==> r[i] != '.')
    ensures |r| <= |name| && r == name[|name| - |r|..]
    ensures r != [] ==> |r| < |name|
  {
    var d := LastDot(name);
    if d <= 0 || name == ".." then "" else name[d..]
  }

  /** `path.basename(name, path.extname(name))`: the name without its extension. */
  function Stem(name: string): (r: string)
    ensures r + ExtName(name) == name
    ensures ExtName(name) != [] ==> r != []
  {
    name[..|name| - |ExtName(name)|]
  }

  const TextExtensions: seq<string> := [".txt", ".md", ".json", ".js", ".ts", ".html", ".css", ".xml", ".csv"]

  /** The lower-cased extension is one of the nine. */
  predicate IsTextName(name: string)
    ensures IsTextName(name) ==> |ExtName(name)| >= 3 && ExtName(name)[0] == '.'
  {
    ToLower(ExtName(name)) in TextExtensions
  }

  /** A text file has a proper extension: a non-empty stem followed by one of the nine
      extensions, in any letter case. */
  lemma TextNameShape(name: string)
    requires IsTextName(name)
    ensures Stem(name) != [] && |ExtName(name)| >= 3
    ensures name == Stem(name) + ExtName(name)
  {
  }

  /** The extension test ignores letter case: "A.TXT" and "a.txt" are both text files. */
  lemma TextNameIgnoresCase(a: string, b: string)
    requires ToLower(a) == ToLower(b)
    ensures IsTextName(a) == IsTextName(b)
  {
    ExtNameLower(a);
    ExtNameLower(b);
  }

  /** Lower-casing a name lower-cases its extension and nothing more. */
  lemma ExtNameLower(name: string)
    ensures ToLower(ExtName(name)) == ExtName(ToLower(name))
  {
    var low := ToLower(name);
    forall i | 0 <= i < |name| ensures (name[i] == '.') == (low[i] == '.') {
    }
    LastDotAgrees(name, low);
    var d := LastDot(name);
    if name == ".." {
      assert low == "..";
    } else if d > 0 {
      assert ToLower(name[d..]) == low[d..];
    }
  }

  lemma {:induction false} LastDotAgrees(a: string, b: string)
    requires |a| == |b| && forall i :: 0 <= i < |a| ==> (a[i] == '.') == (b[i] == '.')
    ensures LastDot(a) == LastDot(b)
    decreases |a|
  {
    if a != [] && a[|a| - 1] != '.' {
      LastDotAgrees(a[..|a| - 1], b[..|b| - 1]);
    }
  }

  /** The filter's test for one entry. */
  predicate Kept(e: Entry, ignored: string -> bool)
    ensures Kept(e, ignored) ==> Stem(e.name) != [] && !ignored(e.name)
  {
    e.isFile && !ignored(e.name) && IsTextName(e.name)
  }

  /** The names the filter keeps, in listing order: regular files that `ignored` does not
      exclude and whose extension is a text extension. */
  function Listed(entries: seq<Entry>, ignored: string -> bool): (r: seq<string>)
    ensures |r| <= |entries|
    decreases |entries|
  {
    if entries == [] then []
    else
      var e := entries[|entries| - 1];
      Listed(entries[..|entries| - 1], ignored) + (if Kept(e, ignored) then [e.name] else [])
  }

  /** A name is kept exactly when some entry of that name passes the test. */
  lemma ListedMember(entries: seq<Entry>, ignored: string -> bool, n: string)
    ensures n in Listed(entries, ignored) <==>
      exists k :: 0 <= k < |entries| && entries[k].name == n && Kept(entries[k], ignored)
  {
    if n in Listed(entries, ignored) {
      var k := ListedFrom(entries, ignored, n);
    }
    if exists k :: 0 <= k < |entries| && entries[k].name == n && Kept(entries[k], ignored) {
      var k :| 0 <= k < |entries| && entries[k].name == n && Kept(entries[k], ignored);
      ListedKept(entries, ignored, k);
    }
  }

  /** Every listed name is the name of a kept entry. */
  lemma {:induction false} ListedFrom(entries: seq<Entry>, ignored: string -> bool, n: string) returns (k: nat)
    requires n in Listed(entries, ignored)
    ensures k < |entries| && entries[k].name == n && Kept(entries[k], ignored)
    decreases |entries|
  {
    var init := entries[..|entries| - 1];
    ListedStep(entries, ignored);
    if n in Listed(init, ignored) {
      k := ListedFrom(init, ignored, n);
      assert init[k] == entries[k];
    } else {
      k := |entries| - 1;
    }
  }

  /** Every kept entry is listed. */
  lemma {:induction false} ListedKept(entries: seq<Entry>, ignored: string -> bool, k: nat)
    requires k < |entries| && Kept(entries[k], ignored)
    ensures entries[k].name in Listed(entries, ignored)
    decreases |entries|
  {
    var init := entries[..|entries| - 1];
    var last := entries[|entries| - 1];
    ListedStep(entries, ignored);
    if k < |init| {
      assert init[k] == entries[k];
      ListedKept(init, ignored, k);
    } else {
      assert entries[k] == last;
      assert Listed(entries, ignored) == Listed(init, ignored) + [last.name];
    }
  }

  lemma ListedStep(entries: seq<Entry>, ignored: string -> bool)
    requires entries != []
    ensures var last := entries[|entries| - 1];
      Listed(entries, ignored)
        == Listed(entries[..|entries| - 1], ignored) + (if Kept(last, ignored) then [last.name] else [])
  {
  }

  function NothingIgnored(name: string): bool {
    false
  }

  /** `getTextFilesInDirectory(dirPath)` of website-news-reader.js: the text files of the
      listing, sorted; `[]` when reading the directory throws. */
  function GetTextFilesInDirectory(listing: Option<seq<Entry>>): (r: seq<string>)
    ensures Sorted(r)
    ensures listing.None? ==> r == []
    ensures listing.Some? ==> multiset(r) == multiset(Listed(listing.value, NothingIgnored))
  {
    match listing
    case None => []
    case Some(entries) => Sort(Listed(entries, NothingIgnored))
  }

  /** A name is returned exactly when the listing has it as a regular file with a text
      extension. */
  lemma TextFilesMember(entries: seq<Entry>, n: string)
    ensures n in GetTextFilesInDirectory(Some(entries)) <==>
      exists k :: 0 <= k < |entries| && entries[k].name == n && entries[k].isFile && IsTextName(n)
  {
    ListedMember(entries, NothingIgnored, n);
    var r := GetTextFilesInDirectory(Some(entries));
    assert n in r <==> n in multiset(r);
    assert n in Listed(entries, NothingIgnored) <==> n in multiset(Listed(entries, NothingIgnored));
  }
}
