/** String helpers standing in for the few `str` and `pathlib` operations
    the modelled code relies on. */
module Text {

  /** ASCII lowering of one character (Python's `str.lower` restricted to
      ASCII letters). */
  function LowerChar(c: char): (r: char)
    ensures 'A' <= c <= 'Z' ==> r as int == c as int + 32
    ensures !('A' <= c <= 'Z') ==> r == c
  {
    if 'A' <= c <= 'Z' then (c as int + 32) as char else c
  }

  function Lower(s: string): (r: string)
    ensures |r| == |s|
    ensures forall i :: 0 <= i < |s| ==> r[i] == LowerChar(s[i])
  {
    if |s| == 0 then "" else [LowerChar(s[0])] + Lower(s[1..])
  }

  /** Lowering twice is lowering once. */
  lemma LowerIdempotent(s: string)
    ensures Lower(Lower(s)) == Lower(s)
  {
    forall i | 0 <= i < |s| ensures Lower(Lower(s))[i] == Lower(s)[i] {
      var c := s[i];
      if 'A' <= c <= 'Z' {
        assert !('A' <= LowerChar(c) <= 'Z');
      }
    }
  }

  predicate StartsWith(s: string, prefix: string) {
    |prefix| <= |s| && s[..|prefix|] == prefix
  }

  predicate EndsWith(s: string, suffix: string) {
    |suffix| <= |s| && s[|s| - |suffix|..] == suffix
  }

  /** Index of the last occurrence of `c` in `s`, or -1 (`str.rfind`). */
  function RFind(s: string, c: char): (r: int)
    ensures -1 <= r < |s|
    ensures r >= 0 ==> s[r] == c
    ensures forall i :: r < i < |s| ==> s[i] != c
  {
    if |s| == 0 then -1
    else if s[|s| - 1] == c then |s| - 1
    else RFind(s[..|s| - 1], c)
  }

  /** The final path component (`PurePath.name`): the text after the last
      `/`, ignoring trailing separators. */
  function Name(path: string): (r: string)
    ensures '/' !in r
    decreases |path|
  {
    if |path| > 0 && path[|path| - 1] == '/' then Name(path[..|path| - 1])
    else
      var i := RFind(path, '/');
      var r := path[i + 1..];
      assert forall k :: 0 <= k < |r| ==> r[k] == path[i + 1 + k];
      r
  }

  /** `PurePath.suffix`: from the last dot of the name, unless that dot is
      the name's first or last character. */
  function Suffix(path: string): (r: string)
    ensures r == "" || (r[0] == '.' && EndsWith(Name(path), r))
    ensures forall i :: 0 < i < |r| ==> r[i] != '.'
  {
    var name := Name(path);
    var i := RFind(name, '.');
    if 0 < i < |name| - 1 then name[i..] else ""
  }

  /** The last `c` in `a + b`, when `b` has none and `a` is empty or ends
      in one, is the end of `a`. */
  lemma RFindSplit(a: string, b: string, c: char)
    requires c !in b
    requires a == "" || a[|a| - 1] == c
    ensures RFind(a + b, c) == |a| - 1
  {
    var p := a + b;
    assert forall k :: |a| <= k < |p| ==> p[k] == b[k - |a|];
    if a != "" {
      assert p[|a| - 1] == c;
    }
  }

  /** A path without separators is its own name. */
  lemma NameOfPlain(p: string)
    requires '/' !in p
    ensures Name(p) == p
  {
    if |p| > 0 {
      RFindSplit("", p, '/');
      assert "" + p == p;
    } else {
      assert RFind(p, '/') == -1;
    }
  }

  /** The suffix of `stem.ext` is `.ext`, for a non-empty stem and
      extension without separators or further dots in the extension. */
  lemma SuffixOf(stem: string, ext: string)
    requires |stem| > 0 && |ext| > 0
    requires '/' !in stem && '/' !in ext && '.' !in ext
    ensures Suffix(stem + "." + ext) == "." + ext
  {
    var p := stem + "." + ext;
    assert '/' !in p by {
      assert forall k :: 0 <= k < |p| ==> p[k] == (if k < |stem| then stem[k] else if k == |stem| then '.' else ext[k - |stem| - 1]);
    }
    NameOfPlain(p);
    RFindSplit(stem + ".", ext, '.');
    assert p[|stem|..] == "." + ext;
  }

  /** Without a dot there is no suffix. */
  lemma NoDotNoSuffix(p: string)
    requires '/' !in p && '.' !in p
    ensures Suffix(p) == ""
  {
    NameOfPlain(p);
    RFindSplit("", p, '.');
    assert "" + p == p;
  }
}
