/**
  The (directory, file name) split used in single-file mode: the watched
  directory is the file's directory name and the pattern is its base name.
  The split is at the last path separator; both '/' and '\\' count as
  separators, as they do for Windows paths. Drive prefixes are not treated
  specially.
 */
module Paths {

  predicate IsSep(c: char) {
    c == '/' || c == '\\'
  }

  /** No character of s is a separator. */
  predicate NoSep(s: string) {
    forall i :: 0 <= i < |s| ==> !IsSep(s[i])
  }

  /** Every character of s is a separator. */
  predicate AllSep(s: string) {
    forall i :: 0 <= i < |s| ==> IsSep(s[i])
  }

  /** The index just past the last separator of p, or 0 when p has none. */
  function SplitPoint(p: string): (n: nat)
    ensures n <= |p|
    ensures NoSep(p[n..])
    ensures n > 0 ==> IsSep(p[n - 1])
  {
    if |p| == 0 then 0
    else if IsSep(p[|p| - 1]) then |p|
    else
      var n := SplitPoint(p[..|p| - 1]);
      assert p[n..] == p[..|p| - 1][n..] + [p[|p| - 1]];
      n
  }

  /** h without its trailing separators. */
  function TrimSeps(h: string): (r: string)
    ensures |r| <= |h| && r == h[..|r|]
    ensures r == [] || !IsSep(r[|r| - 1])
    ensures AllSep(h[|r|..])
  {
    if |h| == 0 || !IsSep(h[|h| - 1]) then h
    else
      var r := TrimSeps(h[..|h| - 1]);
      assert h[|r|..] == h[..|h| - 1][|r|..] + [h[|h| - 1]];
      r
  }

  /** The file-name part: everything after the last separator. */
  function Basename(p: string): string {
    p[SplitPoint(p)..]
  }

  /** The directory part: everything before the last separator, with the
      trailing separators removed unless nothing else is left. */
  function Dirname(p: string): string {
    var head := p[..SplitPoint(p)];
    var trimmed := TrimSeps(head);
    if trimmed == [] then head else trimmed
  }

  /** The base name is a suffix of p holding no separator, and either it is
      all of p or a separator comes just before it. */
  lemma BasenameParts(p: string)
    ensures var b := Basename(p);
      && |b| <= |p| && p[|p| - |b|..] == b
      && NoSep(b)
      && (|b| == |p| || IsSep(p[|p| - |b| - 1]))
  {
  }

  /** p is its directory name, then a run of separators, then its base name.
      The directory name is empty exactly when p holds no separator, and it
      ends in a separator only when it is a run of separators that reaches
      the base name. */
  lemma DirnameParts(p: string)
    ensures var d, b := Dirname(p), Basename(p);
      && |d| + |b| <= |p|
      && p[..|d|] == d
      && AllSep(p[|d|..|p| - |b|])
      && (d == [] <==> NoSep(p))
      && (d == [] || !IsSep(d[|d| - 1]) || AllSep(d))
      && (AllSep(d) && d != [] ==> |d| + |b| == |p|)
  {
    var n := SplitPoint(p);
    var head := p[..n];
    var trimmed := TrimSeps(head);
    assert |Basename(p)| == |p| - n;
    if n > 0 {
      assert IsSep(p[n - 1]);
    } else {
      assert p[n..] == p;
    }
    if trimmed == [] {
      assert head[|trimmed|..] == head;
    } else {
      assert p[|trimmed|..|p| - |Basename(p)|] == head[|trimmed|..];
    }
  }

  /** The single-file example: "/data/report.csv" is watched as directory
      "/data" with pattern "report.csv". */
  lemma ReportCsvSplit()
    ensures Dirname("/data/report.csv") == "/data"
    ensures Basename("/data/report.csv") == "report.csv"
  {
    var p := "/data/report.csv";
    assert IsSep(p[5]);
    assert SplitPoint(p) == 6;
    assert p[..6] == "/data/";
    assert TrimSeps("/data/") == TrimSeps("/data");
    assert TrimSeps("/data") == "/data";
  }
}
