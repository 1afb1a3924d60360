/**
 * File names as `pathlib.Path` exposes them: `name` (the last component)
 * and `stem` (the name without its last suffix). Paths are `/`-separated
 * strings without a trailing `/`.
 */
module Paths {
  import opened Wrappers
  import opened Strings

  /** `Path(p).name`. */
  function BaseName(path: string): (r: string)
    ensures '/' !in r
    ensures '/' !in path ==> r == path
  {
    var parts := Split(path, '/');
    if '/' !in path then SplitNoSep(path, '/'); parts[|parts| - 1]
    else parts[|parts| - 1]
  }

  /** Splitting `a/b`, where `b` has no separator, ends with the piece `b`. */
  lemma {:induction false} SplitLast(a: string, b: string, c: char)
    requires c !in b
    ensures var r := Split(a + [c] + b, c); |r| >= 2 && r[|r| - 1] == b
    decreases |a|
  {
    var s := a + [c] + b;
    if a == [] {
      assert s[1..] == b;
      SplitNoSep(b, c);
    } else {
      assert s[1..] == a[1..] + [c] + b;
      SplitLast(a[1..], b, c);
    }
  }

  /** The name of `dir/name` is `name`. */
  lemma BaseNameOfChild(dir: string, name: string)
    requires '/' !in name
    ensures BaseName(dir + "/" + name) == name
  {
    SplitLast(dir, name, '/');
    assert dir + "/" + name == dir + ['/'] + name;
    assert '/' in dir + "/" + name by { assert (dir + "/" + name)[|dir|] == '/'; }
  }

  /** The position of the dot that starts a path suffix (`Path.suffix`): the last dot, unless it is the first or the last character. */
  function SuffixDot(name: string): (r: Option<nat>)
    ensures r.Some? ==> 0 < r.value < |name| - 1 && name[r.value] == '.'
    ensures r.Some? ==> forall k :: r.value < k < |name| ==> name[k] != '.'
  {
    LastDotBefore(name, |name|)
  }

  function LastDotBefore(name: string, n: nat): (r: Option<nat>)
    requires n <= |name|
    ensures r.Some? ==> 0 < r.value < |name| - 1 && r.value < n && name[r.value] == '.'
    ensures r.Some? ==> forall k :: r.value < k < n ==> name[k] != '.'
    decreases n
  {
    if n == 0 then None
    else if name[n - 1] == '.' then (if 0 < n - 1 < |name| - 1 then Some(n - 1) else None)
    else LastDotBefore(name, n - 1)
  }

  /** `Path.stem`: the name without its suffix. */
  function Stem(name: string): (r: string)
    ensures |r| <= |name| && StartsWith(name, r)
  {
    match SuffixDot(name)
    case None => name
    case Some(i) => name[..i]
  }

  lemma StemExamples()
    ensures Stem("nextcloud") == "nextcloud"
    ensures Stem("app.v2") == "app"
    ensures Stem(".hidden") == ".hidden"
  {
    assert SuffixDot("app.v2") == Some(3) by {
      assert LastDotBefore("app.v2", 6) == LastDotBefore("app.v2", 4);
    }
    assert LastDotBefore(".hidden", 7) == LastDotBefore(".hidden", 1);
  }

  /** `file.suffix == '.gz'`. */
  predicate GzSuffix(name: string) {
    |name| > 3 && EndsWith(name, ".gz")
  }

  lemma GzSuffixIsSuffix(name: string)
    ensures GzSuffix(name) <==> SuffixDot(name).Some? && name[SuffixDot(name).value..] == ".gz"
  {
    var n := |name|;
    if GzSuffix(name) {
      assert name[n - 3] == '.' && name[n - 2] == 'g' && name[n - 1] == 'z';
      assert LastDotBefore(name, n) == LastDotBefore(name, n - 2);
      assert LastDotBefore(name, n - 2) == Some(n - 3);
    }
    if SuffixDot(name).Some? && name[SuffixDot(name).value..] == ".gz" {
      var i := SuffixDot(name).value;
      assert |name[i..]| == 3;
      assert name[n - 3..] == name[i..];
    }
  }

  /** The stem of a `*.yaml` name with something before the suffix drops exactly `.yaml`. */
  lemma StemYaml(name: string)
    requires EndsWith(name, ".yaml") && |name| > 5
    ensures Stem(name) == name[..|name| - 5]
  {
    var n := |name|;
    assert name[n - 5] == '.';
    assert name[n - 4..] == "yaml";
    assert name[n - 4] == 'y' && name[n - 3] == 'a' && name[n - 2] == 'm' && name[n - 1] == 'l';
    assert LastDotBefore(name, n) == LastDotBefore(name, n - 1) == LastDotBefore(name, n - 2)
      == LastDotBefore(name, n - 3) == LastDotBefore(name, n - 4) == Some(n - 5);
  }

  /** The names of a list of paths, in order. */
  function Names(paths: seq<string>): (r: seq<string>)
    ensures |r| == |paths| && forall k :: 0 <= k < |r| ==> r[k] == BaseName(paths[k])
  {
    seq(|paths|, k requires 0 <= k < |paths| => BaseName(paths[k]))
  }

  lemma NamesSnoc(paths: seq<string>, p: string)
    ensures Names(paths + [p]) == Names(paths) + [BaseName(p)]
  {
  }
}
