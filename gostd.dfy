/**
 * The Go standard library functions the package relies on, on Unix:
 * `filepath.Ext`, `strings.Index` and `strings.Replace` with a count of 1.
 * Go strings are byte strings; '.' and '/' are single bytes that never occur
 * inside a multi-byte UTF-8 sequence, so scanning characters gives the same
 * answers as scanning bytes.
 */
module GoStd {
  import opened Wrappers

  /** `os.PathSeparator` on Unix. */
  const Separator: char := '/'

  /** `filepath.Ext` looks at path[..i] from its end, stopping at a separator. */
  function ExtScan(path: string, i: nat): (r: string)
    requires i <= |path|
    ensures |r| <= |path|
    decreases i
  {
    if i == 0 then ""
    else if path[i - 1] == Separator then ""
    else if path[i - 1] == '.' then path[i - 1..]
    else ExtScan(path, i - 1)
  }

  /** `filepath.Ext(path)`. */
  function Ext(path: string): (r: string)
    ensures |r| <= |path|
  {
    ExtScan(path, |path|)
  }

  /** Position k starts the extension: a dot with neither a dot nor a separator after it. */
  ghost predicate IsExtStart(path: string, k: int)
    requires 0 <= k < |path|
  {
    path[k] == '.' && forall j :: k < j < |path| ==> path[j] != '.' && path[j] != Separator
  }

  lemma {:induction false} ExtScanSpec(path: string, i: nat)
    requires i <= |path|
    requires forall j :: i <= j < |path| ==> path[j] != '.' && path[j] != Separator
    ensures var r := ExtScan(path, i);
      (r != "" ==> |r| <= |path| && r == path[|path| - |r|..] && IsExtStart(path, |path| - |r|))
      && (r == "" ==> forall k :: 0 <= k < |path| ==> !IsExtStart(path, k))
    decreases i
  {
    if i == 0 {
    } else if path[i - 1] == Separator {
      forall k | 0 <= k < |path| ensures !IsExtStart(path, k) {
        if k < i - 1 {
          assert path[i - 1] == Separator;
        } else {
          assert path[k] != '.';
        }
      }
    } else if path[i - 1] == '.' {
    } else {
      ExtScanSpec(path, i - 1);
    }
  }

  /**
   * `filepath.Ext` is empty exactly when the last path element has no dot;
   * otherwise it is the suffix starting at the last dot of that element.
   */
  lemma ExtSpec(path: string)
    ensures Ext(path) != "" <==> exists k :: 0 <= k < |path| && IsExtStart(path, k)
    ensures var r := Ext(path);
      r != "" ==> |r| <= |path| && r == path[|path| - |r|..] && IsExtStart(path, |path| - |r|)
  {
    ExtScanSpec(path, |path|);
  }

  /** The extension, when present, starts with its dot; a trailing dot is an extension of its own. */
  lemma ExtExamples()
    ensures Ext("foo.mp4") == ".mp4"
    ensures Ext("foo.") == "."
    ensures Ext(".bashrc") == ".bashrc"
    ensures Ext("clip") == ""
    ensures Ext("dir.d/clip") == ""
    ensures Ext("x.mp4.mp4") == ".mp4"
  {
    assert ExtScan("foo.mp4", 4) == "foo.mp4"[3..];
    assert ExtScan(".bashrc", 1) == ".bashrc";
    assert ExtScan("clip", 4) == ExtScan("clip", 3) == ExtScan("clip", 2) == ExtScan("clip", 1) == ExtScan("clip", 0);
    assert ExtScan("dir.d/clip", 10) == ExtScan("dir.d/clip", 6);
    assert ExtScan("x.mp4.mp4", 6) == "x.mp4.mp4"[5..];
  }

  /** `sub` occurs in `s` starting at position k. */
  predicate OccursAt(s: string, sub: string, k: nat) {
    k + |sub| <= |s| && s[k..k + |sub|] == sub
  }

  /** A position whose character differs from the first one of sub does not start an occurrence. */
  lemma MismatchAt(s: string, sub: string, k: nat)
    requires sub != [] && k < |s| && s[k] != sub[0]
    ensures !OccursAt(s, sub, k)
  {
  }

  /** `strings.Index` looking from position i on: the first occurrence, if any. */
  function IndexFrom(s: string, sub: string, i: nat): (r: Option<nat>)
    requires i <= |s|
    ensures r.Some? ==>
      i <= r.value <= |s| && OccursAt(s, sub, r.value)
      && forall j :: i <= j < r.value ==> !OccursAt(s, sub, j)
    ensures r.None? ==> forall j :: i <= j <= |s| ==> !OccursAt(s, sub, j)
    decreases |s| - i
  {
    if OccursAt(s, sub, i) then Some(i)
    else if i == |s| then None
    else IndexFrom(s, sub, i + 1)
  }

  /** `strings.Index(s, sub)`, with `None` for Go's -1. */
  function Index(s: string, sub: string): (r: Option<nat>)
    ensures r.Some? ==>
      OccursAt(s, sub, r.value) && forall j :: 0 <= j < r.value ==> !OccursAt(s, sub, j)
    ensures r.None? ==> forall j :: 0 <= j <= |s| ==> !OccursAt(s, sub, j)
  {
    IndexFrom(s, sub, 0)
  }

  /**
   * `strings.Replace(s, pat, rep, 1)`: returns s when pat == rep, and
   * otherwise replaces the first occurrence of pat (an empty pat "occurs" at 0).
   */
  function ReplaceFirst(s: string, pat: string, rep: string): string {
    if pat == rep then s
    else match Index(s, pat)
      case None => s
      case Some(k) => s[..k] + rep + s[k + |pat|..]
  }

  /**
   * `ReplaceFirst` rewrites exactly the first occurrence and keeps everything
   * else; with nothing to replace it returns s; an empty pat is a prefix insertion.
   */
  lemma ReplaceFirstSpec(s: string, pat: string, rep: string)
    ensures Index(s, pat).None? ==> ReplaceFirst(s, pat, rep) == s
    ensures Index(s, pat).Some? ==>
      var k := Index(s, pat).value;
      OccursAt(s, pat, k) && (forall j :: 0 <= j < k ==> !OccursAt(s, pat, j))
      && ReplaceFirst(s, pat, rep) == s[..k] + rep + s[k + |pat|..]
    ensures pat == "" ==> ReplaceFirst(s, pat, rep) == rep + s
  {
  }
}
