/**
 * The parts of Node's `path` module the tool uses, for paths written with
 * `/`. `path.join` normalises `.` and `..` segments and repeated
 * separators; the model joins two parts with a single `/` and takes it that
 * neither part carries such segments.
 */
module Paths {
  import opened Wrappers
  import opened Strings

  /** `path.join(base, rel)`; joining two empty parts gives `.`, the current directory. */
  function PathJoin(base: string, rel: string): (r: string)
    ensures base == "" && rel == "" ==> r == "."
    ensures base == "" && rel != "" ==> r == rel
    ensures base != "" && rel == "" ==> r == base
    ensures base != "" && rel != "" ==> StartsWith(r, base + "/") && EndsWith(r, rel)
  {
    if base == "" && rel == "" then "."
    else if base == "" then rel
    else if rel == "" then base
    else
      assert (base + "/" + rel)[..|base| + 1] == base + "/";
      assert (base + "/" + rel)[|base| + 1..] == rel;
      base + "/" + rel
  }

  /** Index of the last `/` in `p`, if any. */
  function LastSlash(p: string): (r: Option<nat>)
    ensures r.Some? ==> r.value < |p| && p[r.value] == '/' && forall k | r.value < k < |p| :: p[k] != '/'
    ensures r.None? ==> forall k | 0 <= k < |p| :: p[k] != '/'
  {
    if |p| == 0 then None
    else if p[|p| - 1] == '/' then Some(|p| - 1)
    else LastSlash(p[..|p| - 1])
  }

  /** `p` without its trailing `/` characters. */
  function TrimTrailingSlashes(p: string): (q: string)
    ensures StartsWith(p, q)
    ensures forall k | |q| <= k < |p| :: p[k] == '/'
    ensures |q| > 0 ==> q[|q| - 1] != '/'
  {
    if |p| > 0 && p[|p| - 1] == '/' then TrimTrailingSlashes(p[..|p| - 1]) else p
  }

  /**
   * `path.basename(p)`: trailing separators are ignored, then the text after
   * the last `/` is the result; a path made only of `/` has the empty name.
   */
  function Basename(p: string): (r: string)
    ensures '/' !in r
    ensures var q := TrimTrailingSlashes(p);
      && EndsWith(q, r)
      && (|r| < |q| ==> q[|q| - |r| - 1] == '/')
      && (r == "" <==> q == "")
    ensures (|p| == 0 || p[|p| - 1] != '/') ==> EndsWith(p, r) && (|r| < |p| ==> p[|p| - |r| - 1] == '/')
  {
    var q := TrimTrailingSlashes(p);
    match LastSlash(q)
    case None => q
    case Some(i) => q[i + 1..]
  }

  /** A trailing separator does not change the name. */
  lemma BasenameIgnoresTrailingSlash()
    ensures Basename("/a/b/") == "b"
    ensures Basename("/a/b") == "b"
    ensures Basename("/") == ""
  {
    assert TrimTrailingSlashes("/a/b/") == "/a/b";
    assert TrimTrailingSlashes("/") == "";
    assert LastSlash("/a/b") == Some(2);
  }

}
