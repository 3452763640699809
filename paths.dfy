/**
 * Local filesystem paths in the shape `pathlib.Path` gives them: the current
 * directory ".", or a name inside a directory.
 */
module Paths {

  datatype Path = Here | Sub(dir: Path, name: string)

  /** `Path.name`: the last component, or "" for the current directory. */
  function Name(p: Path): string {
    if p.Here? then "" else p.name
  }

  /** `Path.parent`: everything but the last component; "." is its own parent. */
  function Parent(p: Path): Path {
    if p.Here? then Here else p.dir
  }

  /** `p / name` for a single component; joining "" leaves the path unchanged. */
  function Join(p: Path, name: string): (r: Path)
    ensures name != "" ==> Parent(r) == p && Name(r) == name && r != p
    ensures name == "" ==> r == p
  {
    if name == "" then p else Sub(p, name)
  }

  /** The transfer-in-progress file beside `p`: its name with ".tmp" appended. */
  function TmpPath(p: Path): (r: Path)
    requires p.Sub?
    ensures r.Sub? && Parent(r) == Parent(p) && r != p
  {
    assert |p.name + ".tmp"| == |p.name| + 4;
    Sub(p.dir, p.name + ".tmp")
  }

  /** The temporary file's name is the destination's with ".tmp" appended. */
  lemma TmpPathName(p: Path)
    requires p.Sub?
    ensures Name(TmpPath(p)) == Name(p) + ".tmp"
  {
  }

  /** How many names `p` is made of. */
  function Depth(p: Path): nat {
    if p.Here? then 0 else Depth(p.dir) + 1
  }

  /** Every directory `mkdir(parents=True)` has to make for `p`: `p` and all its ancestors. */
  function Ancestors(p: Path): (r: set<Path>)
    ensures p in r && Here in r
    ensures forall q :: q in r ==> Depth(q) <= Depth(p)
  {
    if p.Here? then {Here} else {p} + Ancestors(p.dir)
  }

  /** Index of the last occurrence of `c` in `s`, or -1 (`str.rfind`). */
  function LastIndexOf(s: string, c: char): (r: int)
    ensures -1 <= r < |s|
    ensures r >= 0 ==> s[r] == c
    ensures forall k :: r < k < |s| ==> s[k] != c
  {
    if s == [] then -1
    else if s[|s| - 1] == c then |s| - 1
    else LastIndexOf(s[..|s| - 1], c)
  }

  /** `Path(s).name` for a slash-separated repository path: the text after the last '/'. */
  function LastSegment(s: string): (r: string)
    ensures '/' !in r
  {
    if s == [] || s[|s| - 1] == '/' then [] else LastSegment(s[..|s| - 1]) + [s[|s| - 1]]
  }

  /**
   * The last segment is the tail of the path that starts at its beginning or
   * just after its last '/'.
   */
  lemma {:induction false} LastSegmentIsTail(s: string)
    ensures var r := LastSegment(s);
            && |r| <= |s| && r == s[|s| - |r|..]
            && (|r| < |s| ==> s[|s| - |r| - 1] == '/')
    decreases |s|
  {
    if s != [] && s[|s| - 1] != '/' {
      var t := s[..|s| - 1];
      LastSegmentIsTail(t);
      var r' := LastSegment(t);
      assert s[|s| - |r'| - 1..] == t[|t| - |r'|..] + [s[|s| - 1]];
      if |r'| < |t| {
        assert s[|s| - |r'| - 2] == t[|t| - |r'| - 1];
      }
    }
  }

  /**
   * Whether `Path.suffix` is non-empty for a file name: the name has a last dot
   * that is neither its first nor its last character.
   */
  predicate HasSuffix(name: string) {
    var i := LastIndexOf(name, '.');
    0 < i < |name| - 1
  }
}
