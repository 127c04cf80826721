/**
 * The string manipulations on file paths the application performs, with
 * POSIX path semantics (`/` is the only separator).
 */
module Paths {
  import opened Wrappers

  /** Python's `s.lstrip('/')`: every leading `/` removed, nothing else. */
  function StripLeadingSlashes(s: string): (r: string)
    ensures |r| <= |s| && r == s[|s| - |r|..]
    ensures forall k :: 0 <= k < |s| - |r| ==> s[k] == '/'
    ensures r == [] || r[0] != '/'
    decreases |s|
  {
    if s != [] && s[0] == '/' then StripLeadingSlashes(s[1..]) else s
  }

  /** Python's `s.rfind(c)`, with None for -1: the position of the last `c` in `s`. */
  function LastIndexOf(s: string, c: char): (r: Option<nat>)
    ensures r.None? <==> c !in s
    ensures r.Some? ==> r.value < |s| && s[r.value] == c && c !in s[r.value + 1..]
    decreases |s|
  {
    if s == [] then None
    else if s[|s| - 1] == c then Some(|s| - 1)
    else
      assert s == s[..|s| - 1] + [s[|s| - 1]];
      LastIndexOf(s[..|s| - 1], c)
  }

  /** `os.path.basename(path)`: what follows the last `/`, or the whole path when there is none. */
  function BaseName(path: string): (b: string)
    ensures '/' !in b
    ensures |b| <= |path| && b == path[|path| - |b|..]
    ensures |b| < |path| ==> path[|path| - |b| - 1] == '/'
  {
    match LastIndexOf(path, '/')
    case None => path
    case Some(i) => path[i + 1..]
  }

  /**
   * `name.rsplit('.', 1)[0]`: everything before the last `.`, or the whole
   * name when it holds no `.`.
   */
  function StripExtension(name: string): (t: string)
    ensures '.' !in name ==> t == name
    ensures '.' in name ==>
              |t| < |name| && t == name[..|t|] && name[|t|] == '.' && '.' !in name[|t| + 1..]
  {
    match LastIndexOf(name, '.')
    case None => name
    case Some(i) => name[..i]
  }

  /** The title the title prompt is pre-filled with for the chosen video file. */
  function DefaultTitle(filePath: string): (t: string)
    ensures '/' !in t
    ensures |t| <= |BaseName(filePath)| && t == BaseName(filePath)[..|t|]
    ensures '.' !in BaseName(filePath) ==> t == BaseName(filePath)
    ensures '.' in BaseName(filePath) ==>
              |t| < |BaseName(filePath)| && BaseName(filePath)[|t|] == '.' && '.' !in BaseName(filePath)[|t| + 1..]
  {
    StripExtension(BaseName(filePath))
  }

  /** A concrete file name: the directory and the extension both go. */
  lemma DefaultTitleExample()
    ensures DefaultTitle("v/Up.2.mkv") == "Up.2"
  {
    assert LastIndexOf("v/Up.2.mkv", '/') == Some(1);
    assert BaseName("v/Up.2.mkv") == "Up.2.mkv";
    assert LastIndexOf("Up.2.mkv", '.') == Some(4);
  }
}
