/**
 * The two path helpers the defaulting step calls. The platform path library
 * is not part of this model; these split at the last `/` or `\` and, for the
 * base name, at the last `.` after it.
 */
module Paths {
  import opened Wrappers

  predicate IsSeparator(c: char) {
    c == '/' || c == '\\'
  }

  /** The position of the last separator, if there is one. */
  function LastSeparator(path: string): (r: Option<nat>)
    ensures r.Some? ==> r.value < |path| && IsSeparator(path[r.value])
    ensures r.Some? ==> forall i | r.value < i < |path| :: !IsSeparator(path[i])
    ensures r.None? ==> forall i | 0 <= i < |path| :: !IsSeparator(path[i])
  {
    if |path| == 0 then None
    else if IsSeparator(path[|path| - 1]) then Some(|path| - 1)
    else LastSeparator(path[..|path| - 1])
  }

  /** `Path.GetDirectoryName`: everything before the last separator; empty when there is none. */
  function GetDirectoryName(path: string): (r: string)
    ensures |r| < |path| || r == []
    ensures LastSeparator(path).None? ==> r == []
  {
    match LastSeparator(path)
    case Some(p) => path[..p]
    case None => []
  }

  /** `Path.GetFileNameWithoutExtension`: the text after the last separator, cut at its last `.`. */
  function GetFileNameWithoutExtension(path: string): (r: string)
    ensures forall i | 0 <= i < |r| :: !IsSeparator(r[i])
  {
    var name := match LastSeparator(path) case Some(p) => path[p + 1..] case None => path;
    assert forall i | 0 <= i < |name| :: !IsSeparator(name[i]);
    StripExtension(name, |name|)
  }

  /** The name without its last `.` and what follows, looking at positions before n only. */
  function StripExtension(name: string, n: nat): (r: string)
    requires n <= |name|
    ensures |r| <= |name| && r == name[..|r|]
    decreases n
  {
    if n == 0 then name
    else if name[n - 1] == '.' then name[..n - 1]
    else StripExtension(name, n - 1)
  }
}
