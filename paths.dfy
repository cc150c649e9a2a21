/**
 * File-system paths as lists of `/`-separated components (`PathBuf` in the
 * source): the empty path is the single empty component, an absolute path
 * starts with an empty component and a trailing `/` ends with one. Repeated
 * separators and `.` components are not normalised.
 */
module Paths {
  import opened Wrappers
  import opened Strings

  datatype Path = Path(parts: seq<String>)

  /** What `homedir::get_my_home()` yields: the home directory, no home directory, or a lookup
      error. */
  datatype HomeDir = Found(path: Path) | NotFound | LookupFailed

  /** `Path::new(s)` */
  function FromString(s: String): Path {
    Path(Split(s, '/'))
  }

  /** `path.to_str()` */
  function ToString(p: Path): String {
    Join(p.parts, '/')
  }

  /** The empty path `""`. */
  predicate IsEmpty(p: Path) {
    p.parts == [] || p.parts == [""]
  }

  /** The path's text ends with the separator: the root, or a directory written with a
      trailing `/`. */
  predicate EndsWithSeparator(p: Path) {
    |p.parts| >= 2 && p.parts[|p.parts| - 1] == ""
  }

  /** `path.join(rel)` for a relative, non-empty `rel`: `rel` itself when the path is empty,
      otherwise the path and `rel` with one separator between them. */
  function JoinRel(p: Path, rel: String): (r: Path)
    requires |rel| > 0 && rel[0] != '/'
    ensures ToString(r) == if IsEmpty(p) then rel
                           else if EndsWithSeparator(p) then ToString(p) + rel
                           else ToString(p) + "/" + rel
  {
    JoinSplit(rel, '/');
    if IsEmpty(p) then FromString(rel)
    else if EndsWithSeparator(p) then
      var dir := p.parts[..|p.parts| - 1];
      JoinConcat(dir, Split(rel, '/'), '/');
      JoinConcat(dir, [""], '/');
      assert dir + [""] == p.parts;
      Path(dir + Split(rel, '/'))
    else
      JoinConcat(p.parts, Split(rel, '/'), '/');
      Path(p.parts + Split(rel, '/'))
  }

  /** The components with trailing separators dropped (keeping the first component). */
  function TrimTrailing(parts: seq<String>): (q: seq<String>)
    requires |parts| >= 1
    ensures 1 <= |q| <= |parts| && q == parts[..|q|]
    ensures |q| >= 2 ==> q[|q| - 1] != ""
  {
    if |parts| >= 2 && parts[|parts| - 1] == "" then TrimTrailing(parts[..|parts| - 1]) else parts
  }

  /** `path.parent()`: `None` for the empty path and the root; the empty path for a single
      relative component; the root for a single absolute component; otherwise the path without
      its last component. */
  function Parent(p: Path): (r: Option<Path>)
    ensures r.None? <==> IsEmpty(p) || TrimTrailing(p.parts) == [""]
  {
    if IsEmpty(p) then None
    else
    var q := TrimTrailing(p.parts);
    if q == [""] then None
    else if |q| == 1 then Some(Path([""]))
    else if |q| == 2 && q[0] == "" then Some(Path(["", ""]))
    else Some(Path(q[..|q| - 1]))
  }

  /** The last component of the path is `name`. */
  predicate EndsWith(p: Path, name: String) {
    |p.parts| > 0 && p.parts[|p.parts| - 1] == name
  }

  /** Converting a string to a path and back gives the same string. */
  lemma ToStringFromString(s: String)
    ensures ToString(FromString(s)) == s
  {
    JoinSplit(s, '/');
  }

  /** Joining a name without separators makes it the last component, and the parent of the
      result is the original path when that path is a non-empty one without a trailing `/`. */
  lemma ParentOfJoin(p: Path, name: String)
    requires |name| > 0 && '/' !in name
    ensures EndsWith(JoinRel(p, name), name)
    ensures |p.parts| >= 1 && p.parts[|p.parts| - 1] != "" ==> Parent(JoinRel(p, name)) == Some(p)
  {
    assert Split(name, '/') == [name];
    assert name[0] in name;
    if |p.parts| >= 1 && p.parts[|p.parts| - 1] != "" {
      assert (p.parts + [name])[..|p.parts|] == p.parts;
    }
  }
}
