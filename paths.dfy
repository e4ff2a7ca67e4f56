/**
 * The parts of the Windows path API the console relies on: combining a directory with a
 * name, and splitting a path into its directory and its last component.
 */
module Paths {
  import opened Text

  /** The separators after which a Windows path combine adds no separator of its own. */
  const PathEnds: set<char> := {'\\', '/', ':'}

  /** Combining a directory with a relative name, as the Windows path API does. */
  function PathCombine(dir: string, name: string): (p: string)
    ensures |dir| == 0 ==> p == name
    ensures |dir| > 0 ==> p == dir + (if dir[|dir| - 1] in PathEnds then "" else "\\") + name
    ensures EndsWith(p, name)
  {
    if |dir| == 0 then name
    else if dir[|dir| - 1] in PathEnds then dir + name
    else dir + "\\" + name
  }

  /** Where the last component of a path starts: just after its last '\', '/' or ':'. */
  function NameStart(path: string): (k: nat)
    ensures k <= |path|
    ensures forall j | k <= j < |path| :: path[j] !in PathEnds
    ensures k == 0 || path[k - 1] in PathEnds
  {
    if |path| == 0 || path[|path| - 1] in PathEnds then |path|
    else NameStart(path[..|path| - 1])
  }

  /** The last component of a path. */
  function FileName(path: string): (name: string)
    ensures EndsWith(path, name)
    ensures forall k | 0 <= k < |name| :: name[k] !in PathEnds
    ensures |name| < |path| ==> path[|path| - |name| - 1] in PathEnds
  {
    path[NameStart(path)..]
  }

  /** The separators between a directory and the name inside it. */
  const DirSeparators: set<char> := {'\\', '/'}

  /** Where the name after the last directory separator starts (0 when there is none). */
  function AfterLastSeparator(path: string): (k: nat)
    ensures k <= |path|
    ensures forall j | k <= j < |path| :: path[j] !in DirSeparators
    ensures k == 0 || path[k - 1] in DirSeparators
  {
    if |path| == 0 || path[|path| - 1] in DirSeparators then |path|
    else AfterLastSeparator(path[..|path| - 1])
  }

  /** A path that is only a root: empty (the current drive's root) or a drive letter and a colon. */
  predicate IsRootPrefix(prefix: string) {
    |prefix| == 0 || (|prefix| == 2 && prefix[1] == ':')
  }

  /**
   * The directory of a file path: everything before its last separator, keeping the separator
   * when what precedes it is only a root; the empty string when there is no separator.
   */
  function DirectoryName(path: string): (dir: string)
    ensures var k := AfterLastSeparator(path);
      && (k == 0 ==> dir == "")
      && (k > 0 && IsRootPrefix(path[..k - 1]) ==> dir == path[..k])
      && (k > 0 && !IsRootPrefix(path[..k - 1]) ==> dir == path[..k - 1])
    ensures StartsWith(path, dir)
  {
    var k := AfterLastSeparator(path);
    if k == 0 then ""
    else if IsRootPrefix(path[..k - 1]) then path[..k]
    else path[..k - 1]
  }
}
