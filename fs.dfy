/**
 * An abstract snapshot of the local filesystem: which paths exist, and which
 * of them are directories. Paths are slash-separated strings.
 */
module Fs {
  datatype FileSystem = FileSystem(dirs: set<string>, files: set<string>)

  /** `os.Stat(p)` succeeds. */
  predicate Exists(fs: FileSystem, p: string) {
    p in fs.dirs || p in fs.files
  }

  /** `os.Stat(p)` succeeds and reports a directory. */
  predicate IsDir(fs: FileSystem, p: string) {
    p in fs.dirs
  }

  /**
   * `filepath.Dir` of a clean path whose last element is not "..": everything
   * before the last "/", "/" for a top-level path and "." for a bare name.
   */
  function Parent(dir: string): string
    decreases |dir|
  {
    if dir == [] then "."
    else if dir[|dir| - 1] == '/' then (if |dir| == 1 then "/" else dir[..|dir| - 1])
    else Parent(dir[..|dir| - 1])
  }

  /**
   * `filepath.Join(dir, name)` for a clean directory and a single element
   * without "/": the result is cleaned, so an empty name or "." leaves the
   * directory as it is, ".." gives its parent, and under "." the name stands
   * alone.
   */
  function Join(dir: string, name: string): (r: string)
    ensures name != "" && name != "." && name != ".." && dir != "" && dir != "/" && dir != "." ==> r == dir + "/" + name
    ensures name != "" && name != "." && name != ".." && (dir == "" || dir == ".") ==> r == name
  {
    if name == "" || name == "." then (if dir == "" then name else dir)
    else if name == ".." then (if dir == "" then name else Parent(dir))
    else if dir == "" || dir == "." then name
    else if dir == "/" then "/" + name
    else dir + "/" + name
  }

  /** `filepath.IsAbs` on a Unix system. */
  predicate IsAbs(p: string) {
    |p| > 0 && p[0] == '/'
  }
}
