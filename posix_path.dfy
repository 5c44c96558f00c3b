/** The part of Python's `os.path` (POSIX flavour) that the core uses. */
module PosixPath {

  /**
   * `os.path.basename`: the text after the last `/`, or the whole path when
   * it holds no `/`. The result is a suffix of the path, contains no `/`,
   * and is preceded by a `/` whenever it is shorter than the path, which
   * together pin it down as the tail after the LAST separator.
   */
  function Basename(path: string): (b: string)
    ensures |b| <= |path| && path[|path| - |b|..] == b
    ensures '/' !in b
    ensures |b| < |path| ==> path[|path| - |b| - 1] == '/'
  {
    if path == [] || path[|path| - 1] == '/' then []
    else Basename(path[..|path| - 1]) + [path[|path| - 1]]
  }
}
