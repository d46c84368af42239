/**
 * The string operations the player relies on, with the meaning they have
 * in Python: `str.endswith`, `str.startswith` and the POSIX flavour of
 * `os.path.join` applied to a folder and one file name.
 */
module Paths {

  /** Python's `s.endswith(suffix)`: an exact, case-sensitive suffix match. */
  predicate EndsWith(s: string, suffix: string) {
    |suffix| <= |s| && s[|s| - |suffix|..] == suffix
  }

  /** s ends with the suffix exactly when s is some stem followed by it. */
  lemma EndsWithSplits(s: string, suffix: string)
    ensures EndsWith(s, suffix) <==> |suffix| <= |s| && s == s[..|s| - |suffix|] + suffix
  {
  }

  /** Python's `s.startswith(prefix)`. */
  predicate StartsWith(s: string, prefix: string) {
    |prefix| <= |s| && s[..|prefix|] == prefix
  }

  /** s starts with the prefix exactly when s is the prefix followed by some rest. */
  lemma StartsWithSplits(s: string, prefix: string)
    ensures StartsWith(s, prefix) <==> |prefix| <= |s| && s == prefix + s[|prefix|..]
  {
  }

  /**
   * `posixpath.join(folder, name)`: an absolute name replaces the folder,
   * an empty folder or one ending in a separator is extended directly,
   * otherwise one separator is inserted.
   */
  function Join(folder: string, name: string): (path: string)
    ensures EndsWith(path, name)
    ensures !StartsWith(name, "/") ==> StartsWith(path, folder)
    ensures folder == "" ==> path == name
    ensures StartsWith(name, "/") ==> path == name
    ensures folder != "" && !EndsWith(folder, "/") && !StartsWith(name, "/") ==>
      |path| == |folder| + 1 + |name| && path[|folder|] == '/'
    ensures |path| <= |folder| + 1 + |name|
  {
    if StartsWith(name, "/") then name
    else if folder == "" || EndsWith(folder, "/") then
      var p := folder + name;
      assert p[|p| - |name|..] == name;
      assert p[..|folder|] == folder;
      p
    else
      var p := folder + "/" + name;
      assert p[|p| - |name|..] == name;
      assert p[..|folder|] == folder;
      p
  }
}
