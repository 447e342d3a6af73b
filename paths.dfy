/** POSIX path handling as Python's `os.path` does it, and suffix tests. */
module Paths {
  type Path = string

  /** `os.path.join(a, b)` on POSIX: an absolute `b` replaces `a`; otherwise one
      separator is put between them unless `a` is empty or already ends in one. */
  function Join(a: Path, b: Path): Path
  {
    if |b| > 0 && b[0] == '/' then b
    else if a == "" || a[|a| - 1] == '/' then a + b
    else a + "/" + b
  }

  /** `os.path.basename(p)`: the part of `p` after its last separator. */
  function Basename(p: Path): (name: string)
    ensures '/' !in name
    ensures '/' !in p ==> name == p
    decreases |p|
  {
    if p == "" then ""
    else if p[|p| - 1] == '/' then ""
    else Basename(p[..|p| - 1]) + [p[|p| - 1]]
  }

  /** The basename is the longest suffix of `p` without a separator: it is a
      suffix, and the character before it, if any, is a separator. */
  lemma {:induction false} BasenameSuffix(p: Path)
    ensures var name := Basename(p);
      && |name| <= |p| && name == p[|p| - |name|..]
      && (|name| < |p| ==> p[|p| - |name| - 1] == '/')
    decreases |p|
  {
    if p != "" && p[|p| - 1] != '/' {
      var init := p[..|p| - 1];
      BasenameSuffix(init);
      var r := Basename(init);
      assert p[|p| - |r| - 1..] == init[|init| - |r|..] + [p[|p| - 1]];
    }
  }

  /** The basename of a name placed under a directory is that name. */
  lemma BasenameUnderDirectory(dir: Path, name: string)
    requires '/' !in name
    ensures Basename(dir + "/" + name) == name
  {
    var p := dir + "/" + name;
    BasenameSuffix(p);
    assert p[|dir|] == '/';
    assert |Basename(p)| == |name|;
    assert p[|p| - |name|..] == name;
  }

  /** `s.endswith(suffix)`. */
  predicate EndsWith(s: string, suffix: string)
  {
    |suffix| <= |s| && s[|s| - |suffix|..] == suffix
  }
}
