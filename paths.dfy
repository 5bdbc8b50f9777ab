/**
 * `Path.Combine` and `Path.GetFileName` of the .NET base library, for the two platforms the
 * supervisor distinguishes. On Windows both `\` and `/` separate directories and a path is
 * rooted by a leading separator or a drive (`C:`); elsewhere only `/` does either.
 */
module Paths {

  /** The pfx file the certificate is exported to and the config file Vite reads. */
  const PfxFileName := "devcert.pfx"
  const ConfigFileName := "vite.config.js"

  predicate IsDirectorySeparator(c: char, isWindows: bool)
  {
    c == '/' || (isWindows && c == '\\')
  }

  function DirectorySeparator(isWindows: bool): (c: char)
    ensures IsDirectorySeparator(c, isWindows)
  {
    if isWindows then '\\' else '/'
  }

  predicate IsDriveLetter(c: char)
  {
    ('A' <= c <= 'Z') || ('a' <= c <= 'z')
  }

  /** `Path.IsPathRooted`. */
  predicate IsPathRooted(p: string, isWindows: bool)
  {
    (|p| >= 1 && IsDirectorySeparator(p[0], isWindows))
    || (isWindows && |p| >= 2 && IsDriveLetter(p[0]) && p[1] == ':')
  }

  /** No character of `name` separates directories. */
  predicate IsPlainName(name: string, isWindows: bool)
  {
    forall k :: 0 <= k < |name| ==> !IsDirectorySeparator(name[k], isWindows)
  }

  /** `Path.Combine(a, b)`: an empty part is dropped, a rooted `b` replaces `a`, and otherwise
      `b` is appended to `a` with one separator between them unless one is already there.
      The three-part `Path.Combine(a, b, c)` behaves as `Combine(Combine(a, b), c)`. */
  function Combine(a: string, b: string, isWindows: bool): (r: string)
    ensures b == [] ==> r == a
    ensures b != [] ==> |b| <= |r| && r[|r| - |b|..] == b
    ensures b != [] && a != [] && !IsPathRooted(b, isWindows) ==> |a| <= |r| && r[..|a|] == a
    ensures b != [] && |r| > |b| && !IsDirectorySeparator(b[0], isWindows) ==>
              IsDirectorySeparator(r[|r| - |b| - 1], isWindows)
    ensures b != [] && (a == [] || IsPathRooted(b, isWindows)) ==> r == b
    ensures b != [] && a != [] && !IsPathRooted(b, isWindows) ==>
              (r == a + b || r == a + [DirectorySeparator(isWindows)] + b)
              && (r == a + b <==> IsDirectorySeparator(a[|a| - 1], isWindows) || IsDirectorySeparator(b[0], isWindows))
  {
    if b == [] then a
    else if a == [] then b
    else if IsPathRooted(b, isWindows) then b
    else if IsDirectorySeparator(a[|a| - 1], isWindows) || IsDirectorySeparator(b[0], isWindows) then a + b
    else a + [DirectorySeparator(isWindows)] + b
  }

  /** How many characters at the end of `p` hold no directory separator. */
  function FileNameLength(p: string, isWindows: bool): (n: nat)
    ensures n <= |p|
    ensures forall k :: |p| - n <= k < |p| ==> !IsDirectorySeparator(p[k], isWindows)
    ensures n < |p| ==> IsDirectorySeparator(p[|p| - n - 1], isWindows)
  {
    if p == [] || IsDirectorySeparator(p[|p| - 1], isWindows) then 0
    else 1 + FileNameLength(p[..|p| - 1], isWindows)
  }

  /** `Path.GetFileName`: the longest suffix of `p` holding no directory separator. */
  function GetFileName(p: string, isWindows: bool): (r: string)
    ensures |r| <= |p| && r == p[|p| - |r|..]
    ensures IsPlainName(r, isWindows)
    ensures |r| < |p| ==> IsDirectorySeparator(p[|p| - |r| - 1], isWindows)
  {
    p[|p| - FileNameLength(p, isWindows)..]
  }

  /** The file name of a path that ends in `name` right after a separator (or is `name`)
      is `name`. */
  lemma FileNameOfSuffix(p: string, name: string, isWindows: bool)
    requires IsPlainName(name, isWindows)
    requires |name| <= |p| && p[|p| - |name|..] == name
    requires |p| > |name| ==> IsDirectorySeparator(p[|p| - |name| - 1], isWindows)
    ensures GetFileName(p, isWindows) == name
  {
    var r := GetFileName(p, isWindows);
    assert |r| == |name|;
  }

  /** Whatever directory a plain, non-empty file name is combined with, `GetFileName` gives
      back exactly that name: the directory part never leaks into it. */
  lemma FileNameOfCombine(dir: string, name: string, isWindows: bool)
    requires name != [] && IsPlainName(name, isWindows)
    ensures GetFileName(Combine(dir, name, isWindows), isWindows) == name
  {
    FileNameOfSuffix(Combine(dir, name, isWindows), name, isWindows);
  }

  /** Neither file name the supervisor uses is empty or holds a separator. */
  lemma PlainFileNames(isWindows: bool)
    ensures PfxFileName != [] && IsPlainName(PfxFileName, isWindows)
    ensures ConfigFileName != [] && IsPlainName(ConfigFileName, isWindows)
  {
  }

  /** The pfx path the supervisor exports to: `<contentRoot>/<sourcePath>/devcert.pfx`. */
  function PfxPath(contentRoot: string, sourcePath: string, isWindows: bool): (p: string)
    ensures GetFileName(p, isWindows) == PfxFileName
  {
    PlainFileNames(isWindows);
    FileNameOfCombine(Combine(contentRoot, sourcePath, isWindows), PfxFileName, isWindows);
    Combine(Combine(contentRoot, sourcePath, isWindows), PfxFileName, isWindows)
  }

  /** The config path the supervisor writes: `<contentRoot>/<sourcePath>/vite.config.js`. */
  function ConfigPath(contentRoot: string, sourcePath: string, isWindows: bool): (p: string)
    ensures GetFileName(p, isWindows) == ConfigFileName
  {
    PlainFileNames(isWindows);
    FileNameOfCombine(Combine(contentRoot, sourcePath, isWindows), ConfigFileName, isWindows);
    Combine(Combine(contentRoot, sourcePath, isWindows), ConfigFileName, isWindows)
  }
}
