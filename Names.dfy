/** File names and path derivation of the video stabilizer: the fixed names it
 *  uses, the per-input artifact paths under the work folder, and the
 *  `lastIndexOf`/`substring` helpers these rest on. */
module Names {

  datatype Option<T> = None | Some(value: T)

  type Path = string

  /** The platform's name separator, fixed to the Unix one. */
  const SEPARATOR: char := '/'

  const DEFAULT_OUTPUT_VIDEO_FILENAME: Path := "out.mp4"
  const WORK_FOLDER: string := "vidproc"
  const TRANSFORMS_FILE_SUFFIX: string := ".trf"
  const VIDEO_FILE_SUFFIX: string := ".mp4"
  const LISTING_FILENAME: Path := "files.txt"

  /** The analysis tool writes, and the transform tool reads, this file in the
   *  current folder. */
  const TEMP_TRANSFORMS_FILE: Path := "transforms.trf"
  const TEMP_STABILIZED_VIDEO_FILE: string := "temp_stabilized.mp4"

  /** `vidproc/`: every path inside the work folder starts with it. */
  const WORK_PREFIX: string := WORK_FOLDER + [SEPARATOR]

  function InWorkFolder(name: string): Path {
    WORK_PREFIX + name
  }

  const TEMP_STABILIZED: Path := InWorkFolder(TEMP_STABILIZED_VIDEO_FILE)

  /** Java's `String.lastIndexOf(char)`: the last position of `c`, or -1. */
  function LastIndexOf(s: string, c: char): (i: int)
    ensures -1 <= i < |s|
    ensures 0 <= i ==> s[i] == c
    ensures forall j :: i < j < |s| ==> s[j] != c
  {
    if |s| == 0 then -1
    else if s[|s| - 1] == c then |s| - 1
    else LastIndexOf(s[..|s| - 1], c)
  }

  /** The file name up to its last '.'; `None` where Java's
   *  `substring(0, -1)` throws because the name has no '.'. */
  function BaseName(name: string): (r: Option<string>)
    ensures r.None? <==> '.' !in name
    ensures r.Some? ==>
              |r.value| < |name| && r.value == name[..|r.value|] &&
              name[|r.value|] == '.' && '.' !in name[|r.value| + 1..]
  {
    var i := LastIndexOf(name, '.');
    if i < 0 then None else Some(name[..i])
  }

  /** The file name from its last '.' on; `None` where Java's
   *  `substring(-1)` throws because the name has no '.'. */
  function Suffix(name: string): (r: Option<string>)
    ensures r.None? <==> '.' !in name
    ensures r.Some? ==>
              0 < |r.value| <= |name| && r.value == name[|name| - |r.value|..] &&
              r.value[0] == '.' && '.' !in r.value[1..]
  {
    var i := LastIndexOf(name, '.');
    if i < 0 then None else Some(name[i..])
  }

  /** `Path.getFileName()`: the text after the last separator. */
  function FileName(path: Path): (r: string)
    ensures |r| <= |path| && r == path[|path| - |r|..]
    ensures SEPARATOR !in r
    ensures |r| < |path| ==> path[|path| - |r| - 1] == SEPARATOR
  {
    path[LastIndexOf(path, SEPARATOR) + 1..]
  }

  /** `tail` is the separator-free tail of `path` that follows its last
   *  separator, so it is `path`'s file name. */
  lemma FileNameUnique(path: Path, tail: string)
    requires |tail| <= |path| && tail == path[|path| - |tail|..] && SEPARATOR !in tail
    requires |tail| < |path| ==> path[|path| - |tail| - 1] == SEPARATOR
    ensures FileName(path) == tail
  {
    var i := LastIndexOf(path, SEPARATOR);
    assert forall j :: |path| - |tail| <= j < |path| ==> path[j] == tail[j - (|path| - |tail|)];
    assert i == |path| - |tail| - 1;
  }

  /** No separator directly follows another one. */
  predicate SingleSeparators(p: Path) {
    forall i :: 0 <= i < |p| - 1 ==> !(p[i] == SEPARATOR && p[i + 1] == SEPARATOR)
  }

  /** The form in which a Unix `Path` keeps its string: no repeated separator,
   *  and no trailing one unless the path is the root itself. */
  predicate NormalPath(p: Path) {
    SingleSeparators(p) && (|p| > 1 ==> p[|p| - 1] != SEPARATOR)
  }

  /** Every run of separators of `s` collapsed into one. */
  function CollapseSeparators(s: string): (r: string)
    ensures SingleSeparators(r)
    ensures SingleSeparators(s) ==> r == s
    ensures |s| > 0 ==> 0 < |r| && r[0] == s[0] && r[|r| - 1] == s[|s| - 1]
    decreases |s|
  {
    if |s| <= 1 then s
    else if s[0] == SEPARATOR && s[1] == SEPARATOR then CollapseSeparators(s[1..])
    else [s[0]] + CollapseSeparators(s[1..])
  }

  /** `Paths.get` on Unix: repeated separators collapse into one and a
   *  trailing separator is dropped; a path already in that form is kept. */
  function PathsGet(s: string): (p: Path)
    ensures NormalPath(p)
    ensures NormalPath(s) ==> p == s
    ensures |s| > 0 ==> 0 < |p| && p[0] == s[0]
  {
    var c := CollapseSeparators(s);
    if |c| > 1 && c[|c| - 1] == SEPARATOR then c[..|c| - 1] else c
  }

  /** Collapsing removes a separator that follows another: the two strings
   *  below differ only in that repeat and collapse to the same string. With
   *  the second `ensures` of `CollapseSeparators`, this decides its result. */
  lemma {:induction false} CollapseDropsRepeat(a: string, b: string)
    ensures CollapseSeparators(a + [SEPARATOR, SEPARATOR] + b) == CollapseSeparators(a + [SEPARATOR] + b)
    decreases |a|
  {
    var s, t := a + [SEPARATOR, SEPARATOR] + b, a + [SEPARATOR] + b;
    if |a| == 0 {
      assert s[1..] == t;
    } else {
      assert s[0] == t[0] && s[1] == t[1];
      assert s[1..] == a[1..] + [SEPARATOR, SEPARATOR] + b;
      assert t[1..] == a[1..] + [SEPARATOR] + b;
      CollapseDropsRepeat(a[1..], b);
    }
  }

  /** `Paths.get` treats a doubled separator as a single one. */
  lemma PathsGetDropsRepeat(a: string, b: string)
    ensures PathsGet(a + [SEPARATOR, SEPARATOR] + b) == PathsGet(a + [SEPARATOR] + b)
  {
    CollapseDropsRepeat(a, b);
  }

  /** `./`: a leading segment that names the current folder itself. */
  const CURRENT_PREFIX: string := ['.', SEPARATOR]

  /** The file a relative path names once its leading `./` segments are
   *  resolved, as `Files.exists` looks it up: a tail of the path with the
   *  same file name and no leading `./`. */
  function ExistencePath(p: Path): (r: Path)
    ensures |r| <= |p| && r == p[|p| - |r|..]
    ensures !(CURRENT_PREFIX <= r)
    ensures !(CURRENT_PREFIX <= p) ==> r == p
    ensures FileName(r) == FileName(p)
    decreases |p|
  {
    if CURRENT_PREFIX <= p then
      var rest := p[2..];
      var f := FileName(rest);
      FileNameUnique(p, f);
      ExistencePath(rest)
    else p
  }

  /** A leading `./` is kept by `Paths.get`, leaves the file name alone and
   *  is resolved away by the existence check. */
  lemma CurrentFolderPath(name: Path)
    requires NormalPath(name) && 0 < |name| && name[0] != SEPARATOR
    ensures PathsGet(CURRENT_PREFIX + name) == CURRENT_PREFIX + name
    ensures FileName(CURRENT_PREFIX + name) == FileName(name)
    ensures ExistencePath(CURRENT_PREFIX + name) == ExistencePath(name)
  {
    CurrentFolderNormal(name);
    CurrentFolderResolved(name);
    assert FileName(ExistencePath(CURRENT_PREFIX + name)) == FileName(CURRENT_PREFIX + name);
  }

  lemma CurrentFolderNormal(name: Path)
    requires NormalPath(name) && 0 < |name| && name[0] != SEPARATOR
    ensures NormalPath(CURRENT_PREFIX + name)
  {
    var dotted := CURRENT_PREFIX + name;
    forall i | 0 <= i < |dotted| - 1
      ensures !(dotted[i] == SEPARATOR && dotted[i + 1] == SEPARATOR)
    {
      if i >= 2 {
        assert dotted[i] == name[i - 2] && dotted[i + 1] == name[i - 1];
      } else if i == 1 {
        assert dotted[i + 1] == name[0];
      }
    }
    assert dotted[|dotted| - 1] == name[|name| - 1];
  }

  lemma CurrentFolderResolved(name: Path)
    ensures ExistencePath(CURRENT_PREFIX + name) == ExistencePath(name)
  {
    var dotted := CURRENT_PREFIX + name;
    assert CURRENT_PREFIX <= dotted && dotted[2..] == name;
  }

  /** `Paths.get` drops a trailing separator. */
  lemma TrailingSeparatorPath(name: Path)
    requires NormalPath(name) && 0 < |name| && name[0] != SEPARATOR
    ensures PathsGet(name + [SEPARATOR]) == name
  {
    var slashed := name + [SEPARATOR];
    assert name[|name| - 1] != SEPARATOR;
    assert SingleSeparators(slashed) by {
      forall i | 0 <= i < |slashed| - 1
        ensures !(slashed[i] == SEPARATOR && slashed[i + 1] == SEPARATOR)
      {
        assert slashed[i] == name[i];
        if i + 1 < |name| {
          assert slashed[i + 1] == name[i + 1];
        }
      }
    }
    assert CollapseSeparators(slashed) == slashed;
    assert slashed[..|slashed| - 1] == name;
  }

  /** Where the stabilized video of an input with base name `base` is kept. */
  function StabilizedPath(base: string): (p: Path)
    ensures WORK_PREFIX <= p
  {
    InWorkFolder(base + VIDEO_FILE_SUFFIX)
  }

  /** Where the analysis result of an input with base name `base` is kept. */
  function TransformsPath(base: string): (p: Path)
    ensures WORK_PREFIX <= p
  {
    InWorkFolder(base + TRANSFORMS_FILE_SUFFIX)
  }

  /** Java's `toLowerCase`, folding ASCII letters. */
  function LowerAscii(c: char): char {
    if 'A' <= c <= 'Z' then (c as int + 32) as char else c
  }

  function Lowered(s: string): (r: string)
    ensures |r| == |s| && forall i :: 0 <= i < |s| ==> r[i] == LowerAscii(s[i])
  {
    seq(|s|, i requires 0 <= i < |s| => LowerAscii(s[i]))
  }

  /** Java's `equalsIgnoreCase`, folding ASCII letters: the two strings agree
   *  once both are lower-cased, so in particular equal strings do. */
  function EqualsIgnoreCase(a: string, b: string): (r: bool)
    ensures a == b ==> r
    ensures r <==> Lowered(a) == Lowered(b)
  {
    var la, lb := Lowered(a), Lowered(b);
    assert |la| == |lb| ==> (la == lb <==> forall i :: 0 <= i < |la| ==> la[i] == lb[i]);
    |a| == |b| && forall i :: 0 <= i < |a| ==> LowerAscii(a[i]) == LowerAscii(b[i])
  }

  /** The base name and the suffix split a name with a '.' at its last '.'. */
  lemma SplitAtLastDot(name: string)
    requires '.' in name
    ensures BaseName(name).value + Suffix(name).value == name
    ensures |BaseName(name).value| + |Suffix(name).value| == |name|
  {
  }

  /** The output-name check accepts exactly the names that end in ".mp4",
   *  whatever the case of its letters. */
  lemma {:induction false} OutputSuffixCheck(name: string)
    requires '.' in name
    ensures EqualsIgnoreCase(Suffix(name).value, VIDEO_FILE_SUFFIX) <==>
            |name| >= 4 && EqualsIgnoreCase(name[|name| - 4..], VIDEO_FILE_SUFFIX)
  {
    var s := Suffix(name).value;
    var n := |name|;
    if |name| >= 4 && EqualsIgnoreCase(name[n - 4..], VIDEO_FILE_SUFFIX) {
      var t := name[n - 4..];
      assert LowerAscii(t[0]) == '.';
      assert t[0] == '.';
      forall k | 1 <= k < 4 ensures t[k] != '.' {
        assert LowerAscii(t[k]) == VIDEO_FILE_SUFFIX[k];
      }
      assert s == t;
    }
  }

  /** The base name never contains the separator when the input name does not. */
  lemma BaseNameOfPlainName(name: string)
    requires '.' in name && SEPARATOR !in name
    ensures SEPARATOR !in BaseName(name).value
  {
    var b := BaseName(name).value;
    forall k | 0 <= k < |b| ensures b[k] != SEPARATOR {
      assert b[k] == name[k];
    }
  }

  /** The file name of a path directly inside the work folder is the name the
   *  path was built from. */
  lemma FileNameInWorkFolder(name: string)
    requires SEPARATOR !in name
    ensures FileName(InWorkFolder(name)) == name
  {
    var p := InWorkFolder(name);
    var r := FileName(p);
    assert p[|WORK_PREFIX| - 1] == SEPARATOR;
    forall k | |WORK_PREFIX| <= k < |p| ensures p[k] != SEPARATOR {
      assert p[k] == name[k - |WORK_PREFIX|];
    }
    assert r == p[|WORK_PREFIX|..];
  }

  /** Both artifact paths of an input lie in the work folder, are distinct from
   *  each other and from the files the program treats as scratch in the
   *  current folder. */
  lemma ArtifactPaths(base: string, other: string)
    ensures WORK_PREFIX <= StabilizedPath(base) && WORK_PREFIX <= TransformsPath(base)
    ensures StabilizedPath(base) != TransformsPath(other)
    ensures TransformsPath(base) != TEMP_STABILIZED
    ensures StabilizedPath(base) == StabilizedPath(other) <==> base == other
    ensures TransformsPath(base) == TransformsPath(other) <==> base == other
  {
    var s, t := StabilizedPath(base), TransformsPath(other);
    assert s[|s| - 1] == '4' && t[|t| - 1] == 'f';
    var ts := TransformsPath(base);
    assert ts[|ts| - 1] == 'f' && TEMP_STABILIZED[|TEMP_STABILIZED| - 1] == '4';
    if StabilizedPath(base) == StabilizedPath(other) {
      InWorkFolderInjective(base, other, VIDEO_FILE_SUFFIX);
    }
    if TransformsPath(base) == TransformsPath(other) {
      InWorkFolderInjective(base, other, TRANSFORMS_FILE_SUFFIX);
    }
  }

  /** Two names in the work folder with the same suffix are the same only
   *  when their stems are. */
  lemma InWorkFolderInjective(a: string, b: string, suffix: string)
    requires InWorkFolder(a + suffix) == InWorkFolder(b + suffix)
    ensures a == b
  {
    var p := InWorkFolder(a + suffix);
    assert a == p[|WORK_PREFIX|..|p| - |suffix|];
  }

  /** The file names of an input's artifacts are its base name with the
   *  video or the transforms suffix. */
  lemma ArtifactFileNames(base: string)
    requires SEPARATOR !in base
    ensures FileName(StabilizedPath(base)) == base + VIDEO_FILE_SUFFIX
    ensures FileName(TransformsPath(base)) == base + TRANSFORMS_FILE_SUFFIX
  {
    assert SEPARATOR !in base + VIDEO_FILE_SUFFIX && SEPARATOR !in base + TRANSFORMS_FILE_SUFFIX;
    FileNameInWorkFolder(base + VIDEO_FILE_SUFFIX);
    FileNameInWorkFolder(base + TRANSFORMS_FILE_SUFFIX);
  }

  /** The one base name whose stabilized video is kept at the path the
   *  transform step writes its scratch output to. */
  lemma TempStabilizedCollision(base: string)
    ensures StabilizedPath(base) == TEMP_STABILIZED <==> base == "temp_stabilized"
  {
    if StabilizedPath(base) == TEMP_STABILIZED {
      var s := StabilizedPath(base);
      assert base == s[|WORK_PREFIX|..|s| - 4];
    }
  }

  /** A name without a separator lies outside the work folder. */
  lemma PlainNameOutsideWorkFolder(name: string)
    requires SEPARATOR !in name
    ensures !(WORK_PREFIX <= name)
  {
    assert |WORK_PREFIX| == 8 && WORK_PREFIX[7] == SEPARATOR;
    assert |name| > 7 ==> name[7] != SEPARATOR;
  }

  /** The scratch files of the current folder lie outside the work folder. */
  lemma ScratchOutsideWorkFolder()
    ensures !(WORK_PREFIX <= TEMP_TRANSFORMS_FILE) && SEPARATOR !in TEMP_TRANSFORMS_FILE
    ensures !(WORK_PREFIX <= LISTING_FILENAME) && SEPARATOR !in LISTING_FILENAME
    ensures WORK_PREFIX <= TEMP_STABILIZED
  {
    assert TEMP_TRANSFORMS_FILE[0] != WORK_PREFIX[0];
    assert LISTING_FILENAME[0] != WORK_PREFIX[0];
  }
}
