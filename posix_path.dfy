/**
 * The two POSIX path helpers the evaluation scripts rely on, `os.path.basename`
 * and `os.path.dirname`, and `os.path.join` with two arguments, over strings.
 * The sequence identifier of a sample is `basename(dirname(imgname))`.
 */
module PosixPath {

  /** Index just past the last occurrence of `c`, or 0 when there is none (`p.rfind(c) + 1`). */
  function AfterLast(p: string, c: char): (i: nat)
    ensures i <= |p|
    ensures i > 0 ==> p[i - 1] == c
    ensures forall j :: i <= j < |p| ==> p[j] != c
  {
    if |p| == 0 then 0
    else if p[|p| - 1] == c then |p|
    else AfterLast(p[..|p| - 1], c)
  }

  function TailStart(p: string): nat {
    AfterLast(p, '/')
  }

  /** `os.path.basename`: everything after the last separator. */
  function Basename(p: string): (b: string)
    ensures '/' !in b
  {
    var i := TailStart(p);
    assert forall j :: 0 <= j < |p[i..]| ==> p[i..][j] == p[i + j];
    p[i..]
  }

  /** The basename is a suffix of the path, preceded by a separator unless it is the whole path. */
  lemma BasenameIsTail(p: string)
    ensures var b := Basename(p);
      && |b| <= |p| && b == p[|p| - |b|..]
      && (|b| < |p| ==> p[|p| - |b| - 1] == '/')
  {
  }

  predicate AllSeparators(s: string) {
    forall j :: 0 <= j < |s| ==> s[j] == '/'
  }

  /** Drops trailing separators (`str.rstrip('/')`). */
  function StripTrailing(s: string): (r: string)
    ensures |r| <= |s| && r == s[..|r|]
    ensures r == [] || r[|r| - 1] != '/'
    ensures forall j :: |r| <= j < |s| ==> s[j] == '/'
  {
    if |s| == 0 || s[|s| - 1] != '/' then s else StripTrailing(s[..|s| - 1])
  }

  /**
   * `os.path.dirname`: the head up to the last separator, with trailing
   * separators stripped unless the head consists of separators only.
   */
  function Dirname(p: string): string {
    var head := p[..TailStart(p)];
    if head != [] && !AllSeparators(head) then StripTrailing(head) else head
  }

  /** `os.path.join(a, b)`. */
  function Join(a: string, b: string): string {
    if |b| > 0 && b[0] == '/' then b
    else if a == [] || a[|a| - 1] == '/' then a + b
    else a + "/" + b
  }

  /** The sequence identifier of an image path: the name of its parent directory. */
  function SeqName(p: string): (s: string)
    ensures '/' !in s
  {
    Basename(Dirname(p))
  }

  lemma BasenameOfSuffix(pre: string, b: string)
    requires pre == [] || pre[|pre| - 1] == '/'
    requires '/' !in b
    ensures Basename(pre + b) == b
  {
    var p := pre + b;
    AfterLastOfSuffix(pre, b, '/');
    assert p[|pre|..] == b;
  }

  /** The last `c` of `pre + b` is the last character of `pre` when `b` holds none. */
  lemma {:induction false} AfterLastOfSuffix(pre: string, b: string, c: char)
    requires pre == [] || pre[|pre| - 1] == c
    requires c !in b
    ensures AfterLast(pre + b, c) == |pre|
  {
    if b != [] {
      assert b[|b| - 1] in b;
      assert (pre + b)[..|pre + b| - 1] == pre + b[..|b| - 1];
      AfterLastOfSuffix(pre, b[..|b| - 1], c);
    }
  }

  /**
   * A path of the shape `<prefix><name>/<file>`, where the prefix is empty or
   * ends in a separator and neither `name` nor `file` contains one, has sequence
   * identifier `name`.
   */
  lemma SeqNameOfComposedPath(prefix: string, name: string, file: string)
    requires prefix == [] || prefix[|prefix| - 1] == '/'
    requires name != [] && '/' !in name && '/' !in file
    ensures SeqName(prefix + name + "/" + file) == name
  {
    var p := prefix + name + "/" + file;
    var d := prefix + name + "/";
    assert p == d + file;
    AfterLastOfSuffix(d, file, '/');
    assert p[..TailStart(p)] == d;
    assert name[|name| - 1] in name;
    assert d[|d| - 2] == name[|name| - 1];
    assert !AllSeparators(d);
    assert StripTrailing(d[..|d| - 1]) == d[..|d| - 1];
    assert d[..|d| - 1] == prefix + name;
    assert Dirname(p) == prefix + name;
    BasenameOfSuffix(prefix, name);
  }

  /** Joining a directory with a separator-free file name gives a path whose basename is the file name. */
  lemma BasenameOfJoin(dir: string, file: string)
    requires '/' !in file
    ensures Basename(Join(dir, file)) == file
  {
    if dir == [] || dir[|dir| - 1] == '/' {
      BasenameOfSuffix(dir, file);
    } else {
      assert Join(dir, file) == (dir + "/") + file;
      BasenameOfSuffix(dir + "/", file);
    }
  }
}
