/**
  The os.path functions (POSIX flavour) the transcriber uses to derive file
  names: basename, dirname, join and splitext, as pure string functions.
 */
module PosixPath {
  import opened PyStr

  /** os.path.basename: what follows the last '/'. It is the longest suffix of
      p without a '/'. */
  function Basename(p: string): (b: string)
    ensures '/' !in b
    ensures |b| <= |p| && b == p[|p| - |b|..]
    ensures |b| < |p| ==> p[|p| - |b| - 1] == '/'
  {
    p[RFind(p, '/') + 1..]
  }

  /** os.path.dirname: what precedes the last '/', without its trailing
      slashes unless it consists of slashes only. DirnameShape states its
      meaning. */
  function Dirname(p: string): (d: string)
    ensures |d| <= |p|
  {
    var head := p[..RFind(p, '/') + 1];
    if head != [] && !Only(head, '/') then RStripChar(head, '/') else head
  }

  /** The directory is a prefix of p, and only slashes lie between it and the
      base name; it ends in '/' only when it consists of slashes; it is empty
      exactly when p has no '/'; and when everything before the base name is
      slashes, it is all of them. */
  lemma DirnameShape(p: string)
    ensures var d := Dirname(p);
      && |d| + |Basename(p)| <= |p| && d == p[..|d|]
      && (forall k :: |d| <= k < |p| - |Basename(p)| ==> p[k] == '/')
      && (d != [] && d[|d| - 1] == '/' ==> Only(d, '/'))
      && (d == [] <==> '/' !in p)
      && (Only(p[..|p| - |Basename(p)|], '/') ==> d == p[..|p| - |Basename(p)|])
  {
    DirnameBounds(p);
    DirnameOfSlashes(p);
  }

  /** The facts of DirnameShape that hold for every head. */
  lemma DirnameBounds(p: string)
    ensures var d := Dirname(p);
      && |d| + |Basename(p)| <= |p| && d == p[..|d|]
      && (forall k :: |d| <= k < |p| - |Basename(p)| ==> p[k] == '/')
      && (d != [] && d[|d| - 1] == '/' ==> Only(d, '/'))
      && (d == [] <==> '/' !in p)
  {
  }

  /** A head made of slashes only is kept whole. */
  lemma DirnameOfSlashes(p: string)
    ensures Only(p[..|p| - |Basename(p)|], '/') ==> Dirname(p) == p[..|p| - |Basename(p)|]
  {
    BasenameLength(p);
  }

  /** The base name is what follows the last '/'. */
  lemma BasenameLength(p: string)
    ensures |Basename(p)| == |p| - (RFind(p, '/') + 1)
  {
  }

  /** os.path.join(a, b): b itself when it is absolute, otherwise a and b with
      one '/' between them unless a is empty or already ends with '/'. */
  function Join(a: string, b: string): (r: string)
    ensures |b| <= |r| && r[|r| - |b|..] == b
  {
    if StartsWith(b, "/") then b
    else if a == [] || a[|a| - 1] == '/' then a + b
    else a + "/" + b
  }

  /** Joining a relative b extends a with b, putting one '/' between them
      exactly when a is nonempty and does not already end with '/'. */
  lemma JoinExtends(a: string, b: string)
    requires !StartsWith(b, "/")
    ensures StartsWith(Join(a, b), a) && |Join(a, b)| <= |a| + 1 + |b|
    ensures Join(a, b) == a + b || Join(a, b) == a + "/" + b
    ensures Join(a, b) == a + b <==> a == [] || a[|a| - 1] == '/'
  {
    assert Join(a, b)[..|a|] == a;
  }

  /** os.path.splitext: (root, ext) with root + ext == p, where ext runs from
      the last '.' of the final path component, unless only dots precede that
      '.' in the component (a leading dot does not start an extension).
      SplitExtShape, SplitExtStem and SplitExtNone state the rest of its meaning. */
  function SplitExt(p: string): (r: (string, string))
    ensures r.0 + r.1 == p
  {
    var sep := RFind(p, '/');
    var dot := RFind(p, '.');
    if sep < dot && !Only(p[..dot][sep + 1..], '.') then (p[..dot], p[dot..]) else (p, [])
  }

  /** A split-off extension is a '.' followed by neither '.' nor '/'. */
  lemma SplitExtShape(p: string)
    ensures var ext := SplitExt(p).1;
      ext != [] ==> ext[0] == '.' && '.' !in ext[1..] && '/' !in ext
  {
    var sep := RFind(p, '/');
    var dot := RFind(p, '.');
    if sep < dot && !Only(p[..dot][sep + 1..], '.') {
      ExtensionAt(p, sep, dot);
    }
  }

  /** The part of SplitExtShape that keeps directories apart. */
  lemma SplitExtNoSlash(p: string)
    ensures '/' !in SplitExt(p).1
  {
    SplitExtShape(p);
  }

  /** An extension is split off only when the root's final component holds
      something besides dots. */
  lemma SplitExtStem(p: string)
    ensures SplitExt(p).1 != [] ==> !Only(Basename(SplitExt(p).0), '.')
  {
    var sep := RFind(p, '/');
    var dot := RFind(p, '.');
    if sep < dot && !Only(p[..dot][sep + 1..], '.') {
      SplitAtDot(p, sep, dot);
    }
  }

  /** No extension is split off only when every '.' of the base name has
      nothing but dots before it. */
  lemma SplitExtNone(p: string)
    ensures SplitExt(p).1 == [] ==>
      forall j, k :: 0 <= j < k < |Basename(p)| && Basename(p)[k] == '.' ==> Basename(p)[j] == '.'
  {
    var sep := RFind(p, '/');
    var dot := RFind(p, '.');
    if !(sep < dot && !Only(p[..dot][sep + 1..], '.')) {
      NoSplit(p, sep, dot);
      BasenameDots(p);
    }
  }

  /** What SplitExt splits off at the last '.' after the last '/': a '.' and
      then neither '.' nor '/'. */
  lemma ExtensionAt(p: string, sep: int, dot: int)
    requires sep == RFind(p, '/') && dot == RFind(p, '.') && sep < dot
    ensures p[..dot] + p[dot..] == p
    ensures p[dot..] != [] && p[dot..][0] == '.' && '.' !in p[dot..][1..] && '/' !in p[dot..]
  {
    forall k | 0 <= k < |p[dot..]| ensures p[dot..][k] != '/' {
      assert p[dot..][k] == p[dot + k];
    }
    forall k | 1 <= k < |p[dot..]| ensures p[dot..][k] != '.' {
      assert p[dot..][k] == p[dot + k];
    }
  }

  /** The split branch of SplitExt: the root keeps the final '/' of p. */
  lemma SplitAtDot(p: string, sep: int, dot: int)
    requires sep == RFind(p, '/') && dot == RFind(p, '.')
    requires sep < dot && !Only(p[..dot][sep + 1..], '.')
    ensures Basename(p[..dot]) == p[..dot][sep + 1..]
    ensures p[..dot] + p[dot..] == p
    ensures p[dot..] != [] && p[dot..][0] == '.' && '.' !in p[dot..][1..] && '/' !in p[dot..]
  {
    RFindPrefix(p, '/', dot);
    ExtensionAt(p, sep, dot);
  }

  /** The branch of SplitExt without extension, at one '.' after the last
      '/': only dots lie between that '/' and it. */
  lemma DotsBefore(p: string, sep: int, dot: int, i: int)
    requires sep == RFind(p, '/') && dot == RFind(p, '.')
    requires !(sep < dot && !Only(p[..dot][sep + 1..], '.'))
    requires sep < i < |p| && p[i] == '.'
    ensures forall j :: sep < j < i ==> p[j] == '.'
  {
    assert i <= dot;
    forall j | sep < j < i ensures p[j] == '.' {
      assert p[..dot][sep + 1..][j - sep - 1] == p[j];
    }
  }

  /** The branch of SplitExt without extension: after the last '/', only dots
      precede any '.'. */
  lemma NoSplit(p: string, sep: int, dot: int)
    requires sep == RFind(p, '/') && dot == RFind(p, '.')
    requires !(sep < dot && !Only(p[..dot][sep + 1..], '.'))
    ensures forall i, j :: sep < j < i < |p| && p[i] == '.' ==> p[j] == '.'
  {
    forall i, j | sep < j < i < |p| && p[i] == '.' ensures p[j] == '.' {
      DotsBefore(p, sep, dot, i);
    }
  }

  /** The same fact, read on the base name. */
  lemma BasenameDots(p: string)
    requires forall i, j :: RFind(p, '/') < j < i < |p| && p[i] == '.' ==> p[j] == '.'
    ensures forall j, k :: 0 <= j < k < |Basename(p)| && Basename(p)[k] == '.' ==> Basename(p)[j] == '.'
  {
    forall j, k | 0 <= j < k < |Basename(p)| && Basename(p)[k] == '.' ensures Basename(p)[j] == '.' {
      BasenameAt(p, j);
      BasenameAt(p, k);
    }
  }

  /** Position k of the base name is position k after the last '/'. */
  lemma BasenameAt(p: string, k: int)
    requires 0 <= k < |Basename(p)|
    ensures RFind(p, '/') + 1 + k < |p| && Basename(p)[k] == p[RFind(p, '/') + 1 + k]
  {
    var i := RFind(p, '/');
    assert Basename(p) == p[i + 1..];
  }

  /** Joining a plain name onto a directory yields that name as base name. */
  lemma JoinBasename(a: string, b: string)
    requires b != [] && '/' !in b
    ensures Basename(Join(a, b)) == b
  {
    assert !StartsWith(b, "/") by { assert b[0] in b; }
    if a == [] {
      assert Join(a, b) == b;
      RFindUnique(b, '/', -1);
    } else if a[|a| - 1] == '/' {
      var front := a[..|a| - 1];
      assert Join(a, b) == front + ['/'] + b;
      RFindMarked(front, '/', b);
    } else {
      assert Join(a, b) == a + ['/'] + b;
      RFindMarked(a, '/', b);
    }
  }

  /** Joining a plain name onto a directory that is not the root and has no
      trailing '/' gives back that directory as dirname. */
  lemma JoinDirname(a: string, b: string)
    requires a != [] && a[|a| - 1] != '/'
    requires '/' !in b
    ensures Join(a, b) == a + "/" + b
    ensures Dirname(Join(a, b)) == a
  {
    if b != [] {
      assert !StartsWith(b, "/") by { assert b[0] in b; }
    }
    var r := Join(a, b);
    assert r == a + ['/'] + b;
    RFindMarked(a, '/', b);
    assert r[..|a| + 1] == a + "/";
    assert !Only(a + "/", '/') by { assert (a + "/")[|a| - 1] != '/'; }
    var d := RStripChar(a + "/", '/');
    assert d == a;
  }

  /** Appending a text without '/' extends the base name and keeps the directory. */
  lemma AppendWithoutSlash(s: string, t: string)
    requires '/' !in t
    ensures Basename(s + t) == Basename(s) + t
    ensures Dirname(s + t) == Dirname(s)
  {
    RFindAppend(s, t, '/');
    AppendedBasename(s, t);
    AppendedHead(s, t);
  }

  /** When the last '/' of s + t is the one of s, the base name grows by t. */
  lemma AppendedBasename(s: string, t: string)
    requires RFind(s + t, '/') == RFind(s, '/')
    ensures Basename(s + t) == Basename(s) + t
  {
    DropOfAppend(s, t, RFind(s, '/') + 1);
  }

  /** When the last '/' of s + t is the one of s, the directory stays. */
  lemma AppendedHead(s: string, t: string)
    requires RFind(s + t, '/') == RFind(s, '/')
    ensures Dirname(s + t) == Dirname(s)
  {
    TakeOfAppend(s, t, RFind(s, '/') + 1);
  }

  lemma TakeOfAppend(s: string, t: string, n: nat)
    requires n <= |s|
    ensures (s + t)[..n] == s[..n]
  {
  }

  lemma DropOfAppend(s: string, t: string, n: nat)
    requires n <= |s|
    ensures (s + t)[n..] == s[n..] + t
  {
  }

  /** In root + "." + ext, with neither '.' nor '/' in ext, the last '/' is
      root's and the last '.' is the added one. */
  lemma AddedDot(root: string, ext: string)
    requires '.' !in ext && '/' !in ext
    ensures RFind(root + "." + ext, '/') == RFind(root, '/')
    ensures RFind(root + "." + ext, '.') == |root|
  {
    var tail := "." + ext;
    assert '/' !in tail by { assert tail[0] == '.'; }
    assert root + "." + ext == root + tail;
    RFindAppend(root, tail, '/');
    RFindMarked(root, '.', ext);
    assert root + ['.'] + ext == root + "." + ext;
  }

  /** Adding "." + ext to a root whose final component is not made of dots
      only is undone by SplitExt. */
  lemma SplitExtAddExtension(root: string, ext: string)
    requires '.' !in ext && '/' !in ext
    requires !Only(Basename(root), '.')
    ensures SplitExt(root + "." + ext) == (root, "." + ext)
  {
    AddedDot(root, ext);
    AddedDotSlices(root, ext);
  }

  /** The slices SplitExt takes of root + "." + ext at the added '.'. */
  lemma AddedDotSlices(root: string, ext: string)
    ensures var p := root + "." + ext;
      p[..|root|] == root && p[|root|..] == "." + ext
  {
  }

  /** Swapping one slash-free ending for another keeps the directory. */
  lemma SwapEnding(root: string, e1: string, e2: string)
    requires '/' !in e1 && '/' !in e2
    ensures Dirname(root + e1) == Dirname(root + e2)
    ensures Basename(root + e2) == Basename(root) + e2
  {
    AppendWithoutSlash(root, e1);
    AppendWithoutSlash(root, e2);
  }
}
