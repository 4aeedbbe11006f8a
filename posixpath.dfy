/** The parts of Python's os.path (POSIX flavour) the backend relies on:
    join of two components, basename, dirname and the root half of splitext. */
module PosixPath {

  /** Index of the last '/' in s, or -1 (str.rfind). */
  function LastIndexOf(s: string, c: char): (r: int)
    ensures -1 <= r < |s|
    ensures r >= 0 ==> s[r] == c
    ensures forall k :: r < k < |s| ==> s[k] != c
  {
    if s == [] then -1
    else if s[|s| - 1] == c then |s| - 1
    else LastIndexOf(s[..|s| - 1], c)
  }

  predicate NoSlash(s: string) { forall k :: 0 <= k < |s| ==> s[k] != '/' }

  predicate AllSlashes(s: string) { forall k :: 0 <= k < |s| ==> s[k] == '/' }

  /** s with its trailing '/' characters removed (str.rstrip("/")). */
  function RStripSlashes(s: string): (r: string)
    ensures |r| <= |s| && r == s[..|r|]
    ensures r == [] || r[|r| - 1] != '/'
    ensures AllSlashes(s[|r|..])
  {
    if s != [] && s[|s| - 1] == '/' then RStripSlashes(s[..|s| - 1]) else s
  }

  /** os.path.join(a, b). */
  function Join(a: string, b: string): string
  {
    if |b| > 0 && b[0] == '/' then b
    else if a == [] || a[|a| - 1] == '/' then a + b
    else a + "/" + b
  }

  /** os.path.basename(p): everything after the last '/'. */
  function Basename(p: string): string
  {
    p[LastIndexOf(p, '/') + 1..]
  }

  /** os.path.dirname(p): everything up to the last '/', trailing slashes
      stripped unless the head is slashes only. */
  function Dirname(p: string): string
  {
    var head := p[..LastIndexOf(p, '/') + 1];
    if head != [] && !AllSlashes(head) then RStripSlashes(head) else head
  }

  predicate AllDots(s: string) { forall k :: 0 <= k < |s| ==> s[k] == '.' }

  /** os.path.splitext(p)[0]: the last '.' after the last '/' starts the
      extension, unless only dots precede it in the final component. */
  function SplitextRoot(p: string): string
  {
    var sep := LastIndexOf(p, '/');
    var dot := LastIndexOf(p, '.');
    if dot > sep && !AllDots(p[sep + 1..dot]) then p[..dot] else p
  }

  lemma LastIndexOfAppendNoSlash(a: string, b: string)
    requires NoSlash(b)
    ensures LastIndexOf(a + b, '/') == LastIndexOf(a, '/')
  {
    LastIndexOfMax(a + b, '/', LastIndexOf(a, '/'));
  }

  /** LastIndexOf is the largest index holding c. */
  lemma LastIndexOfMax(s: string, c: char, i: int)
    requires -1 <= i < |s|
    requires i >= 0 ==> s[i] == c
    requires forall k :: i < k < |s| ==> s[k] != c
    ensures LastIndexOf(s, c) == i
  {
  }

  /** Joining a component without '/' onto any directory makes that
      component the basename. */
  lemma BasenameJoin(d: string, n: string)
    requires NoSlash(n)
    ensures Basename(Join(d, n)) == n
  {
    var j := Join(d, n);
    if d == [] || d[|d| - 1] == '/' {
      assert j == d + n;
      LastIndexOfMax(j, '/', if d == [] then -1 else |d| - 1);
    } else {
      assert j == d + "/" + n;
      LastIndexOfMax(j, '/', |d|);
    }
  }

  /** dirname(p) never ends in '/' unless it consists of slashes only. */
  lemma DirnameShape(p: string)
    ensures var r := Dirname(p); r == [] || r[|r| - 1] != '/' || AllSlashes(r)
  {
  }

  /** Joining a component without '/' onto dirname(p) and taking the
      dirname again gives dirname(p) back. */
  lemma DirnameJoinDirname(p: string, n: string)
    requires NoSlash(n) && n != []
    ensures Dirname(Join(Dirname(p), n)) == Dirname(p)
  {
    var d := Dirname(p);
    var j := Join(d, n);
    if d == [] {
      assert j == n;
      LastIndexOfMax(j, '/', -1);
    } else if d[|d| - 1] == '/' {
      assert AllSlashes(d) by { DirnameShape(p); }
      assert j == d + n;
      LastIndexOfMax(j, '/', |d| - 1);
      assert j[..|d|] == d;
    } else {
      assert j == d + "/" + n;
      LastIndexOfMax(j, '/', |d|);
      var head := j[..|d| + 1];
      assert head == d + "/";
      assert RStripSlashes(head) == RStripSlashes(d);
      assert !AllSlashes(head) by { assert head[|d| - 1] != '/'; }
    }
  }

  /** The root of a name is empty only when the name is. */
  lemma SplitextRootEmpty(p: string)
    ensures SplitextRoot(p) == [] <==> p == []
  {
    var sep := LastIndexOf(p, '/');
    var dot := LastIndexOf(p, '.');
    if dot > sep && !AllDots(p[sep + 1..dot]) {
      assert |p[sep + 1..dot]| > 0;
    }
  }

  /** The stem root of a path has no '/' when the path has none. */
  lemma SplitextRootNoSlash(p: string)
    requires NoSlash(p)
    ensures NoSlash(SplitextRoot(p))
  {
  }

  /** A path without '/' is its own basename. */
  lemma BasenameNoSlash(p: string)
    requires NoSlash(p)
    ensures Basename(p) == p
  {
    LastIndexOfMax(p, '/', -1);
  }

  /** The basename never contains '/'. */
  lemma BasenameHasNoSlash(p: string)
    ensures NoSlash(Basename(p))
  {
  }

  /** Appending a part without '/' keeps the dirname. */
  lemma DirnameAppendNoSlash(h: string, n: string)
    requires NoSlash(n)
    ensures Dirname(h + n) == Dirname(h)
  {
    LastIndexOfAppendNoSlash(h, n);
    var l := LastIndexOf(h, '/');
    assert (h + n)[..l + 1] == h[..l + 1];
  }

  /** Two names without '/' joined onto the same directory share a dirname. */
  lemma DirnameJoinSame(d: string, n: string, m: string)
    requires NoSlash(n) && NoSlash(m) && n != [] && m != []
    ensures Dirname(Join(d, n)) == Dirname(Join(d, m))
  {
    var h := if d == [] || d[|d| - 1] == '/' then d else d + "/";
    assert Join(d, n) == h + n && Join(d, m) == h + m;
    DirnameAppendNoSlash(h, n);
    DirnameAppendNoSlash(h, m);
  }

  /** Joining onto a directory that neither is empty nor ends in '/'
      inserts one '/'. */
  lemma JoinPlain(d: string, n: string)
    requires d != [] && d[|d| - 1] != '/' && NoSlash(n)
    ensures Join(d, n) == d + "/" + n
  {
  }

  /** Joining the same directory with two different names without '/'
      gives different paths. */
  lemma JoinDistinct(d: string, n: string, m: string)
    requires NoSlash(n) && NoSlash(m) && n != m
    ensures Join(d, n) != Join(d, m)
  {
    BasenameJoin(d, n);
    BasenameJoin(d, m);
  }

  /** Paths with different basenames are different paths. */
  lemma BasenameDistinguishes(p: string, q: string)
    requires Basename(p) != Basename(q)
    ensures p != q
  {
  }
}
