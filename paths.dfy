/** The POSIX `os.path` functions the proxy calls. */
module Paths {
  import opened Text

  predicate HasNonDot(s: string) {
    exists i :: 0 <= i < |s| && s[i] != '.'
  }

  /** Some character of `p[lo..hi]` is not a dot. */
  predicate NonDotBetween(p: string, lo: int, hi: int) {
    exists i :: lo <= i < hi && 0 <= i < |p| && p[i] != '.'
  }

  /** `os.path.splitext(p)`: the extension runs from the last `.` of the last
      path component to the end, unless everything before that `.` in the
      component is dots (a leading dot does not start an extension). */
  function SplitExt(p: string): (r: (string, string))
    ensures r.0 + r.1 == p
    ensures r.1 == [] || (r.1[0] == '.' && forall i :: 0 < i < |r.1| ==> r.1[i] != '.' && r.1[i] != '/')
  {
    var sep := LastIndexOf(p, '/');
    var dot := LastIndexOf(p, '.');
    if dot > sep && NonDotBetween(p, sep + 1, dot) then
      ExtShape(p, sep, dot);
      (p[..dot], p[dot..])
    else (p, "")
  }

  lemma ExtShape(p: string, sep: int, dot: int)
    requires -1 <= sep < dot < |p| && p[dot] == '.'
    requires forall j :: sep < j < |p| ==> p[j] != '/'
    requires forall j :: dot < j < |p| ==> p[j] != '.'
    ensures p[..dot] + p[dot..] == p
    ensures forall i :: 0 < i < |p[dot..]| ==> p[dot..][i] != '.' && p[dot..][i] != '/'
  {
    var ext := p[dot..];
    forall i | 0 < i < |ext| ensures ext[i] != '.' && ext[i] != '/' {
      assert ext[i] == p[dot + i];
    }
  }

  /** `os.path.splitext(p)[0]` */
  function Stem(p: string): string {
    SplitExt(p).0
  }

  /** `os.path.splitext(p)[1]` */
  function Ext(p: string): string {
    SplitExt(p).1
  }

  /** `os.path.basename(p)`: everything after the last `/`. */
  function Basename(p: string): (r: string)
    ensures EndsWith(p, r)
    ensures forall i :: 0 <= i < |r| ==> r[i] != '/'
  {
    p[LastIndexOf(p, '/') + 1..]
  }

  /** A name without a slash is its own basename. */
  lemma BasenameNoSlash(s: string)
    requires forall i :: 0 <= i < |s| ==> s[i] != '/'
    ensures Basename(s) == s
  {
    assert LastIndexOf(s, '/') == -1;
    assert s[0..] == s;
  }

  /** `os.path.isabs(p)` */
  predicate IsAbs(p: string) {
    StartsWith(p, "/")
  }

  /** `os.path.join(a, b)`: an absolute `b` replaces `a`. */
  function Join(a: string, b: string): string {
    if IsAbs(b) then b
    else if a == [] || EndsWith(a, "/") then a + b
    else a + "/" + b
  }

  /** The joined path ends with its last part, and starts with the first
      unless the last is absolute. */
  lemma JoinEnds(a: string, b: string)
    ensures EndsWith(Join(a, b), b)
    ensures !IsAbs(b) ==> StartsWith(Join(a, b), a)
  {
    if IsAbs(b) {
      assert b[|b| - |b|..] == b;
    } else if a == [] || EndsWith(a, "/") {
      AppendEnds(a, b);
    } else {
      AppendEnds(a + "/", b);
      AppendEnds(a, "/" + b);
      assert a + "/" + b == a + ("/" + b);
    }
  }

  /** The last index of `c` in `s + t` when `t` holds no `c`. */
  lemma LastIndexOfAppend(s: string, t: string, c: char)
    requires forall i :: 0 <= i < |t| ==> t[i] != c
    ensures LastIndexOf(s + t, c) == LastIndexOf(s, c)
  {
    var u := s + t;
    assert forall i :: 0 <= i < |s| ==> u[i] == s[i];
    assert forall i :: |s| <= i < |u| ==> u[i] == t[i - |s|];
  }

  /** The last dot of `stem + ext` is the one that starts `ext`. */
  lemma LastDotOfJoin(stem: string, ext: string)
    requires |ext| >= 1 && ext[0] == '.'
    requires forall i :: 1 <= i < |ext| ==> ext[i] != '.'
    ensures LastIndexOf(stem + ext, '.') == |stem|
  {
    var p := stem + ext;
    assert p[|stem|] == '.';
  }

  /** Splitting a stem joined to an extension gives both back: the extension
      is a dot followed by neither dots nor slashes, and the stem's last path
      component is not made of dots alone. */
  lemma {:induction false} SplitExtOfJoin(stem: string, ext: string)
    requires |ext| >= 1 && ext[0] == '.'
    requires forall i :: 1 <= i < |ext| ==> ext[i] != '.' && ext[i] != '/'
    requires HasNonDot(Basename(stem))
    ensures SplitExt(stem + ext) == (stem, ext)
  {
    var p := stem + ext;
    LastIndexOfAppend(stem, ext, '/');
    LastDotOfJoin(stem, ext);
    var sep := LastIndexOf(p, '/');
    var base := Basename(stem);
    var k :| 0 <= k < |base| && base[k] != '.';
    assert base[k] == stem[sep + 1 + k] == p[sep + 1 + k];
    assert NonDotBetween(p, sep + 1, |stem|);
    assert p[..|stem|] == stem && p[|stem|..] == ext;
  }

  /** A dot-file name such as `.bashrc` has no extension: its only dot leads. */
  lemma SplitExtDotFile(p: string)
    requires |p| >= 1 && p[0] == '.'
    requires forall i :: 1 <= i < |p| ==> p[i] != '.' && p[i] != '/'
    ensures SplitExt(p) == (p, "")
  {
    assert LastIndexOf(p, '.') == 0;
    assert LastIndexOf(p, '/') == -1;
    assert p[0..0] == [];
  }

  /** A name with no dot after its last slash has no extension. */
  lemma SplitExtNoDot(p: string)
    requires forall i :: LastIndexOf(p, '/') < i < |p| ==> p[i] != '.'
    ensures SplitExt(p) == (p, "")
  {
  }
}
