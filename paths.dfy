/** POSIX path helpers: `os.path.join`, `dirname`, `basename`, `splitext` and `Path.parent`. */
module Paths {
  import opened Strings

  /** The index just after the last '/', or 0 when `p` has none. */
  function NameStart(p: string): (i: nat)
    ensures i <= |p|
    ensures i > 0 ==> p[i - 1] == '/'
    ensures forall j :: i <= j < |p| ==> p[j] != '/'
    decreases |p|
  {
    if p == [] then 0
    else if p[|p| - 1] == '/' then |p|
    else NameStart(p[..|p| - 1])
  }

  /** The three properties of NameStart determine it. */
  lemma NameStartUnique(p: string, i: nat)
    requires i <= |p|
    requires i > 0 ==> p[i - 1] == '/'
    requires forall j :: i <= j < |p| ==> p[j] != '/'
    ensures NameStart(p) == i
  {
    var k := NameStart(p);
  }

  function Basename(p: string): string {
    p[NameStart(p)..]
  }

  predicate AllSlashes(s: string) {
    forall j :: 0 <= j < |s| ==> s[j] == '/'
  }

  function RStripSlashes(s: string): (r: string)
    ensures |r| <= |s| && r == s[..|r|]
    decreases |s|
  {
    if s != [] && s[|s| - 1] == '/' then RStripSlashes(s[..|s| - 1]) else s
  }

  /** `os.path.dirname`: everything before the last '/', trailing slashes removed unless it is all slashes. */
  function Dirname(p: string): string {
    var head := p[..NameStart(p)];
    if head != [] && !AllSlashes(head) then RStripSlashes(head) else head
  }

  /** `os.path.join(a, b)` for two components. */
  function Join(a: string, b: string): string {
    if StartsWith(b, "/") then b
    else if a == [] || EndsWith(a, "/") then a + b
    else a + "/" + b
  }

  predicate NoSlash(s: string) {
    forall j :: 0 <= j < |s| ==> s[j] != '/'
  }

  /** Joining a plain name onto a directory is undone by dirname and basename. */
  lemma JoinSplit(a: string, b: string)
    requires a != [] && a[|a| - 1] != '/'
    requires NoSlash(b)
    ensures Join(a, b) == a + "/" + b
    ensures Dirname(Join(a, b)) == a
    ensures Basename(Join(a, b)) == b
  {
    var p := a + "/" + b;
    assert !StartsWith(b, "/") by {
      if |b| >= 1 { assert b[0] != '/'; assert b[..1] != "/"; }
    }
    assert !EndsWith(a, "/") by {
      assert a[|a| - 1..] == [a[|a| - 1]];
    }
    assert Join(a, b) == p;
    assert p[|a|] == '/';
    forall j | |a| + 1 <= j < |p| ensures p[j] != '/' {
      assert p[j] == b[j - |a| - 1];
    }
    NameStartUnique(p, |a| + 1);
    assert p[|a| + 1..] == b;
    var head := p[..|a| + 1];
    assert head == a + "/";
    assert head[|a| - 1] == a[|a| - 1];
    assert !AllSlashes(head);
    assert RStripSlashes(head) == RStripSlashes(a) == a by {
      assert head[..|head| - 1] == a;
    }
  }

  /** Index of the last occurrence of `c` in `p`, or -1 (Python's `rfind`). */
  function RFind(p: string, c: char): (i: int)
    ensures -1 <= i < |p|
    ensures i >= 0 ==> p[i] == c
    ensures forall j :: i < j < |p| ==> p[j] != c
    decreases |p|
  {
    if p == [] then -1
    else if p[|p| - 1] == c then |p| - 1
    else RFind(p[..|p| - 1], c)
  }

  /** Whether `p[lo..hi]` holds a character other than '.'. */
  predicate HasNonDot(p: string, lo: int, hi: int)
    requires 0 <= lo && hi <= |p|
  {
    exists j :: lo <= j < hi && p[j] != '.'
  }

  /** The root `os.path.splitext(p)[0]`: the extension is the last dot-suffix, unless every
      character of the name before that dot is a dot (a hidden file such as `.wav`). */
  function SplitextRoot(p: string): (root: string)
    ensures |root| <= |p| && root == p[..|root|]
  {
    var sep := RFind(p, '/');
    var dot := RFind(p, '.');
    if dot > sep && HasNonDot(p, sep + 1, dot) then p[..dot] else p
  }

  /** `Path(p).parent` as a string: "." for a bare name. */
  function Parent(p: string): string {
    if Dirname(p) == "" then "." else Dirname(p)
  }

  /** `Path(p).parent.name`. */
  function ParentName(p: string): string {
    Basename(Dirname(p))
  }
}
