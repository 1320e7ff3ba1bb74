/** Relative byte-string paths as the native file helper uses them: the order of
    `strcmp`, the prefix relation `within`, and the component structure that ties
    the two together. */
module Paths {
  import opened Basics

  type Path = Bytes

  const SLASH: byte := 47
  const DOT: byte := 46
  const ROOT: Path := [DOT]
  const PATH_MAX: nat := 4096

  // ---------- strcmp order ----------

  /** `strcmp(a, b) < 0`: lexicographic on unsigned bytes. */
  predicate Less(a: Path, b: Path) { LessFrom(a, b, 0) }

  predicate LessFrom(a: Path, b: Path, k: nat)
    requires k <= |a| && k <= |b|
    decreases |a| - k
  {
    k < |b| && (k == |a| || a[k] < b[k] || (a[k] == b[k] && LessFrom(a, b, k + 1)))
  }

  lemma {:induction false} LessFromIrreflexive(a: Path, k: nat)
    requires k <= |a|
    ensures !LessFrom(a, a, k)
    decreases |a| - k
  {
    if k < |a| { LessFromIrreflexive(a, k + 1); }
  }

  lemma LessIrreflexive(a: Path)
    ensures !Less(a, a)
  {
    LessFromIrreflexive(a, 0);
  }

  lemma {:induction false} LessFromTransitive(a: Path, b: Path, c: Path, k: nat)
    requires k <= |a| && k <= |b| && k <= |c| && LessFrom(a, b, k) && LessFrom(b, c, k)
    ensures LessFrom(a, c, k)
    decreases |a| - k
  {
    if k < |a| && a[k] == b[k] == c[k] { LessFromTransitive(a, b, c, k + 1); }
  }

  lemma LessTransitive(a: Path, b: Path, c: Path)
    requires Less(a, b) && Less(b, c)
    ensures Less(a, c)
  {
    LessFromTransitive(a, b, c, 0);
  }

  lemma {:induction false} LessFromTotal(a: Path, b: Path, k: nat)
    requires k <= |a| && k <= |b| && forall i :: 0 <= i < k ==> a[i] == b[i]
    ensures LessFrom(a, b, k) || a == b || LessFrom(b, a, k)
    decreases |a| - k
  {
    if k < |a| && k < |b| && a[k] == b[k] { LessFromTotal(a, b, k + 1); }
  }

  lemma LessTotal(a: Path, b: Path)
    ensures Less(a, b) || a == b || Less(b, a)
  {
    LessFromTotal(a, b, 0);
  }

  lemma {:induction false} LessFromPrefix(a: Path, b: Path, k: nat)
    requires k <= |a| < |b| && forall i :: 0 <= i < |a| ==> a[i] == b[i]
    ensures LessFrom(a, b, k)
    decreases |a| - k
  {
    if k < |a| { LessFromPrefix(a, b, k + 1); }
  }

  lemma LessPrefix(a: Path, b: Path)
    requires a < b
    ensures Less(a, b)
  {
    LessFromPrefix(a, b, 0);
  }

  // ---------- components, parent and leaf ----------

  /** Index of the first slash at or after `k`, or the length (`strchr`). */
  function SlashFrom(p: Path, k: nat): (z: nat)
    requires k <= |p|
    ensures k <= z <= |p| && (forall i :: k <= i < z ==> p[i] != SLASH) && (z < |p| ==> p[z] == SLASH)
    decreases |p| - k
  {
    if k == |p| || p[k] == SLASH then k else SlashFrom(p, k + 1)
  }

  /** The slash-separated components of what follows position `k`. */
  function ComponentsFrom(p: Path, k: nat): (cs: seq<Path>)
    requires k <= |p|
    ensures cs != []
    decreases |p| - k
  {
    var z := SlashFrom(p, k);
    if z == |p| then [p[k..z]] else [p[k..z]] + ComponentsFrom(p, z + 1)
  }

  function Components(p: Path): (cs: seq<Path>)
    ensures cs != []
  {
    ComponentsFrom(p, 0)
  }

  predicate NoSlash(c: Path) { forall i :: 0 <= i < |c| ==> c[i] != SLASH }

  predicate GoodName(c: Path) {
    c != [] && c != [DOT] && c != [DOT, DOT]
  }

  /** No empty, `.` or `..` component; in particular not absolute and not empty. */
  ghost predicate Canonical(p: Path) { CanonicalFrom(p, 0) }

  ghost predicate CanonicalFrom(p: Path, k: nat)
    requires k <= |p|
  {
    forall c {:trigger HasComponent(p, k, c)} :: HasComponent(p, k, c) ==> GoodName(c)
  }

  ghost predicate HasComponent(p: Path, k: nat, c: Path)
    requires k <= |p|
  {
    c in ComponentsFrom(p, k)
  }

  /** What `valid_relative` accepts. */
  ghost predicate ValidRelative(p: Path) {
    |p| < PATH_MAX && Canonical(p)
  }

  ghost predicate TreePath(p: Path) {
    p == ROOT || Canonical(p)
  }

  function Depth(p: Path): (n: nat) {
    if p == ROOT then 0 else |Components(p)|
  }

  /** Index of the last slash before `k`, or -1 (`strrchr`). */
  function SlashBefore(p: Path, k: nat): (z: int)
    requires k <= |p|
    ensures -1 <= z < k && (z >= 0 ==> p[z] == SLASH) && forall i :: z < i < k ==> p[i] != SLASH
  {
    if k == 0 then -1 else if p[k - 1] == SLASH then k - 1 else SlashBefore(p, k - 1)
  }

  function LastSlash(p: Path): (k: int)
    ensures -1 <= k < |p| && (k >= 0 ==> p[k] == SLASH) && forall i :: k < i < |p| ==> p[i] != SLASH
  {
    SlashBefore(p, |p|)
  }

  /** The directory and name that `parent_fd` splits a path into. */
  function Parent(p: Path): (d: Path) {
    var k := LastSlash(p);
    if k < 0 then ROOT else p[..k]
  }

  function Leaf(p: Path): (n: Path) {
    p[LastSlash(p) + 1..]
  }

  function Child(d: Path, n: Path): (p: Path) {
    if d == ROOT then n else d + [SLASH] + n
  }

  predicate Joins(p: Path, d: Path, n: Path) {
    p == d + [SLASH] + n
  }

  lemma {:induction false} ComponentsFromJoin(p: Path, d: Path, n: Path, k: nat)
    requires Joins(p, d, n) && NoSlash(n) && k <= |d| <= |p|
    ensures ComponentsFrom(p, k) == ComponentsFrom(d, k) + [n]
    decreases |d| - k
  {
    hide Joins, SlashFrom, NoSlash, ComponentsFrom;
    JoinKeeps(p, d, n, k);
    FirstComponent(p, k);
    FirstComponent(d, k);
    var z := SlashFrom(d, k);
    if z < |d| {
      ComponentsFromJoin(p, d, n, z + 1);
      Regroup(d[k..z], ComponentsFrom(d, z + 1), n);
    }
  }

  lemma Regroup(x: Path, cs: seq<Path>, n: Path)
    ensures [x] + (cs + [n]) == ([x] + cs) + [n]
  {}

  lemma FirstComponent(p: Path, k: nat)
    requires k <= |p|
    ensures var z := SlashFrom(p, k);
            ComponentsFrom(p, k) == if z == |p| then [p[k..z]] else [p[k..z]] + ComponentsFrom(p, z + 1)
  {}

  lemma JoinKeeps(p: Path, d: Path, n: Path, k: nat)
    requires Joins(p, d, n) && NoSlash(n) && k <= |d| <= |p|
    ensures var z := SlashFrom(d, k);
            && SlashFrom(p, k) == z && p[k..z] == d[k..z] && z < |p|
            && ComponentsFrom(p, |d| + 1) == [n]
  {
    assert p[|d|] == SLASH && forall i :: 0 <= i < |d| ==> p[i] == d[i];
    assert p[|d| + 1..] == n;
    LastComponent(p, |d| + 1);
  }

  lemma LastComponent(p: Path, k: nat)
    requires k <= |p| && forall i :: k <= i < |p| ==> p[i] != SLASH
    ensures ComponentsFrom(p, k) == [p[k..]]
  {
    assert p[k..|p|] == p[k..];
  }

  lemma ComponentsOfJoin(d: Path, n: Path)
    requires NoSlash(n)
    ensures Components(d + [SLASH] + n) == Components(d) + [n]
  {
    ComponentsFromJoin(d + [SLASH] + n, d, n, 0);
  }

  lemma OneComponent(n: Path)
    requires NoSlash(n)
    ensures Components(n) == [n]
  {
    LastComponent(n, 0);
    assert n[0..] == n;
  }

  /** Canonical paths, one component from the front at a time. */
  lemma CanonicalSplit(p: Path, k: nat)
    requires k <= |p|
    ensures var z := SlashFrom(p, k);
            CanonicalFrom(p, k) <==> GoodName(p[k..z]) && (z == |p| || CanonicalFrom(p, z + 1))
  {
    var z := SlashFrom(p, k);
    assert HasComponent(p, k, p[k..z]);
    if z < |p| {
      var next := z + 1;
      assert forall c :: HasComponent(p, next, c) ==> HasComponent(p, k, c);
      assert forall c :: HasComponent(p, k, c) ==> c == p[k..z] || HasComponent(p, next, c);
    } else {
      assert forall c :: HasComponent(p, k, c) ==> c == p[k..z];
    }
  }

  /** What the helper takes as a relative path, component by component. */
  lemma ValidRelativeMeans(p: Path)
    ensures ValidRelative(p) <==>
              && 0 < |p| < 4096
              && forall i :: 0 <= i < |Components(p)| ==>
                   var c := Components(p)[i]; c != [] && c != [46] && c != [46, 46]
  {
    var cs := Components(p);
    assert forall i :: 0 <= i < |cs| ==> HasComponent(p, 0, cs[i]);
    if Canonical(p) { CanonicalNonempty(p); }
    if |p| == 0 { assert cs == [[]]; }
  }

  lemma CanonicalNonempty(p: Path)
    requires Canonical(p)
    ensures |p| > 0 && p[0] != SLASH && p != ROOT
  {
    RootNotCanonical();
    CanonicalSplit(p, 0);
  }

  lemma RootNotCanonical()
    ensures !Canonical(ROOT)
  {
    CanonicalSplit(ROOT, 0);
    assert ROOT[0..1] == ROOT;
  }

  lemma CanonicalJoin(d: Path, n: Path)
    requires NoSlash(n)
    ensures Canonical(d + [SLASH] + n) <==> Canonical(d) && GoodName(n)
  {
    var p := d + [SLASH] + n;
    ComponentsOfJoin(d, n);
    assert HasComponent(p, 0, n);
    assert forall c :: HasComponent(d, 0, c) ==> HasComponent(p, 0, c);
    assert forall c :: HasComponent(p, 0, c) ==> HasComponent(d, 0, c) || c == n;
  }

  lemma CanonicalName(n: Path)
    requires NoSlash(n)
    ensures Canonical(n) <==> GoodName(n)
  {
    OneComponent(n);
    assert HasComponent(n, 0, n);
    assert forall c :: HasComponent(n, 0, c) ==> c == n;
  }

  /** Splitting a canonical path loses nothing and removes one component. */
  lemma ParentFacts(p: Path)
    requires Canonical(p)
    ensures p != ROOT && TreePath(Parent(p)) && GoodName(Leaf(p)) && NoSlash(Leaf(p))
    ensures Child(Parent(p), Leaf(p)) == p
    ensures Depth(p) == Depth(Parent(p)) + 1
    ensures Parent(p) == ROOT || Parent(p) < p
  {
    RootNotCanonical();
    var k := LastSlash(p);
    if k < 0 {
      assert p[0..] == p;
      CanonicalName(p);
      OneComponent(p);
    } else {
      var d, n := p[..k], p[k + 1..];
      assert p == d + [SLASH] + n;
      CanonicalJoin(d, n);
      ComponentsOfJoin(d, n);
    }
  }

  lemma JoinSplits(d: Path, n: Path)
    requires NoSlash(n)
    ensures var p := d + [SLASH] + n; LastSlash(p) == |d| && p[..|d|] == d && p[|d| + 1..] == n
  {
    var p := d + [SLASH] + n;
    assert p[|d|] == SLASH && forall i :: |d| < i < |p| ==> p[i] == n[i - |d| - 1];
  }

  lemma ChildFacts(d: Path, n: Path)
    requires TreePath(d) && GoodName(n) && NoSlash(n)
    ensures Canonical(Child(d, n)) && Parent(Child(d, n)) == d && Leaf(Child(d, n)) == n
    ensures Depth(Child(d, n)) == Depth(d) + 1 && Child(d, n) != d && Child(d, n) != ROOT
  {
    RootNotCanonical();
    var p := Child(d, n);
    if d == ROOT {
      CanonicalName(n);
      OneComponent(n);
      assert n[0..] == n;
    } else {
      CanonicalJoin(d, n);
      ComponentsOfJoin(d, n);
      JoinSplits(d, n);
    }
  }

  // ---------- within ----------

  /** `within(parent, path)`: equal, or a prefix that ends at a slash of the path. */
  predicate Within(a: Path, p: Path) {
    a == ROOT || (a <= p && (|a| == |p| || p[|a|] == SLASH))
  }

  lemma WithinTransitive(a: Path, b: Path, c: Path)
    requires TreePath(a) && TreePath(b) && Within(a, b) && Within(b, c)
    ensures Within(a, c)
  {
    if b == ROOT { WithinRoot(a); }
  }

  lemma WithinAntisymmetric(a: Path, b: Path)
    requires TreePath(a) && TreePath(b) && Within(a, b) && Within(b, a)
    ensures a == b
  {
    if a != b {
      if a == ROOT { WithinRoot(b); }
      if b == ROOT { WithinRoot(a); }
    }
  }

  lemma WithinRoot(a: Path)
    requires TreePath(a) && Within(a, ROOT)
    ensures a == ROOT
  {
    if a != ROOT { CanonicalNonempty(a); }
  }

  /** `within` is contained in the strict byte order, except below the root `.`:
      names that start with a byte smaller than `.` sort before it. */
  lemma WithinLess(a: Path, b: Path)
    requires Canonical(a) && Within(a, b) && a != b
    ensures Less(a, b)
  {
    RootNotCanonical();
    LessPrefix(a, b);
  }

  lemma RootOrder(b: Path)
    requires Canonical(b)
    ensures Within(ROOT, b) && |b| > 0 && (Less(ROOT, b) <==> b[0] >= DOT)
  {
    CanonicalNonempty(b);
    if b[0] == DOT {
      assert ROOT < b;
      LessPrefix(ROOT, b);
    }
  }

  /** For one: the name `-` lies below the root and sorts before it. */
  lemma DashBeforeRoot()
    ensures var dash := [45]; Canonical(dash) && Within(ROOT, dash) && Less(dash, ROOT)
  {
    var dash := [45];
    CanonicalName(dash);
    RootOrder(dash);
    LessTotal(dash, ROOT);
  }

  lemma WithinComparable(a: Path, b: Path, c: Path)
    requires Within(a, c) && Within(b, c)
    ensures Within(a, b) || Within(b, a)
  {
    if a != ROOT && b != ROOT {
      if |a| <= |b| { assert a == c[..|a|] == b[..|a|]; }
      else { assert b == c[..|b|] == a[..|b|]; }
    }
  }

  /** `within` is the reflexive-transitive closure of "is the parent of". */
  lemma WithinStep(a: Path, b: Path)
    requires Canonical(a) && Canonical(b) && a != b
    ensures Within(a, b) <==> Parent(b) != ROOT && Within(a, Parent(b))
  {
    if Within(a, b) { WithinUp(a, b); }
    ParentFacts(b);
    if Parent(b) != ROOT && Within(a, Parent(b)) { WithinDown(a, b); }
  }

  lemma WithinUp(a: Path, b: Path)
    requires Canonical(a) && Canonical(b) && a != b && Within(a, b)
    ensures Parent(b) != ROOT && Within(a, Parent(b))
  {
    RootNotCanonical();
    ParentFacts(b);
    CanonicalNonempty(a);
    hide Canonical, Depth, GoodName, NoSlash, Child;
    var k := LastSlash(b);
    assert |a| <= k && Parent(b) == b[..k];
    assert a == b[..|a|] == b[..k][..|a|];
    assert |a| < k ==> b[..k][|a|] == b[|a|];
  }

  lemma WithinDown(a: Path, b: Path)
    requires Canonical(a) && Canonical(b) && Parent(b) != ROOT && Within(a, Parent(b))
    ensures Within(a, b)
  {
    RootNotCanonical();
    hide Canonical;
    var k := LastSlash(b);
    assert Parent(b) == b[..k] && b[k] == SLASH;
    assert a == b[..k][..|a|] == b[..|a|];
    assert |a| < k ==> b[..k][|a|] == b[|a|];
  }

  /** A prefix that ends at a slash keeps whole components. */
  lemma {:induction false} PrefixCanonical(p: Path, k: nat)
    requires Canonical(p) && 0 < k < |p| && p[k] == SLASH
    ensures Canonical(p[..k])
    decreases |p|
  {
    var j := LastSlash(p);
    var d, n := p[..j], p[j + 1..];
    assert p == d + [SLASH] + n;
    CanonicalJoin(d, n);
    if k < j {
      assert d[..k] == p[..k];
      PrefixCanonical(d, k);
    }
  }

  lemma WithinDepth(a: Path, b: Path)
    requires TreePath(a) && TreePath(b) && Within(a, b) && a != b
    ensures Depth(a) < Depth(b)
    decreases Depth(b)
  {
    if b == ROOT { WithinRoot(a); }
    ParentFacts(b);
    if a != ROOT {
      WithinStep(a, b);
      if Parent(b) != a { WithinDepth(a, Parent(b)); }
    }
  }

  /** The path and its ancestors except the root: what `copy_directory` walks. */
  ghost function Chain(p: Path): (s: set<Path>)
    requires TreePath(p)
    decreases Depth(p)
  {
    if p == ROOT then {} else ParentFacts(p); {p} + Chain(Parent(p))
  }

  lemma {:induction false} ChainIsAncestors(p: Path, a: Path)
    requires TreePath(p)
    ensures a in Chain(p) <==> (Canonical(a) && p != ROOT && Within(a, p))
    decreases Depth(p)
  {
    RootNotCanonical();
    if p != ROOT {
      ParentFacts(p);
      ChainIsAncestors(Parent(p), a);
      if a != p && Canonical(a) { WithinStep(a, p); }
    }
  }

  /** The child of `d` on the way down to `p`. */
  ghost function Toward(d: Path, p: Path): (c: Path)
    requires TreePath(d) && TreePath(p) && Within(d, p) && d != p
    ensures Canonical(c) && Parent(c) == d && Within(c, p)
    decreases Depth(p)
  {
    assert p != ROOT by { if p == ROOT { WithinRoot(d); } }
    ParentFacts(p);
    if Parent(p) == d then p else
    assert Within(d, Parent(p)) by { if d != ROOT { WithinStep(d, p); } }
    var c := Toward(d, Parent(p));
    RootNotCanonical();
    WithinStep(c, p);
    c
  }
}
