/** Comparing a plan with the real tree before anything is changed. */
module Verification {
  import opened Paths
  import opened Plans
  import opened Workspaces

  /** The depth and length bounds of one object. */
  ghost predicate InLimits(p: Path, mode: nat) {
    |p| < PATH_MAX && Depth(p) <= MAX_DEPTH + (if IsDir(mode) then 0 else 1)
  }

  ghost predicate InPlan(plan: seq<Entry>, p: Path, n: Node) {
    exists i :: 0 <= i < |plan| && plan[i] == Snapshot(p, n) && Unshared(n)
  }

  ghost predicate GoodAt(t: Tree, plan: seq<Entry>, p: Path)
    requires p in t
  {
    InPlan(plan, p, t[p]) && InLimits(p, t[p].mode)
  }

  ghost predicate AllGood(t: Tree, plan: seq<Entry>, s: set<Path>) {
    forall p :: p in s ==> p in t && GoodAt(t, plan, p)
  }

  /** A tree the helper can work on: every object owned, ordinary and within bounds. */
  ghost predicate Admissible(t: Tree) {
    |t| <= MAX_ENTRIES + 1 && forall p {:trigger AdmissibleAt(t, p)} :: p in t ==> AdmissibleAt(t, p)
  }

  ghost predicate AdmissibleAt(t: Tree, p: Path)
    requires p in t
  {
    && InLimits(p, t[p].mode) && t[p].owned
    && (IsDir(t[p].mode) || (IsReg(t[p].mode) && t[p].links == 1))
  }

  /** The plan has one entry for every path of the tree, the snapshot of the object there. */
  ghost predicate Agrees(t: Tree, plan: seq<Entry>) {
    t.Keys == PathsOf(plan) && forall i {:trigger AgreesAt(t, plan, i)} :: 0 <= i < |plan| ==> AgreesAt(t, plan, i)
  }

  ghost predicate AgreesAt(t: Tree, plan: seq<Entry>, i: nat)
    requires i < |plan|
  {
    plan[i].path in t && plan[i] == Snapshot(plan[i].path, t[plan[i].path]) && Unshared(t[plan[i].path])
  }

  ghost function Recorded(t: Tree): (s: set<Entry>) {
    set p | p in t :: Snapshot(p, t[p])
  }

  ghost function Listed(plan: seq<Entry>): (s: set<Entry>) {
    set i | 0 <= i < |plan| :: plan[i]
  }

  // ---------- the recursive walk ----------

  ghost predicate Passes(t: Tree, plan: seq<Entry>, s: set<Path>, seen: nat) {
    AllGood(t, plan, s) && seen + |s| <= MAX_ENTRIES + 1
  }

  /** `verify_tree`: visits everything below `path` exactly once, whatever order the
      directory entries come in, and fails exactly when some object is not as planned,
      an object is out of bounds, or the count exceeds the entry limit. */
  method VerifyTree(root: Workspace, plan: seq<Entry>, path: Path, depth: nat, seen0: nat)
    returns (ok: bool, seen: nat, why: Errno)
    requires WellFormed(root.nodes) && Sorted(plan)
    requires path in root.nodes && |path| < PATH_MAX && depth == Depth(path)
    ensures ok <==> Passes(root.nodes, plan, Sub(root.nodes, path), seen0)
    ensures ok ==> seen == seen0 + |Sub(root.nodes, path)|
    ensures why == ESTALE || why == E2BIG || why == ENAMETOOLONG
    decreases MAX_DEPTH + 2 - depth
  {
    ghost var t := root.nodes;
    ghost var sub := Sub(t, path);
    SubsetBound({path}, sub);
    seen, why := seen0, ESTALE;
    if depth > MAX_DEPTH + 1 { return false, seen, E2BIG; }
    seen := seen + 1;
    if seen > MAX_ENTRIES + 1 { return false, seen, E2BIG; }
    var node := root.nodes[path];
    var expected := FindNode(plan, path);
    if expected.None? || !SameNode(node, plan[expected.value], true) {
      if expected.Some? { PlannedOnce(plan, path, expected.value); }
      return false, seen, ESTALE;
    }
    if !IsDir(node.mode) {
      OnlyItself(t, path);
      return true, seen, why;
    }
    if depth > MAX_DEPTH { return false, seen, E2BIG; }
    var names := root.ReadDir(path);
    for i := 0 to |names|
      invariant Covered(t, path, names, i) <= sub
      invariant Passes(t, plan, Covered(t, path, names, i), seen0)
      invariant seen == seen0 + |Covered(t, path, names, i)|
    {
      var child := Child(path, names[i]);
      CoveredStep(t, path, names, i);
      PassesStep(t, plan, Covered(t, path, names, i), Sub(t, child), sub, seen0);
      if |child| >= PATH_MAX { return false, seen, ENAMETOOLONG; }
      var good, total, errno := VerifyTree(root, plan, child, depth + 1, seen);
      if !good { return false, total, errno; }
      seen := total;
    }
    CoveredAll(t, path, names);
    return true, seen, why;
  }

  lemma PassesStep(t: Tree, plan: seq<Entry>, done: set<Path>, more: set<Path>, all: set<Path>, seen: nat)
    requires Passes(t, plan, done, seen) && done !! more && done <= all && more <= all
    ensures |done + more| == |done| + |more|
    ensures Passes(t, plan, more, seen + |done|) <==> Passes(t, plan, done + more, seen)
    ensures Passes(t, plan, all, seen) ==> Passes(t, plan, more, seen + |done|)
  {
    SubsetBound(done + more, all);
  }

  /** `path` and everything below its listed children. */
  ghost function Covered(t: Tree, path: Path, names: seq<Path>, i: nat): (s: set<Path>)
    requires path in t && i <= |names|
  {
    if i == 0 then {path} else Covered(t, path, names, i - 1) + Sub(t, Child(path, names[i - 1]))
  }

  lemma SubsetBound<T>(a: set<T>, b: set<T>)
    requires a <= b
    ensures |a| <= |b|
  {
    assert b == a + (b - a);
  }

  lemma PlannedOnce(plan: seq<Entry>, p: Path, k: nat)
    requires Sorted(plan) && k < |plan| && plan[k].path == p
    ensures forall i :: 0 <= i < |plan| && plan[i].path == p ==> i == k
  {
    LessIrreflexive(p);
  }

  /** Nothing lies below a file. */
  lemma OnlyItself(t: Tree, p: Path)
    requires WellFormed(t) && p in t && !IsDir(t[p].mode)
    ensures Sub(t, p) == {p}
  {
    assert WellFormedAt(t, p);
    forall q | q in t && Within(p, q) ensures q == p {
      if q != p { AncestorsPresent(t, p, q); }
    }
  }

  lemma Siblings(a: Path, b: Path, q: Path)
    requires Canonical(a) && Canonical(b) && Parent(a) == Parent(b) && Within(a, q) && Within(b, q)
    ensures a == b
  {
    ParentFacts(a);
    ParentFacts(b);
    WithinComparable(a, b, q);
    if a != b {
      if Within(a, b) { WithinDepth(a, b); } else { WithinDepth(b, a); }
    }
  }

  ghost predicate EntryNames(t: Tree, path: Path, names: seq<Path>) {
    && (forall i, j :: 0 <= i < j < |names| ==> names[i] != names[j])
    && forall i :: 0 <= i < |names| ==> GoodName(names[i]) && NoSlash(names[i]) && Child(path, names[i]) in t
  }

  /** One more entry adds exactly the objects below it, none of them seen before. */
  lemma CoveredStep(t: Tree, path: Path, names: seq<Path>, i: nat)
    requires WellFormed(t) && path in t && EntryNames(t, path, names) && i < |names|
    requires Covered(t, path, names, i) <= Sub(t, path)
    ensures var child := Child(path, names[i]);
            && Canonical(child) && Depth(child) == Depth(path) + 1 && child in Sub(t, child)
            && Covered(t, path, names, i) !! Sub(t, child)
            && Covered(t, path, names, i + 1) == Covered(t, path, names, i) + Sub(t, child)
            && Sub(t, child) <= Sub(t, path)
  {
    assert WellFormedAt(t, path);
    var child := Child(path, names[i]);
    ChildFacts(path, names[i]);
    forall q | q in Sub(t, child) ensures q in Sub(t, path) && q !in Covered(t, path, names, i) {
      BelowChild(t, path, child, q);
      Fresh(t, path, names, i, i, q);
    }
  }

  lemma BelowChild(t: Tree, path: Path, child: Path, q: Path)
    requires WellFormed(t) && path in t && q in t && Canonical(child) && Parent(child) == path && Within(child, q)
    ensures q != path && Within(path, q) && Canonical(q)
  {
    assert WellFormedAt(t, path);
    assert WellFormedAt(t, q);
    RootNotCanonical();
    ParentFacts(child);
    if q == ROOT { WithinRoot(child); }
    if path != ROOT { WithinStep(path, child); WithinTransitive(path, child, q); }
    if q == path { WithinDepth(child, path); }
  }

  lemma {:induction false} Fresh(t: Tree, path: Path, names: seq<Path>, i: nat, k: nat, q: Path)
    requires WellFormed(t) && path in t && EntryNames(t, path, names) && k <= i < |names|
    requires q in t && q != path && Within(Child(path, names[i]), q)
    ensures q !in Covered(t, path, names, k)
  {
    hide Within, Child, WellFormed, EntryNames;
    if k > 0 {
      Fresh(t, path, names, i, k - 1, q);
      Apart(t, path, names, k - 1, i, q);
    }
  }

  /** Nothing lies below two entries of one directory. */
  lemma Apart(t: Tree, path: Path, names: seq<Path>, j: nat, i: nat, q: Path)
    requires WellFormed(t) && path in t && EntryNames(t, path, names) && j < i < |names|
    ensures !(Within(Child(path, names[j]), q) && Within(Child(path, names[i]), q))
  {
    assert WellFormedAt(t, path);
    ChildFacts(path, names[j]);
    ChildFacts(path, names[i]);
    hide Child, WellFormed;
    if Within(Child(path, names[j]), q) && Within(Child(path, names[i]), q) {
      Siblings(Child(path, names[j]), Child(path, names[i]), q);
    }
  }

  lemma {:induction false} CoveredHas(t: Tree, path: Path, names: seq<Path>, k: nat, i: nat, q: Path)
    requires path in t && i < k <= |names| && q in Sub(t, Child(path, names[i]))
    ensures q in Covered(t, path, names, k)
  {
    hide Within, Child;
    if i == k - 1 {
    } else {
      CoveredHas(t, path, names, k - 1, i, q);
    }
  }

  lemma {:induction false} CoveredSelf(t: Tree, path: Path, names: seq<Path>, k: nat)
    requires path in t && k <= |names|
    ensures path in Covered(t, path, names, k)
  {
    hide Within, Child, Sub;
    if k > 0 { CoveredSelf(t, path, names, k - 1); }
  }

  lemma CoveredAll(t: Tree, path: Path, names: seq<Path>)
    requires WellFormed(t) && path in t && Covered(t, path, names, |names|) <= Sub(t, path)
    requires forall q :: q in t && q != ROOT && Parent(q) == path ==> Leaf(q) in names
    ensures Covered(t, path, names, |names|) == Sub(t, path)
  {
    CoveredSelf(t, path, names, |names|);
    assert WellFormedAt(t, path);
    forall q | q in Sub(t, path) ensures q in Covered(t, path, names, |names|) {
      if q != path {
        assert WellFormedAt(t, q);
        var c := Toward(path, q);
        RootNotCanonical();
        AncestorsPresent(t, c, q);
        ParentFacts(c);
        var i :| 0 <= i < |names| && names[i] == Leaf(c);
        CoveredHas(t, path, names, |names|, i, q);
      }
    }
  }

  // ---------- plan equals tree ----------

  lemma {:induction false} PathsCount(plan: seq<Entry>)
    requires Sorted(plan)
    ensures |PathsOf(plan)| == |plan|
  {
    if plan != [] {
      var n := |plan| - 1;
      var rest := plan[..n];
      PathsCount(rest);
      LessIrreflexive(plan[n].path);
      assert plan[n].path !in PathsOf(rest);
      forall p | p in PathsOf(plan) ensures p in PathsOf(rest) + {plan[n].path} {
        var i :| 0 <= i < |plan| && plan[i].path == p;
        if i < n { assert rest[i].path == p; }
      }
      assert forall p :: p in PathsOf(rest) ==> p in PathsOf(plan);
      assert PathsOf(plan) == PathsOf(rest) + {plan[n].path};
    }
  }

  lemma SubsetEqual<T>(a: set<T>, b: set<T>)
    requires a <= b && |a| == |b|
    ensures a == b
  {
    assert b == a + (b - a);
  }

  lemma WholeTree(t: Tree)
    ensures Sub(t, ROOT) == t.Keys
  {}

  lemma MatchedIsAgreed(t: Tree, plan: seq<Entry>)
    requires PlanOk(plan) && AllGood(t, plan, t.Keys) && |t| == |plan|
    ensures Agrees(t, plan) && Admissible(t)
  {
    PathsCount(plan);
    forall p | p in t ensures p in PathsOf(plan) { assert GoodAt(t, plan, p); }
    assert |t.Keys| == |t|;
    SubsetEqual(t.Keys, PathsOf(plan));
    forall i | 0 <= i < |plan| ensures AgreesAt(t, plan, i) {
      assert plan[i].path in PathsOf(plan);
      assert GoodAt(t, plan, plan[i].path);
      PlannedOnce(plan, plan[i].path, i);
    }
    forall p | p in t ensures AdmissibleAt(t, p) {
      assert GoodAt(t, plan, p);
      var i :| 0 <= i < |plan| && plan[i] == Snapshot(p, t[p]);
      assert RangesOk(plan[i]);
    }
  }

  lemma AgreedIsMatched(t: Tree, plan: seq<Entry>)
    requires PlanOk(plan) && Agrees(t, plan) && Admissible(t)
    ensures AllGood(t, plan, t.Keys) && |t| == |plan|
  {
    PathsCount(plan);
    assert |t.Keys| == |t|;
    forall p | p in t ensures GoodAt(t, plan, p) {
      assert p in PathsOf(plan);
      var i :| 0 <= i < |plan| && plan[i].path == p;
      assert AgreesAt(t, plan, i) && AdmissibleAt(t, p);
    }
  }

  /** A plan agrees with an admissible tree exactly when it lists the tree's snapshot. */
  lemma AgreesIsSnapshot(t: Tree, plan: seq<Entry>)
    requires Admissible(t)
    ensures Agrees(t, plan) <==> Listed(plan) == Recorded(t)
  {
    if Agrees(t, plan) {
      forall e | e in Listed(plan) ensures e in Recorded(t) {
        var i :| 0 <= i < |plan| && plan[i] == e;
        assert AgreesAt(t, plan, i);
      }
      forall e | e in Recorded(t) ensures e in Listed(plan) {
        var p :| p in t && e == Snapshot(p, t[p]);
        assert p in PathsOf(plan);
        var i :| 0 <= i < |plan| && plan[i].path == p;
        assert AgreesAt(t, plan, i);
      }
    }
    if Listed(plan) == Recorded(t) { ListedAgrees(t, plan); }
  }

  lemma ListedAgrees(t: Tree, plan: seq<Entry>)
    requires Admissible(t) && Listed(plan) == Recorded(t)
    ensures Agrees(t, plan)
  {
    forall i | 0 <= i < |plan| ensures AgreesAt(t, plan, i) && plan[i].path in t {
      assert plan[i] in Listed(plan);
      var p :| p in t && plan[i] == Snapshot(p, t[p]);
      assert AdmissibleAt(t, p);
    }
    forall p | p in t ensures p in PathsOf(plan) {
      assert Snapshot(p, t[p]) in Recorded(t);
      var i :| 0 <= i < |plan| && plan[i] == Snapshot(p, t[p]);
    }
  }

  /** A plan of one tree does not pass for another in which some object has come, gone or
      changed in any recorded attribute. */
  lemma ChangeIsNoticed(t: Tree, now: Tree, plan: seq<Entry>, p: Path)
    requires Listed(plan) == Recorded(t) && (p in t || p in now)
    requires p in t && p in now ==> Snapshot(p, t[p]) != Snapshot(p, now[p])
    ensures Listed(plan) != Recorded(now)
  {
    if p in t {
      assert Snapshot(p, t[p]) in Recorded(t);
      assert forall q :: q in now && q != p ==> Snapshot(q, now[q]).path != p;
    } else {
      assert Snapshot(p, now[p]) in Recorded(now);
    }
  }

  /** The check `planned_operation` makes before it acts: it passes exactly when the
      tree is admissible and the plan lists its snapshot. */
  method VerifyPlan(root: Workspace, plan: seq<Entry>) returns (ok: bool, why: Errno)
    requires WellFormed(root.nodes) && PlanOk(plan)
    ensures ok <==> Admissible(root.nodes) && Listed(plan) == Recorded(root.nodes)
    ensures ok ==> Agrees(root.nodes, plan)
    ensures why == ESTALE || why == E2BIG || why == ENAMETOOLONG
  {
    ghost var t := root.nodes;
    WholeTree(t);
    var good, seen, errno := VerifyTree(root, plan, ROOT, 0, 0);
    ok, why := good && seen == |plan|, if seen == |plan| then errno else ESTALE;
    if ok {
      MatchedIsAgreed(t, plan);
      AgreesIsSnapshot(t, plan);
    } else if Admissible(t) {
      AgreesIsSnapshot(t, plan);
      if Agrees(t, plan) { AgreedIsMatched(t, plan); }
    }
  }
}
