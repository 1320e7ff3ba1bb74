/** Removing a subtree by walking a verified plan backwards. */
module Removal {
  import opened Paths
  import opened Plans
  import opened Workspaces
  import opened Verification

  /** The planned objects below `path` that the walk has passed, going down to `i`. */
  ghost function Passed(plan: seq<Entry>, path: Path, i: nat): (s: set<Path>) {
    set j | i <= j < |plan| && Within(path, plan[j].path) :: plan[j].path
  }

  lemma PassedAll(t: Tree, plan: seq<Entry>, path: Path)
    requires Agrees(t, plan)
    ensures Passed(plan, path, 0) == Sub(t, path)
  {
    forall q | q in Sub(t, path) ensures q in Passed(plan, path, 0) {
      assert q in PathsOf(plan);
    }
    forall q | q in Passed(plan, path, 0) ensures q in Sub(t, path) {
      assert q in PathsOf(plan);
    }
  }

  lemma PassedStep(plan: seq<Entry>, path: Path, i: nat)
    requires i < |plan|
    ensures Passed(plan, path, i) ==
              Passed(plan, path, i + 1) + (if Within(path, plan[i].path) then {plan[i].path} else {})
  {}

  lemma NotPassed(plan: seq<Entry>, path: Path, i: nat, q: Path)
    requires Sorted(plan) && i < |plan| && (Less(q, plan[i].path) || q == plan[i].path)
    ensures q !in Passed(plan, path, i + 1)
  {
    forall j | i + 1 <= j < |plan| ensures plan[j].path != q {
      LessIrreflexive(q);
      if q != plan[i].path { LessTransitive(q, plan[i].path, plan[j].path); }
    }
  }

  lemma PassedLater(plan: seq<Entry>, path: Path, i: nat, q: Path)
    requires Sorted(plan) && i < |plan| && q in PathsOf(plan) && Less(plan[i].path, q) && Within(path, q)
    ensures q in Passed(plan, path, i + 1)
  {
    var j :| 0 <= j < |plan| && plan[j].path == q;
    LessIrreflexive(q);
    if j < i { LessTransitive(plan[j].path, plan[i].path, q); }
  }

  /** Where the walk stands before entry `i` is handled. */
  ghost predicate Progress(t: Tree, plan: seq<Entry>, path: Path, i: nat, now: Tree) {
    WellFormed(now) && Cores(now) == Cores(t) - Passed(plan, path, i)
  }

  lemma ProgressStep(t: Tree, plan: seq<Entry>, path: Path, i: nat, now: Tree)
    requires i < |plan| && Progress(t, plan, path, i + 1, now) && !Within(path, plan[i].path)
    ensures Progress(t, plan, path, i, now)
  {
    PassedStep(plan, path, i);
    assert Passed(plan, path, i) == Passed(plan, path, i + 1);
  }

  lemma ProgressUnlink(t: Tree, plan: seq<Entry>, path: Path, i: nat, before: Tree, now: Tree)
    requires i < |plan| && Progress(t, plan, path, i + 1, before) && Within(path, plan[i].path)
    requires WellFormed(now) && Cores(now) == Cores(before) - {plan[i].path}
    ensures Progress(t, plan, path, i, now)
  {
    PassedStep(plan, path, i);
    var gone := Passed(plan, path, i + 1);
    assert Cores(t) - gone - {plan[i].path} == Cores(t) - (gone + {plan[i].path});
  }

  lemma StillThere(t: Tree, now: Tree, gone: set<Path>, q: Path)
    requires Cores(now) == Cores(t) - gone && q in t && q !in gone
    ensures q in now && Core(now[q]) == Core(t[q]) && now[q].mode == t[q].mode
  {
    assert q in Cores(t) - gone;
    assert Cores(now)[q] == Cores(t)[q];
  }

  /** The step at entry `i` finds its parent directory and an object that is still the
      planned one: a file in every respect, a directory but for its size and times. */
  lemma StepReady(t: Tree, plan: seq<Entry>, path: Path, i: nat, now: Tree)
    requires WellFormed(t) && PlanOk(plan) && Agrees(t, plan) && Canonical(path)
    requires i < |plan| && Within(path, plan[i].path) && Progress(t, plan, path, i + 1, now)
    ensures var p := plan[i].path;
            && Canonical(p) && Parent(p) in now && IsDir(now[Parent(p)].mode)
            && p in now && SameNode(now[p], plan[i], IsReg(plan[i].mode)) && now[p].mode == plan[i].mode
  {
    var p := plan[i].path;
    var gone := Passed(plan, path, i + 1);
    CanonicalNonempty(path);
    if p == ROOT { WithinRoot(path); }
    assert WellFormedAt(t, p);
    ParentFacts(p);
    NotPassed(plan, path, i, p);
    hide Within, Canonical, PlanOk, Depth;
    StillThere(t, now, gone, p);
    assert AgreesAt(t, plan, i);
    ParentNotPassed(plan, path, i);
    StillThere(t, now, gone, Parent(p));
  }

  lemma ParentNotPassed(plan: seq<Entry>, path: Path, i: nat)
    requires PlanOk(plan) && Canonical(path) && i < |plan| && Canonical(plan[i].path)
    ensures Parent(plan[i].path) !in Passed(plan, path, i + 1)
  {
    var p := plan[i].path;
    ParentFacts(p);
    if Parent(p) == ROOT {
      if Within(path, ROOT) { CanonicalNonempty(path); WithinRoot(path); }
    } else {
      LessPrefix(Parent(p), p);
      NotPassed(plan, path, i, Parent(p));
    }
  }

  /** By then every object below the entry has been unlinked. */
  lemma NothingBelow(t: Tree, plan: seq<Entry>, path: Path, i: nat, now: Tree, q: Path)
    requires WellFormed(t) && PlanOk(plan) && Agrees(t, plan) && Canonical(path)
    requires i < |plan| && Within(path, plan[i].path) && Progress(t, plan, path, i + 1, now)
    ensures q in now && q != ROOT ==> Parent(q) != plan[i].path
  {
    var p := plan[i].path;
    if q in now && q != ROOT && Parent(q) == p {
      assert q in Cores(now);
      assert q in t && q !in Passed(plan, path, i + 1);
      assert WellFormedAt(t, q);
      ParentFacts(q);
      CanonicalNonempty(path);
      if p == ROOT { WithinRoot(path); }
      assert WellFormedAt(t, p);
      WithinStep(p, q);
      WithinLess(p, q);
      WithinTransitive(path, p, q);
      PassedLater(plan, path, i, q);
    }
  }

  /** What removing `path` from `t` means: the tree afterwards and the answer. */
  ghost predicate RemoveResult(t: Tree, now: Tree, path: Path, recursive: bool, force: bool, r: Outcome)
    requires TreePath(path)
  {
    if path !in t then
      now == t && r == (if force && Missing(t, path) == ENOENT then Success else Failure(OpenStage, Missing(t, path)))
    else if IsDir(t[path].mode) && !recursive && Sub(t, path) != {path} then
      now == t && r == Failure(RemoveStage, ENOTEMPTY)
    else
      r == Success && Cores(now) == Cores(t) - Sub(t, path)
  }

  /** `remove_plan`. A missing target, and a directory that may not be removed with
      its contents, leave the tree as it was; otherwise no step fails and exactly the
      objects at and below the target are gone. */
  method RemovePlan(root: Workspace, plan: seq<Entry>, path: Path, recursive: bool, force: bool) returns (r: Outcome)
    requires WellFormed(root.nodes) && PlanOk(plan) && Agrees(root.nodes, plan) && ValidRelative(path)
    modifies root
    ensures WellFormed(root.nodes) && RemoveResult(old(root.nodes), root.nodes, path, recursive, force, r)
  {
    ghost var t := root.nodes;
    var target := FindNode(plan, path);
    if target.None? {
      var pin := Lookup(root.nodes, path);
      if pin.Ok? { return Failure(TreeStage, ESTALE); }
      if pin.Code() == ENOENT && force { return Success; }
      return Failure(OpenStage, pin.Code());
    }
    assert path in PathsOf(plan) && AgreesAt(t, plan, target.value);
    if IsDir(plan[target.value].mode) && !recursive {
      for i := 0 to |plan|
        invariant forall j :: 0 <= j < i ==> Within(path, plan[j].path) ==> plan[j].path == path
      {
        if plan[i].path != path && Within(path, plan[i].path) {
          assert plan[i].path in Sub(t, path);
          return Failure(RemoveStage, ENOTEMPTY);
        }
      }
    }
    assert Passed(plan, path, |plan|) == {};
    for i := |plan| downto 0
      invariant Progress(t, plan, path, i, root.nodes)
    {
      var item := plan[i];
      ghost var before := root.nodes;
      if Within(path, item.path) {
        StepReady(t, plan, path, i, root.nodes);
        forall q { NothingBelow(t, plan, path, i, root.nodes, q); }
        ParentFacts(item.path);
        var parent := LookupDir(root.nodes, Parent(item.path));
        if parent.Err? { return Failure(OpenStage, parent.Code()); }
        var pin := Lookup(root.nodes, Child(Parent(item.path), Leaf(item.path)));
        if pin.Err? || !SameNode(pin.value, item, IsReg(item.mode)) { return Failure(TreeStage, ESTALE); }
        var removed := root.UnlinkAt(Parent(item.path), Leaf(item.path), IsDir(item.mode));
        if removed.Err? { return Failure(RemoveStage, removed.Code()); }
        ProgressUnlink(t, plan, path, i, before, root.nodes);
      } else {
        ProgressStep(t, plan, path, i, before);
      }
    }
    PassedAll(t, plan, path);
    return Success;
  }
}
