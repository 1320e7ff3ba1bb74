/** `copy_plan` as a whole: preflight, then the steps, none of which fails. */
module PlannedCopy {
  import opened Paths
  import opened Plans
  import opened Workspaces
  import opened Verification
  import opened Images
  import opened Copying
  import opened CopySteps
  import opened Preflight

  // ---------- the result is again a workspace the helper accepts ----------

  /** A regular source is written into an existing directory; a directory source
      brings its own. */
  ghost predicate HasPlace(t: Tree, src: Path, dst: Path)
    requires src in t
  {
    IsDir(t[src].mode) || Parent(dst) in t
  }

  lemma NewKeys(t: Tree, now: Tree, src: Path, dst: Path)
    requires WellFormed(t) && src in t && Canonical(src) && Canonical(dst) && HasPlace(t, src, dst)
    requires Copied(t, now, src, dst, Sub(t, src))
    ensures now.Keys == t.Keys + Created(t, src, dst, Sub(t, src))
    ensures t.Keys !! Created(t, src, dst, Sub(t, src))
  {
    var s := Sub(t, src);
    assert src in s;
    ImageSelf(src, dst);
    assert Image(src, dst, src) in ImagesOf(src, dst, s);
    ChainFresh(dst);
    if !IsDir(t[src].mode) { ChainPresent(t, Parent(dst)); }
  }

  lemma ExactCount(t: Tree, now: Tree, src: Path, dst: Path)
    requires WellFormed(t) && src in t && Canonical(src) && Canonical(dst) && HasPlace(t, src, dst)
    requires Copied(t, now, src, dst, Sub(t, src))
    ensures |now| == |t| + |Created(t, src, dst, Sub(t, src))|
  {
    NewKeys(t, now, src, dst);
    CardDisjoint(t.Keys, Created(t, src, dst, Sub(t, src)), now.Keys);
    assert |now| == |now.Keys| && |t| == |t.Keys|;
  }

  lemma CardDisjoint(a: set<Path>, b: set<Path>, c: set<Path>)
    requires a !! b && c == a + b
    ensures |c| == |a| + |b|
  {}

  lemma SourceFits(t: Tree, src: Path, dst: Path)
    requires src in t && AllFit(t, src, dst)
    ensures Fits(t, src, dst, src) && Image(src, dst, src) == dst
  {
    ImageSelf(src, dst);
    assert src in Sub(t, src);
  }

  lemma NewInLimits(t: Tree, now: Tree, src: Path, dst: Path, q: Path)
    requires WellFormed(t) && src in t && Canonical(src) && Canonical(dst) && HasPlace(t, src, dst)
             && AllFit(t, src, dst)
    requires Copied(t, now, src, dst, Sub(t, src)) && q in now && q !in t && !FileImage(t, src, dst, Sub(t, src), q)
    requires forall p :: p in Sub(t, src) ==> IsDir(t[p].mode) || IsReg(t[p].mode)
    ensures |q| < PATH_MAX && Depth(q) <= MAX_DEPTH
  {
    var s := Sub(t, src);
    SourceFits(t, src, dst);
    if q in ImagesOf(src, dst, s) {
      var p :| p in s && |src| <= |p| && Image(src, dst, p) == q;
      SubCanonical(t, src, p);
      ImageBack(src, dst, p);
      assert Fits(t, src, dst, p);
    } else {
      NewKeys(t, now, src, dst);
      assert q in Chain(dst) && IsDir(t[src].mode);
      ChainIsAncestors(dst, q);
      CanonicalNonempty(q);
      if q != dst { WithinDepth(q, dst); }
    }
  }

  lemma SubCanonical(t: Tree, src: Path, p: Path)
    requires WellFormed(t) && Canonical(src) && p in Sub(t, src)
    ensures Canonical(p) && src <= p
  {
    assert WellFormedAt(t, p);
    CanonicalNonempty(src);
    if p == ROOT { WithinRoot(src); }
  }

  lemma StillAdmissible(t: Tree, now: Tree, src: Path, dst: Path, q: Path)
    requires WellFormed(t) && src in t && Canonical(src) && Canonical(dst) && HasPlace(t, src, dst)
             && AllFit(t, src, dst)
    requires Admissible(t) && Copied(t, now, src, dst, Sub(t, src)) && q in now
    ensures AdmissibleAt(now, q)
  {
    var s := Sub(t, src);
    assert CopiedAt(t, now, src, dst, s, q);
    if FileImage(t, src, dst, s, q) {
      var p := Image(dst, src, q);
      SubCanonical(t, src, p);
      ImageBack(dst, src, q);
      assert Fits(t, src, dst, p);
    } else if q in t {
      assert AdmissibleAt(t, q);
    } else {
      forall p | p in s ensures IsDir(t[p].mode) || IsReg(t[p].mode) { assert AdmissibleAt(t, p); }
      NewInLimits(t, now, src, dst, q);
    }
  }

  /** After an accepted copy the tree is within the limits of the next verification. */
  lemma CopyIsClosed(t: Tree, plan: seq<Entry>, now: Tree, src: Path, dst: Path)
    requires Placed(t, plan, src, dst) && HasPlace(t, src, dst) && Acceptable(t, plan, src, dst)
    requires Copied(t, now, src, dst, Sub(t, src))
    ensures Admissible(now) && |now| == |t| + |Created(t, src, dst, Sub(t, src))|
  {
    ExactCount(t, now, src, dst);
    forall q | q in now ensures AdmissibleAt(now, q) { StillAdmissible(t, now, src, dst, q); }
  }

  // ---------- the steps ----------

  /** The second loop of `copy_plan`. */
  method CopyAll(root: Workspace, plan: seq<Entry>, src: Path, dst: Path) returns (r: Outcome)
    requires Ready(root.nodes, plan, src, dst)
    modifies root
    ensures var t := old(root.nodes);
            if HasPlace(t, src, dst) then r == Success && Copied(t, root.nodes, src, dst, Sub(t, src))
            else root.nodes == t && r == Failure(OpenStage, Missing(t, dst))
  {
    hide Copied;
    ghost var t := root.nodes;
    CopiedNothing(t, plan, src, dst);
    var i := 0;
    while i < |plan|
      invariant 0 <= i <= |plan| && Reached(t, root.nodes, plan, src, dst, i)
    {
      r := CopyEntry(root, plan, src, dst, i, t);
      if r.Failure? { return; }
      i := i + 1;
    }
    ReachedEnd(t, root.nodes, plan, src, dst);
    return Success;
  }

  /** Where the loop stands before entry `i`. */
  ghost predicate Reached(t: Tree, now: Tree, plan: seq<Entry>, src: Path, dst: Path, i: nat)
    requires src in t && TreePath(dst) && i <= |plan|
  {
    && Copied(t, now, src, dst, Done(plan, src, i))
    && (!HasPlace(t, src, dst) ==> Done(plan, src, i) == {} && now == t)
  }

  lemma ReachedEnd(t: Tree, now: Tree, plan: seq<Entry>, src: Path, dst: Path)
    requires src in t && TreePath(dst) && Agrees(t, plan) && Reached(t, now, plan, src, dst, |plan|)
    ensures HasPlace(t, src, dst) && Copied(t, now, src, dst, Sub(t, src))
  {
    DoneAll(t, plan, src);
    assert src in Sub(t, src);
  }

  lemma CopiedNothing(t: Tree, plan: seq<Entry>, src: Path, dst: Path)
    requires WellFormed(t) && Canonical(dst)
    requires src in t
    ensures Reached(t, t, plan, src, dst, 0)
  {
    assert Done(plan, src, 0) == {};
    assert ImagesOf(src, dst, {}) == {};
    assert t.Keys == t.Keys + ImagesOf(src, dst, {}) + {};
    forall q | q in t ensures CopiedAt(t, t, src, dst, {}, q) {}
  }

  /** One entry of the plan. The only step that can fail is the one for a single file
      whose directory is missing, and then nothing has changed. */
  method CopyEntry(root: Workspace, plan: seq<Entry>, src: Path, dst: Path, i: nat, ghost t: Tree) returns (r: Outcome)
    requires Ready(t, plan, src, dst) && i < |plan| && Reached(t, root.nodes, plan, src, dst, i)
    modifies root
    ensures r == Success ==> Reached(t, root.nodes, plan, src, dst, i + 1)
    ensures r != Success ==> !HasPlace(t, src, dst) && root.nodes == t && r == Failure(OpenStage, Missing(t, dst))
  {
    var item := plan[i];
    DoneStep(plan, src, i);
    if !Within(src, item.path) {
      assert Done(plan, src, i + 1) == Done(plan, src, i);
      return Success;
    }
    ParentDone(t, plan, src, dst, i);
    ImageCanonical(src, dst, item.path);
    var path := Image(src, dst, item.path);
    if IsDir(item.mode) {
      r := CopyDirectoryEntry(root, plan, src, dst, i, path, t);
    } else {
      r := CopyFileEntry(root, plan, src, dst, i, path, t);
    }
  }

  method CopyDirectoryEntry(root: Workspace, plan: seq<Entry>, src: Path, dst: Path, i: nat, path: Path, ghost t: Tree)
      returns (r: Outcome)
    requires Before(t, plan, src, dst, i, root.nodes) && IsDir(plan[i].mode) && src <= plan[i].path
    requires path == Image(src, dst, plan[i].path) && Canonical(path)
    requires !HasPlace(t, src, dst) ==> plan[i].path == src
    modifies root
    ensures r == Success && HasPlace(t, src, dst) && Copied(t, root.nodes, src, dst, Done(plan, src, i + 1))
  {
    ghost var now := root.nodes;
    forall a | a in now && Canonical(a) && Within(a, path) ensures IsDir(now[a].mode) && now[a].owned {
      DirReady(t, plan, src, dst, i, now, a);
    }
    assert AgreesAt(t, plan, i);
    forall a | a in Chain(path) && a in now ensures IsDir(now[a].mode) && now[a].owned { ChainIsAncestors(path, a); }
    var made := CopyDirectory(root, path);
    if made.Err? { return Failure(CopyStage, made.Code()); }
    DirAfter(t, plan, src, dst, i, now, root.nodes);
    return Success;
  }

  method CopyFileEntry(root: Workspace, plan: seq<Entry>, src: Path, dst: Path, i: nat, path: Path, ghost t: Tree)
      returns (r: Outcome)
    requires Before(t, plan, src, dst, i, root.nodes) && !IsDir(plan[i].mode) && src <= plan[i].path
    requires path == Image(src, dst, plan[i].path) && Canonical(path)
    requires !HasPlace(t, src, dst) ==> plan[i].path == src && root.nodes == t
    modifies root
    ensures if HasPlace(t, src, dst) then r == Success && Copied(t, root.nodes, src, dst, Done(plan, src, i + 1))
            else r == Failure(OpenStage, Missing(t, dst)) && root.nodes == t
  {
    ghost var now := root.nodes;
    assert RangesOk(plan[i]) && AgreesAt(t, plan, i);
    FileReady(t, plan, src, dst, i, now);
    FilePlace(t, plan, src, dst, i, now);
    r := CopyFile(root, plan[i], path);
    if r == Success { FileAfter(t, plan, src, dst, i, now, root.nodes); }
  }

  /** The directory of a file's image exists, except for a single file without a place. */
  lemma FilePlace(t: Tree, plan: seq<Entry>, src: Path, dst: Path, i: nat, now: Tree)
    requires Before(t, plan, src, dst, i, now) && IsReg(plan[i].mode) && src <= plan[i].path && AgreesAt(t, plan, i)
    requires Canonical(Image(src, dst, plan[i].path)) && TreePath(Parent(Image(src, dst, plan[i].path)))
    ensures var q := Image(src, dst, plan[i].path);
            HasPlace(t, src, dst) || plan[i].path != src <==> Parent(q) in now && IsDir(now[Parent(q)].mode)
    ensures plan[i].path == src ==> Image(src, dst, src) == dst && (dst in now ==> HasPlace(t, src, dst))
  {
    if plan[i].path != src {
      ChainOfImage(t, plan, src, dst, i, now);
    } else {
      SourceFits(t, src, dst);
      ParentDone(t, plan, src, dst, i);
      ParentFacts(dst);
      OnlyFile(t, now, src, dst);
    }
  }

  lemma OnlyFile(t: Tree, now: Tree, src: Path, dst: Path)
    requires WellFormed(t) && src in t && IsReg(t[src].mode) && Canonical(src) && Canonical(dst)
             && TreePath(Parent(dst))
    requires AllFit(t, src, dst) && Copied(t, now, src, dst, {})
    ensures HasPlace(t, src, dst) <==> Parent(dst) in now && IsDir(now[Parent(dst)].mode)
    ensures dst in now ==> HasPlace(t, src, dst)
  {
    SourceFits(t, src, dst);
    assert now.Keys == t.Keys + ImagesOf(src, dst, {}) + {} && ImagesOf(src, dst, {}) == {};
    if dst in t { assert WellFormedAt(t, dst); }
    if Parent(dst) in t {
      assert CopiedAt(t, now, src, dst, {}, Parent(dst));
      if Parent(dst) != ROOT { WithinStep(Parent(dst), dst); ParentFacts(dst); }
    }
  }

  /** What copying `src` to `dst` in `t` means: the tree afterwards and the answer. */
  ghost predicate CopyResult(t: Tree, now: Tree, plan: seq<Entry>, src: Path, dst: Path, recursive: bool, r: Outcome)
    requires TreePath(dst)
  {
    if src !in t then
      now == t && r == Failure(OpenStage, ENOENT)
    else if Within(src, dst) || Within(dst, src) || (IsDir(t[src].mode) && !recursive) then
      now == t && r == Failure(CopyStage, EINVAL)
    else if !Acceptable(t, plan, src, dst) then
      now == t && r.Failure? && r.stage == CopyStage && Refusal(t, plan, src, dst, r.errno)
    else if !HasPlace(t, src, dst) then
      now == t && r == Failure(OpenStage, Missing(t, dst))
    else
      r == Success && Copied(t, now, src, dst, Sub(t, src)) && Admissible(now)
      && |now| == |t| + |Created(t, src, dst, Sub(t, src))|
  }

  /** `copy_plan`. Every refusal leaves the tree as it was; an accepted copy succeeds,
      puts the exact image of the source at the destination, creates as many entries
      as the preflight counted, and leaves a tree the helper accepts again. */
  method CopyPlan(root: Workspace, plan: seq<Entry>, src: Path, dst: Path, recursive: bool) returns (r: Outcome)
    requires WellFormed(root.nodes) && PlanOk(plan) && Agrees(root.nodes, plan) && Admissible(root.nodes)
    requires ValidRelative(src) && ValidRelative(dst)
    modifies root
    ensures WellFormed(root.nodes) && CopyResult(old(root.nodes), root.nodes, plan, src, dst, recursive, r)
  {
    ghost var t := root.nodes;
    var target := FindNode(plan, src);
    if target.None? { return Failure(OpenStage, ENOENT); }
    assert src in PathsOf(plan) && AgreesAt(t, plan, target.value);
    if Within(src, dst) || Within(dst, src) { return Failure(CopyStage, EINVAL); }
    if IsDir(plan[target.value].mode) && !recursive { return Failure(CopyStage, EINVAL); }
    var count := CheckPlan(plan, src, dst, plan[target.value], t);
    if count.Err? { return Failure(CopyStage, count.Code()); }
    r := CopyAll(root, plan, src, dst);
    if HasPlace(t, src, dst) { CopyIsClosed(t, plan, root.nodes, src, dst); }
  }

  // ---------- what a copy shows ----------

  /** The copy, object by object: every source object appears at its image with its kind and,
      for a file, its bytes and mode; the source is untouched; nothing else has changed; and
      what is new is an image or a directory on the way to the destination. */
  lemma CopyShows(t: Tree, plan: seq<Entry>, now: Tree, src: Path, dst: Path, p: Path)
    requires Ready(t, plan, src, dst) && Copied(t, now, src, dst, Sub(t, src))
    ensures p in Sub(t, src) ==>
              && |src| <= |p| && var q := Image(src, dst, p);
              && q in now && Format(now[q].mode) == Format(t[p].mode) && (IsReg(t[p].mode) ==> CopiedFile(now[q], t[p]))
    ensures p in t && !Within(dst, p) ==> p in now && Core(now[p]) == Core(t[p])
    ensures p in Sub(t, src) ==> p in now && Core(now[p]) == Core(t[p])
    ensures p in now && p !in t ==> p in ImagesOf(src, dst, Sub(t, src)) || (FreshDir(now[p]) && Within(p, dst))
  {
    var s := Sub(t, src);
    if p in t && !Within(dst, p) { Untouched(t, now, src, dst, s, p); }
    if p in s {
      SubCanonical(t, src, p);
      ImageCanonical(src, dst, p);
      ImageBack(src, dst, p);
      Disjoint(src, dst, p);
      Untouched(t, now, src, dst, s, p);
      assert AdmissibleAt(t, p);
      if IsDir(t[p].mode) {
        ImageDir(t, now, src, dst, s, p);
      } else {
        assert Image(src, dst, p) in ImagesOf(src, dst, s);
        assert CopiedAt(t, now, src, dst, s, Image(src, dst, p));
      }
    }
    if p in now && p !in t && p !in ImagesOf(src, dst, s) { NewAncestor(t, now, src, dst, p); }
  }

  lemma NewAncestor(t: Tree, now: Tree, src: Path, dst: Path, p: Path)
    requires Canonical(src) && Canonical(dst) && Copied(t, now, src, dst, Sub(t, src))
    requires p in now && p !in t && p !in ImagesOf(src, dst, Sub(t, src))
    ensures FreshDir(now[p]) && Within(p, dst)
  {
    ChainIsAncestors(dst, p);
    assert CopiedAt(t, now, src, dst, Sub(t, src), p);
    if FileImage(t, src, dst, Sub(t, src), p) { ImageBack(dst, src, p); }
  }

  // ---------- a lone file without a place ----------

  const FOLDER: Node := Node(1, 1, 0x41c0, Stamp(0, 0, 0, 0, 0), true, 2, [])
  const FILE: Node := Node(1, 2, 0x8180, Stamp(0, 0, 0, 0, 0), true, 1, [])
  const A: Path := [97]
  const D: Path := [100]
  const D_B: Path := [100, SLASH, 98]

  /** A workspace with one file `a`, and its plan. */
  function LoneTree(): (t: Tree) {
    map[ROOT := FOLDER, A := FILE]
  }

  function LonePlan(): (plan: seq<Entry>) {
    [Entry(ROOT, 1, 1, 0x41c0, 0, 0, 0, 0, 0), Entry(A, 1, 2, 0x8180, 0, 0, 0, 0, 0)]
  }

  /** Copying `a` to `d/b` passes the preflight and then finds no directory `d`. */
  lemma LoneFileHasNoPlace()
    ensures var t, plan := LoneTree(), LonePlan();
            Placed(t, plan, A, D_B) && Acceptable(t, plan, A, D_B) && !HasPlace(t, A, D_B)
  {
    LonePaths();
    LonePlaced();
    LoneFits();
    hide Placed, AllFit, TotalSize, Created, Within, Canonical, Depth;
    LoneCreated();
  }

  lemma LoneCreated()
    ensures var t := LoneTree(); |t| == 2 && Parent(D_B) !in t && !IsDir(t[A].mode)
    ensures Canonical(D_B) && |Created(LoneTree(), A, D_B, Sub(LoneTree(), A))| == 1
  {
    LonePaths();
    LoneSub();
    hide Created, Canonical, Within, Sub, Depth, Parent, MissingAbove, Chain;
    FirstCreated(LoneTree(), A, D_B);
  }

  lemma LoneSub()
    ensures var t := LoneTree(); Sub(t, A) == {A} && |t| == 2 && D !in t && D_B !in t && !IsDir(t[A].mode)
  {
    var t := LoneTree();
    assert t.Keys == {ROOT, A};
    forall q ensures q in Sub(t, A) <==> q == A {}
  }

  lemma LonePaths()
    ensures Canonical(A) && Canonical(D) && Canonical(D_B) && Parent(D_B) == D && Depth(A) == 1 && Depth(D_B) == 2
  {
    CanonicalName(A);
    CanonicalName(D);
    OneComponent(A);
    OneComponent(D);
    assert D_B == D + [SLASH] + [98];
    CanonicalJoin(D, [98]);
    ComponentsOfJoin(D, [98]);
    JoinSplits(D, [98]);
  }

  lemma LonePlaced()
    ensures Placed(LoneTree(), LonePlan(), A, D_B)
  {
    LonePaths();
    assert !Within(A, D_B) && !Within(D_B, A);
    LoneWorkspace();
    LoneAgrees();
    LonePlanOk();
    hide WellFormed, PlanOk, Agrees, Admissible, Canonical, Within;
  }

  lemma LoneWorkspace()
    ensures WellFormed(LoneTree()) && Admissible(LoneTree())
  {
    var t := LoneTree();
    LonePaths();
    RootNotCanonical();
    assert Parent(A) == ROOT;
    hide Canonical;
    assert WellFormedAt(t, ROOT) && WellFormedAt(t, A);
    assert |t| == 2 && AdmissibleAt(t, ROOT) && AdmissibleAt(t, A);
  }

  lemma LoneAgrees()
    ensures Agrees(LoneTree(), LonePlan())
  {
    var t, plan := LoneTree(), LonePlan();
    assert plan[0].path == ROOT && plan[1].path == A;
    assert PathsOf(plan) == {ROOT, A};
    assert AgreesAt(t, plan, 0) && AgreesAt(t, plan, 1);
  }

  lemma LonePlanOk()
    ensures PlanOk(LonePlan())
  {
    var plan := LonePlan();
    LonePaths();
    RootOrder(A);
    assert plan[0].path == ROOT && plan[1].path == A;
    assert ROOT in PathsOf(plan);
    hide Canonical, Less;
    assert RangesOk(plan[0]) && RangesOk(plan[1]);
  }

  lemma LoneFits()
    ensures AllFit(LoneTree(), A, D_B) && TotalSize(LonePlan(), A, 2) == 0
  {
    var t, plan := LoneTree(), LonePlan();
    LonePaths();
    RootNotCanonical();
    ImageSelf(A, D_B);
    assert forall p :: p in Sub(t, A) ==> p == A;
    assert Fits(t, A, D_B, A);
    assert TotalSize(plan, A, 1) == 0;
  }
}
