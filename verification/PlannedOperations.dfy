/** A planned operation from its wire form to the changed workspace. */
module PlannedOperations {
  import opened Basics
  import opened Paths
  import opened Plans
  import opened Workspaces
  import opened Verification
  import opened Images
  import opened Copying
  import opened CopySteps
  import opened Removal
  import opened PlannedCopy

  datatype Request =
    | TreeRequest(path: Path)
    | RemoveRequest(target: Path, recursive: bool, force: bool)
    | CopyRequest(source: Path, destination: Path, deep: bool)

  /** What the command line is checked for before a planned operation starts. */
  ghost predicate Admitted(q: Request) {
    match q
    case TreeRequest(path) => PathOk(path)
    case RemoveRequest(target, _, _) => ValidRelative(target)
    case CopyRequest(source, destination, _) => ValidRelative(source) && ValidRelative(destination)
  }

  ghost predicate Received(lengthText: Text, input: Text, plan: seq<Entry>) {
    && Unsigned(lengthText) == Some(|input|) && 0 < |input| <= MAX_DATA
    && Encodes(input, plan) && PlanOk(plan)
  }

  ghost predicate OperationResult(t: Tree, now: Tree, plan: seq<Entry>, q: Request, r: Outcome)
    requires Admitted(q)
  {
    match q
    case TreeRequest(path) => now == t && r == if path in t then Success else Failure(OpenStage, ENOENT)
    case RemoveRequest(target, recursive, force) => RemoveResult(t, now, target, recursive, force, r)
    case CopyRequest(source, destination, deep) => CopyResult(t, now, plan, source, destination, deep, r)
  }

  /** `planned_operation`: nothing changes unless the bytes are a well-formed plan and
      that plan lists exactly the snapshot of an admissible tree; then the operation does what it says.
      The tree stays well-formed, and an admissible one stays admissible. */
  method PlannedOperation(root: Workspace, lengthText: Text, input: Text, q: Request) returns (r: Outcome)
    requires WellFormed(root.nodes) && Admitted(q)
    modifies root
    ensures WellFormed(root.nodes) && (Admissible(old(root.nodes)) ==> Admissible(root.nodes))
    ensures (forall plan :: !Received(lengthText, input, plan)) ==>
              root.nodes == old(root.nodes) && r.Failure? && r.stage == PlanStage
    ensures forall plan :: Received(lengthText, input, plan) ==>
              if Admissible(old(root.nodes)) && Listed(plan) == Recorded(old(root.nodes)) then
                OperationResult(old(root.nodes), root.nodes, plan, q, r)
              else
                root.nodes == old(root.nodes) && r.Failure? && r.stage == TreeStage
  {
    hide RemoveResult, CopyResult, Encodes, Agrees, Listed, Recorded, Admissible, WellFormed;
    ghost var t := root.nodes;
    var read := ReadPlan(lengthText, input);
    if read.None? { return Failure(PlanStage, EINVAL); }
    var plan := read.value;
    assert Received(lengthText, input, plan);
    forall other | Received(lengthText, input, other) ensures other == plan {
      ReceivedOnce(lengthText, input, plan, other);
    }
    var verified, why := VerifyPlan(root, plan);
    if !verified { return Failure(TreeStage, why); }
    match q {
      case TreeRequest(path) =>
        AgreedPaths(t, plan);
        var found := FindNode(plan, path);
        return if found.None? then Failure(OpenStage, ENOENT) else Success;
      case RemoveRequest(target, recursive, force) =>
        r := RemovePlan(root, plan, target, recursive, force);
        RemoveIsClosed(t, root.nodes, target, recursive, force, r);
      case CopyRequest(source, destination, deep) =>
        r := CopyPlan(root, plan, source, destination, deep);
        CopyStaysAdmissible(t, root.nodes, plan, source, destination, deep, r);
    }
  }

  lemma ReceivedOnce(lengthText: Text, input: Text, plan: seq<Entry>, other: seq<Entry>)
    requires Received(lengthText, input, plan) && Received(lengthText, input, other)
    ensures other == plan
  {
    RecordsUnique(Split(input, 0).value, plan, other);
  }

  lemma AgreedPaths(t: Tree, plan: seq<Entry>)
    requires Agrees(t, plan)
    ensures t.Keys == PathsOf(plan)
  {}

  lemma CopyStaysAdmissible(t: Tree, now: Tree, plan: seq<Entry>, src: Path, dst: Path, recursive: bool, r: Outcome)
    requires TreePath(dst) && CopyResult(t, now, plan, src, dst, recursive, r) && Admissible(t)
    ensures Admissible(now)
  {}

  lemma RemoveIsClosed(t: Tree, now: Tree, path: Path, recursive: bool, force: bool, r: Outcome)
    requires TreePath(path) && RemoveResult(t, now, path, recursive, force, r) && Admissible(t)
    ensures Admissible(now)
  {
    if now != t {
      assert now.Keys == Cores(now).Keys && t.Keys == Cores(t).Keys;
      assert now.Keys <= t.Keys;
      SubsetBound(now.Keys, t.Keys);
      assert |now| == |now.Keys| && |t| == |t.Keys|;
      forall p | p in now ensures AdmissibleAt(now, p) {
        assert Cores(now)[p] == Cores(t)[p];
        assert AdmissibleAt(t, p);
      }
    }
  }

  /** Removing a fresh copy undoes it. */
  lemma RemoveUndoesCopy(t: Tree, copied: Tree, now: Tree, src: Path, dst: Path)
    requires WellFormed(t) && Canonical(src) && Canonical(dst) && src in t && dst !in t && Parent(dst) in t
    requires Copied(t, copied, src, dst, Sub(t, src))
    requires Cores(now) == Cores(copied) - Sub(copied, dst)
    ensures Cores(now) == Cores(t)
  {
    var s := Sub(t, src);
    PathsBack(t, copied, src, dst);
    assert Cores(now).Keys == Cores(t).Keys;
    forall q | q in t ensures Cores(now)[q] == Cores(t)[q] {
      assert CopiedAt(t, copied, src, dst, s, q);
      assert Cores(now)[q] == Cores(copied)[q];
      if FileImage(t, src, dst, s, q) { FileImageBelow(t, src, dst, q); }
    }
  }

  lemma PathsBack(t: Tree, copied: Tree, src: Path, dst: Path)
    requires WellFormed(t) && Canonical(src) && Canonical(dst) && src in t && dst !in t && Parent(dst) in t
    requires Copied(t, copied, src, dst, Sub(t, src))
    ensures forall q :: q in t <==> q in copied && !Within(dst, q)
  {
    CanonicalNonempty(dst);
    forall q ensures q in t <==> q in copied && !Within(dst, q) {
      if q in t && Within(dst, q) { AncestorsPresent(t, dst, q); }
      if q in copied && q !in t { NewIsBelow(t, copied, src, dst, q); }
    }
  }

  lemma FileImageBelow(t: Tree, src: Path, dst: Path, q: Path)
    requires WellFormed(t) && Canonical(src) && Canonical(dst) && FileImage(t, src, dst, Sub(t, src), q)
    ensures Within(dst, q)
  {
    var p := Image(dst, src, q);
    SubCanonical(t, src, p);
    ImageBack(dst, src, q);
    ImageCanonical(src, dst, p);
  }

  lemma NewIsBelow(t: Tree, copied: Tree, src: Path, dst: Path, q: Path)
    requires WellFormed(t) && Canonical(src) && Canonical(dst) && src in t && Parent(dst) in t
    requires Copied(t, copied, src, dst, Sub(t, src)) && q in copied && q !in t
    ensures Within(dst, q)
  {
    if q in ImagesOf(src, dst, Sub(t, src)) {
      var p :| p in Sub(t, src) && |src| <= |p| && Image(src, dst, p) == q;
      SubCanonical(t, src, p);
      ImageCanonical(src, dst, p);
    } else {
      ParentFacts(dst);
      ChainPresent(t, Parent(dst));
      assert q in {dst} + Chain(Parent(dst));
    }
  }
}
