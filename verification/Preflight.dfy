/** The preflight of a planned copy: everything the copy will do is decided before
    the first change. */
module Preflight {
  import opened Paths
  import opened Plans
  import opened Workspaces
  import opened Verification
  import opened Images
  import opened Copying
  import opened CopySteps

  // ---------- depth by counting slashes ----------

  function SlashesFrom(p: Path, k: nat): (n: nat)
    requires k <= |p|
    decreases |p| - k
  {
    if k == |p| then 0 else (if p[k] == SLASH then 1 else 0) + SlashesFrom(p, k + 1)
  }

  lemma {:induction false} ComponentCount(p: Path, k: nat)
    requires k <= |p|
    ensures |ComponentsFrom(p, k)| == 1 + SlashesFrom(p, k)
    decreases |p| - k
  {
    if k < |p| {
      ComponentCount(p, k + 1);
      assert p[k] != SLASH ==> SlashFrom(p, k) == SlashFrom(p, k + 1);
    }
  }

  method CountDepth(p: Path) returns (depth: nat)
    ensures depth == |Components(p)|
  {
    depth := 1;
    for i := 0 to |p|
      invariant depth + SlashesFrom(p, i) == 1 + SlashesFrom(p, 0)
    {
      if p[i] == SLASH { depth := depth + 1; }
    }
    ComponentCount(p, 0);
  }

  // ---------- ancestors ----------

  ghost predicate AncestorsOk(t: Tree, p: Path)
    requires Canonical(p)
  {
    ParentFacts(p);
    forall a :: a in Chain(Parent(p)) && a in t ==> IsDir(t[a].mode)
  }

  /** The members of `s` that the tree does not have. */
  ghost function Beyond(t: Tree, s: set<Path>): (m: set<Path>) {
    set q | q in s && q !in t
  }

  ghost function MissingAbove(t: Tree, p: Path): (s: set<Path>)
    requires Canonical(p)
  {
    ParentFacts(p);
    Beyond(t, Chain(Parent(p)))
  }

  lemma ChainFresh(d: Path)
    requires Canonical(d)
    ensures TreePath(Parent(d)) && d !in Chain(Parent(d)) && Chain(d) == {d} + Chain(Parent(d))
  {
    ParentFacts(d);
    ChainIsAncestors(Parent(d), d);
    if d in Chain(Parent(d)) { WithinDepth(d, Parent(d)); }
  }

  lemma OneMore(t: Tree, d: Path, s: set<Path>)
    requires d !in s
    ensures |Beyond(t, {d} + s)| == |Beyond(t, s)| + (if d in t then 0 else 1)
  {
    if d in t {
      assert Beyond(t, {d} + s) == Beyond(t, s);
    } else {
      assert Beyond(t, {d} + s) == Beyond(t, s) + {d};
    }
  }

  lemma AboveStep(t: Tree, p: Path)
    requires Canonical(p) && Parent(p) != ROOT && Canonical(Parent(p))
    ensures AncestorsOk(t, p) <==> AncestorsOk(t, Parent(p)) && (Parent(p) in t ==> IsDir(t[Parent(p)].mode))
    ensures |MissingAbove(t, p)| == |MissingAbove(t, Parent(p))| + (if Parent(p) in t then 0 else 1)
  {
    ChainFresh(Parent(p));
    OneMore(t, Parent(p), Chain(Parent(Parent(p))));
  }

  lemma NoneAbove(t: Tree, p: Path)
    requires Canonical(p) && Parent(p) == ROOT
    ensures AncestorsOk(t, p) && MissingAbove(t, p) == {}
  {}

  lemma AncestorsAreAbove(t: Tree, q: Path)
    requires Canonical(q)
    ensures AncestorsOk(t, q) <==> forall a :: a in t && Canonical(a) && Within(a, q) && a != q ==> IsDir(t[a].mode)
  {
    ParentFacts(q);
    forall a | Canonical(a) && a != q ensures a in Chain(Parent(q)) <==> Within(a, q) {
      ChainIsAncestors(Parent(q), a);
      WithinStep(a, q);
    }
    forall a | a in Chain(Parent(q)) ensures Canonical(a) && a != q {
      ChainIsAncestors(Parent(q), a);
      if a == q { WithinDepth(q, Parent(q)); }
    }
  }

  /** The ancestor walk of one image: fails on a planned ancestor that is a file,
      and counts the missing ones. */
  method CheckAncestors(plan: seq<Entry>, path: Path, ghost t: Tree) returns (r: Result<nat>)
    requires Sorted(plan) && Agrees(t, plan) && Canonical(path)
    ensures r.Ok? <==> AncestorsOk(t, path)
    ensures r.Ok? ==> r.value == |MissingAbove(t, path)|
    ensures r.Err? ==> r.errno == ENOTDIR
  {
    var ancestor, missing := path, 0;
    while LastSlash(ancestor) >= 0
      invariant Canonical(ancestor)
      invariant AncestorsOk(t, path) <==> AncestorsOk(t, ancestor)
      invariant missing + |MissingAbove(t, ancestor)| == |MissingAbove(t, path)|
      decreases |ancestor|
    {
      SlashParent(ancestor);
      AboveStep(t, ancestor);
      ancestor := ancestor[..LastSlash(ancestor)];
      var parent := FindNode(plan, ancestor);
      if parent.Some? { assert AgreesAt(t, plan, parent.value); }
      if parent.Some? && !IsDir(plan[parent.value].mode) { return Err(ENOTDIR); }
      if parent.None? { missing := missing + 1; }
    }
    NoneAbove(t, ancestor);
    return Ok(missing);
  }

  lemma SlashParent(p: Path)
    requires Canonical(p) && LastSlash(p) >= 0
    ensures Parent(p) == p[..LastSlash(p)] && Parent(p) != ROOT && Canonical(Parent(p))
  {
    var k := LastSlash(p);
    var d, n := p[..k], p[k + 1..];
    assert p == d + [SLASH] + n;
    CanonicalJoin(d, n);
    RootNotCanonical();
  }

  // ---------- one object ----------

  /** The checks of one object below the source. The result counts the entries its
      copy will create: its image, and for the source directory itself the missing
      ancestors of the destination. */
  method CheckItem(plan: seq<Entry>, src: Path, dst: Path, item: Entry, total: nat, counting: bool, ghost t: Tree)
      returns (r: Result<nat>)
    requires Sorted(plan) && Agrees(t, plan) && Canonical(src) && Canonical(dst)
    requires item in plan && Within(src, item.path) && Canonical(item.path) && src <= item.path
    requires total <= MAX_DATA
    ensures r.Ok? <==> (&& item.path in t && Fits(t, src, dst, item.path)
                        && (IsReg(item.mode) ==> total + item.size <= MAX_DATA))
    ensures Canonical(Image(src, dst, item.path))
    ensures r.Ok? ==> r.value == (if Image(src, dst, item.path) in t then 0 else 1)
                                 + (if counting then |MissingAbove(t, Image(src, dst, item.path))| else 0)
    ensures r.Err? ==> item.path in t && ItemRefusal(t, src, dst, item, total, r.errno)
  {
    ImageCanonical(src, dst, item.path);
    PlannedItem(t, plan, item);
    CanonicalNonempty(item.path);
    var path := Image(src, dst, item.path);
    RootNotCanonical();
    FitsParts(t, src, dst, item.path);
    var valid := CheckRelative(path);
    if |path| >= PATH_MAX || !valid { return Err(ENAMETOOLONG); }
    var depth := CountDepth(path);
    if depth > MAX_DEPTH + (if IsReg(item.mode) then 1 else 0) { return Err(E2BIG); }
    var existing := FindNode(plan, path);
    if existing.Some? { assert AgreesAt(t, plan, existing.value); }
    if existing.Some? && Format(plan[existing.value].mode) != Format(item.mode) { return Err(EINVAL); }
    if IsReg(item.mode) && (item.size > MAX_DATA || total > MAX_DATA - item.size || HasSpecialBits(item.mode)) {
      return Err(E2BIG);
    }
    var above := CheckAncestors(plan, path, t);
    if above.Err? { return Err(above.Code()); }
    return Ok((if existing.None? then 1 else 0) + (if counting then above.value else 0));
  }

  lemma FitsParts(t: Tree, src: Path, dst: Path, p: Path)
    requires p in t && |src| <= |p| && Canonical(Image(src, dst, p))
    ensures var q := Image(src, dst, p);
            Fits(t, src, dst, p) <==>
              && |q| < PATH_MAX
              && Depth(q) <= MAX_DEPTH + (if IsReg(t[p].mode) then 1 else 0)
              && (q in t ==> Format(t[q].mode) == Format(t[p].mode))
              && (IsReg(t[p].mode) ==> !HasSpecialBits(t[p].mode))
              && AncestorsOk(t, q)
  {
    AncestorsAreAbove(t, Image(src, dst, p));
  }

  lemma PlannedItem(t: Tree, plan: seq<Entry>, item: Entry)
    requires Agrees(t, plan) && item in plan
    ensures item.path in t && t[item.path].mode == item.mode
  {
    var i :| 0 <= i < |plan| && plan[i] == item;
    assert AgreesAt(t, plan, i);
  }

  /** What each refusal of one object says about it. */
  ghost predicate ItemRefusal(t: Tree, src: Path, dst: Path, item: Entry, total: nat, e: Errno)
    requires item.path in t && |src| <= |item.path|
  {
    var q := Image(src, dst, item.path);
    match e
    case ENAMETOOLONG => |q| >= PATH_MAX
    case EINVAL => q in t && Format(t[q].mode) != Format(item.mode)
    case ENOTDIR => Canonical(q) && !AncestorsOk(t, q)
    case E2BIG => || Depth(q) > MAX_DEPTH + (if IsReg(item.mode) then 1 else 0)
                  || (IsReg(item.mode) && (total + item.size > MAX_DATA || HasSpecialBits(item.mode)))
    case _ => false
  }

  // ---------- the whole subtree ----------

  /** The bytes of the planned files below the source, up to entry `i`. */
  ghost function TotalSize(plan: seq<Entry>, src: Path, i: nat): (n: nat)
    requires i <= |plan|
  {
    if i == 0 then 0
    else TotalSize(plan, src, i - 1)
         + (if Within(src, plan[i - 1].path) && IsReg(plan[i - 1].mode) then plan[i - 1].size else 0)
  }

  /** The entries that copying the objects in `s` adds to the tree. */
  ghost function Created(t: Tree, src: Path, dst: Path, s: set<Path>): (c: set<Path>)
    requires src in t && TreePath(dst)
  {
    Beyond(t, ImagesOf(src, dst, s) + (if IsDir(t[src].mode) && s != {} then Chain(dst) else {}))
  }

  /** Every object fits, the bytes are bounded, and the tree stays within its limit. */
  ghost predicate Acceptable(t: Tree, plan: seq<Entry>, src: Path, dst: Path)
    requires src in t && TreePath(dst)
  {
    && AllFit(t, src, dst) && TotalSize(plan, src, |plan|) <= MAX_DATA
    && |t| - 1 + |Created(t, src, dst, Sub(t, src))| <= MAX_ENTRIES
  }

  ghost predicate Refusal(t: Tree, plan: seq<Entry>, src: Path, dst: Path, e: Errno)
    requires src in t && TreePath(dst)
  {
    || (e == E2BIG && |t| - 1 + |Created(t, src, dst, Sub(t, src))| > MAX_ENTRIES)
    || exists i :: 0 <= i < |plan| && Within(src, plan[i].path) && RefusalAt(t, plan, src, dst, i, e)
  }

  ghost predicate RefusalAt(t: Tree, plan: seq<Entry>, src: Path, dst: Path, i: nat, e: Errno)
    requires i < |plan|
  {
    && plan[i].path in t && |src| <= |plan[i].path|
    && ItemRefusal(t, src, dst, plan[i], TotalSize(plan, src, i), e)
  }

  lemma {:induction false} TotalGrows(plan: seq<Entry>, src: Path, i: nat, j: nat)
    requires i <= j <= |plan|
    ensures TotalSize(plan, src, i) <= TotalSize(plan, src, j)
    decreases j - i
  {
    if i < j { TotalGrows(plan, src, i, j - 1); }
  }

  lemma OneMoreImage(t: Tree, images: set<Path>, top: set<Path>, q: Path)
    requires q !in images && q !in top
    ensures |Beyond(t, (images + {q}) + top)| == |Beyond(t, images + top)| + (if q in t then 0 else 1)
  {
    OneMore(t, q, images + top);
    assert (images + {q}) + top == {q} + (images + top);
  }

  lemma FirstImage(t: Tree, q: Path, above: set<Path>)
    requires q !in above
    ensures |Beyond(t, {q} + ({q} + above))| == |Beyond(t, above)| + (if q in t then 0 else 1)
    ensures |Beyond(t, {q} + {})| == if q in t then 0 else 1
  {
    OneMore(t, q, above);
    assert {q} + ({q} + above) == {q} + above;
    OneMore(t, q, {});
    assert Beyond(t, {}) == {};
  }

  lemma ImageOfSource(src: Path, dst: Path)
    ensures ImagesOf(src, dst, {src}) == {dst}
  {
    ImageSelf(src, dst);
    assert src in {src};
  }

  lemma FirstCreated(t: Tree, src: Path, dst: Path)
    requires src in t && Canonical(dst)
    ensures |Created(t, src, dst, {src})|
              == (if dst in t then 0 else 1) + (if IsDir(t[src].mode) then |MissingAbove(t, dst)| else 0)
  {
    ImageOfSource(src, dst);
    ChainFresh(dst);
    FirstImage(t, dst, Chain(Parent(dst)));
  }

  lemma FreshImage(src: Path, dst: Path, s: set<Path>, p: Path)
    requires Canonical(src) && Canonical(dst) && Canonical(p) && Within(src, p) && src <= p && p != src
    requires p !in s && forall x :: x in s ==> src <= x
    ensures Image(src, dst, p) !in ImagesOf(src, dst, s) && Image(src, dst, p) !in Chain(dst)
  {
    var q := Image(src, dst, p);
    ImageCanonical(src, dst, p);
    ChainIsAncestors(dst, q);
    if Within(q, dst) { WithinAntisymmetric(dst, q); }
    ImageBack(src, dst, p);
    forall x | x in s && |src| <= |x| ensures Image(src, dst, x) != q { ImageBack(src, dst, x); }
  }

  lemma LaterCreated(t: Tree, src: Path, dst: Path, s: set<Path>, p: Path)
    requires src in t && Canonical(src) && Canonical(dst) && Canonical(p) && Within(src, p) && src <= p && p != src
    requires s != {} && p !in s && forall x :: x in s ==> src <= x
    ensures |Created(t, src, dst, s + {p})| == |Created(t, src, dst, s)| + (if Image(src, dst, p) in t then 0 else 1)
  {
    KeysStep(src, dst, s, p);
    FreshImage(src, dst, s, p);
    OneMoreImage(t, ImagesOf(src, dst, s), if IsDir(t[src].mode) then Chain(dst) else {}, Image(src, dst, p));
  }

  /** The count kept by the preflight is the number of entries the copy creates. */
  lemma CreatedStep(t: Tree, plan: seq<Entry>, src: Path, dst: Path, i: nat)
    requires Placed(t, plan, src, dst) && i < |plan| && Within(src, plan[i].path) && src <= plan[i].path
    requires Canonical(Image(src, dst, plan[i].path))
    ensures var q := Image(src, dst, plan[i].path);
            |Created(t, src, dst, Done(plan, src, i + 1))| ==
              |Created(t, src, dst, Done(plan, src, i))| + (if q in t then 0 else 1)
              + (if plan[i].path == src && IsDir(t[src].mode) then |MissingAbove(t, q)| else 0)
  {
    var p, s := plan[i].path, Done(plan, src, i);
    DoneStep(plan, src, i);
    ParentDone(t, plan, src, dst, i);
    if p == src {
      ImageSelf(src, dst);
      assert s + {p} == {src} && Created(t, src, dst, s) == {};
      FirstCreated(t, src, dst);
    } else {
      forall x | x in s ensures src <= x { DoneIsBelow(t, plan, src, dst, i, x); }
      LaterCreated(t, src, dst, s, p);
    }
  }

  /** The first loop of `copy_plan` with its final bound: passes exactly when the
      copy is acceptable, with the exact number of entries it will create. */
  method CheckPlan(plan: seq<Entry>, src: Path, dst: Path, target: Entry, ghost t: Tree) returns (r: Result<nat>)
    requires Placed(t, plan, src, dst) && target in plan && target.path == src
    ensures r.Ok? <==> Acceptable(t, plan, src, dst)
    ensures r.Ok? ==> r.value == |Created(t, src, dst, Sub(t, src))|
    ensures r.Err? ==> Refusal(t, plan, src, dst, r.errno)
  {
    hide Checked, Acceptable, Refusal;
    var total: nat, newCount: nat := 0, 0;
    CheckedNone(t, plan, src, dst);
    for i := 0 to |plan|
      invariant Checked(t, plan, src, dst, i, total, newCount)
    {
      var entry := CheckEntry(plan, src, dst, target, i, total, newCount, t);
      if entry.Err? { return Err(entry.Code()); }
      total, newCount := entry.value.0, entry.value.1;
    }
    CheckedAll(t, plan, src, dst, total, newCount);
    if |plan| - 1 + newCount > MAX_ENTRIES { return Err(E2BIG); }
    return Ok(newCount);
  }

  /** One entry of the plan: the running totals after it, or why the copy is refused. */
  method CheckEntry(plan: seq<Entry>, src: Path, dst: Path, target: Entry, i: nat, total: nat, newCount: nat,
                    ghost t: Tree)
      returns (r: Result<(nat, nat)>)
    requires Placed(t, plan, src, dst) && target in plan && target.path == src && i < |plan|
    requires Checked(t, plan, src, dst, i, total, newCount)
    ensures r.Ok? ==> Checked(t, plan, src, dst, i + 1, r.value.0, r.value.1)
    ensures r.Err? ==> !Acceptable(t, plan, src, dst) && Refusal(t, plan, src, dst, r.errno)
  {
    var item := plan[i];
    if !Within(src, item.path) {
      CheckedSkip(t, plan, src, dst, i, total, newCount);
      return Ok((total, newCount));
    }
    PlannedItem(t, plan, target);
    ParentDone(t, plan, src, dst, i);
    var fits := CheckItem(plan, src, dst, item, total, item.path == src && IsDir(target.mode), t);
    if fits.Err? {
      assert RefusalAt(t, plan, src, dst, i, fits.errno);
      NotAcceptable(t, plan, src, dst, i);
      return Err(fits.Code());
    }
    CheckedItem(t, plan, src, dst, i, total, newCount, fits.value);
    return Ok((total + (if IsReg(item.mode) then item.size else 0), newCount + fits.value));
  }

  /** What the loop knows before entry `i`. */
  ghost predicate Checked(t: Tree, plan: seq<Entry>, src: Path, dst: Path, i: nat, total: nat, count: nat)
    requires src in t && TreePath(dst)
  {
    && i <= |plan| && FitsSoFar(t, plan, src, dst, i)
    && total == TotalSize(plan, src, i) <= MAX_DATA
    && count == |Created(t, src, dst, Done(plan, src, i))|
  }

  lemma CheckedNone(t: Tree, plan: seq<Entry>, src: Path, dst: Path)
    requires src in t && TreePath(dst)
    ensures Checked(t, plan, src, dst, 0, 0, 0)
  {
    assert Done(plan, src, 0) == {} && ImagesOf(src, dst, {}) == {};
    assert Created(t, src, dst, {}) == {};
  }

  lemma CheckedSkip(t: Tree, plan: seq<Entry>, src: Path, dst: Path, i: nat, total: nat, count: nat)
    requires src in t && TreePath(dst) && i < |plan| && !Within(src, plan[i].path)
    requires Checked(t, plan, src, dst, i, total, count)
    ensures Checked(t, plan, src, dst, i + 1, total, count)
  {
    DoneStep(plan, src, i);
    assert Done(plan, src, i + 1) == Done(plan, src, i);
    FitsMore(t, plan, src, dst, i);
  }

  lemma CheckedItem(t: Tree, plan: seq<Entry>, src: Path, dst: Path, i: nat, total: nat, count: nat, more: nat)
    requires Placed(t, plan, src, dst) && i < |plan| && Within(src, plan[i].path) && src <= plan[i].path
    requires Checked(t, plan, src, dst, i, total, count)
    requires plan[i].path in t && Fits(t, src, dst, plan[i].path) && Canonical(Image(src, dst, plan[i].path))
    requires IsReg(plan[i].mode) ==> total + plan[i].size <= MAX_DATA
    requires var q := Image(src, dst, plan[i].path);
             more == (if q in t then 0 else 1) +
                     (if plan[i].path == src && IsDir(t[src].mode) then |MissingAbove(t, q)| else 0)
    ensures Checked(t, plan, src, dst, i + 1, total + (if IsReg(plan[i].mode) then plan[i].size else 0), count + more)
  {
    CreatedStep(t, plan, src, dst, i);
    FitsMore(t, plan, src, dst, i);
  }

  lemma FitsMore(t: Tree, plan: seq<Entry>, src: Path, dst: Path, i: nat)
    requires i < |plan| && FitsSoFar(t, plan, src, dst, i) && FitsAt(t, src, dst, plan, i)
    ensures FitsSoFar(t, plan, src, dst, i + 1)
  {
    forall j | 0 <= j < i + 1 ensures FitsAt(t, src, dst, plan, j) {
      if j < i { assert FitsAt(t, src, dst, plan, j); }
    }
  }

  lemma CheckedAll(t: Tree, plan: seq<Entry>, src: Path, dst: Path, total: nat, count: nat)
    requires Placed(t, plan, src, dst) && Checked(t, plan, src, dst, |plan|, total, count)
    ensures count == |Created(t, src, dst, Sub(t, src))|
    ensures Acceptable(t, plan, src, dst) <==> |plan| - 1 + count <= MAX_ENTRIES
    ensures Acceptable(t, plan, src, dst) || Refusal(t, plan, src, dst, E2BIG)
  {
    AllFitAtEnd(t, plan, src, dst);
    DoneAll(t, plan, src);
    PathsCount(plan);
    assert |t| == |t.Keys|;
  }

  ghost predicate FitsSoFar(t: Tree, plan: seq<Entry>, src: Path, dst: Path, i: nat) {
    forall j {:trigger FitsAt(t, src, dst, plan, j)} :: 0 <= j < i && j < |plan| ==> FitsAt(t, src, dst, plan, j)
  }

  ghost predicate FitsAt(t: Tree, src: Path, dst: Path, plan: seq<Entry>, j: nat)
    requires j < |plan|
  {
    Within(src, plan[j].path) ==>
      plan[j].path in t && |src| <= |plan[j].path| && Fits(t, src, dst, plan[j].path)
  }

  lemma NotAcceptable(t: Tree, plan: seq<Entry>, src: Path, dst: Path, i: nat)
    requires src in t && TreePath(dst) && i < |plan| && Within(src, plan[i].path) && plan[i].path in t
             && src <= plan[i].path
    requires !Fits(t, src, dst, plan[i].path)
             || (IsReg(plan[i].mode) && TotalSize(plan, src, i) + plan[i].size > MAX_DATA)
    ensures !Acceptable(t, plan, src, dst)
  {
    if !Fits(t, src, dst, plan[i].path) {
      assert plan[i].path in Sub(t, src);
    } else {
      TotalGrows(plan, src, i + 1, |plan|);
      assert TotalSize(plan, src, i + 1) > MAX_DATA;
    }
  }

  lemma AllFitAtEnd(t: Tree, plan: seq<Entry>, src: Path, dst: Path)
    requires Agrees(t, plan) && FitsSoFar(t, plan, src, dst, |plan|)
    ensures AllFit(t, src, dst)
  {
    forall p | p in Sub(t, src) && |src| <= |p| ensures Fits(t, src, dst, p) {
      assert p in PathsOf(plan);
      var j :| 0 <= j < |plan| && plan[j].path == p;
      assert FitsAt(t, src, dst, plan, j);
    }
  }
}
