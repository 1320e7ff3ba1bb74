/** Why no step of a planned copy fails, and what each step adds. */
module CopySteps {
  import opened Paths
  import opened Plans
  import opened Workspaces
  import opened Verification
  import opened Images
  import opened Copying

  // ---------- the order of the plan ----------

  lemma DoneStep(plan: seq<Entry>, src: Path, i: nat)
    requires i < |plan|
    ensures Done(plan, src, i + 1) == Done(plan, src, i) + (if Within(src, plan[i].path) then {plan[i].path} else {})
  {}

  lemma DoneAll(t: Tree, plan: seq<Entry>, src: Path)
    requires Agrees(t, plan)
    ensures Done(plan, src, |plan|) == Sub(t, src)
  {
    forall q | q in Sub(t, src) ensures q in Done(plan, src, |plan|) { assert q in PathsOf(plan); }
    forall q | q in Done(plan, src, |plan|) ensures q in Sub(t, src) { assert q in PathsOf(plan); }
  }

  lemma DoneBefore(plan: seq<Entry>, src: Path, i: nat, q: Path)
    requires Sorted(plan) && i < |plan| && q in PathsOf(plan) && Within(src, q)
    ensures q in Done(plan, src, i) <==> Less(q, plan[i].path)
  {
    var j :| 0 <= j < |plan| && plan[j].path == q;
    LessIrreflexive(q);
    if j < i {
      assert Less(plan[j].path, plan[i].path);
    } else {
      if Less(q, plan[i].path) && j > i { LessTransitive(q, plan[i].path, q); }
      forall k | 0 <= k < i ensures plan[k].path != q { assert Less(plan[k].path, plan[j].path); }
    }
  }

  /** The source comes first, and every object after its own directory. */
  lemma ParentDone(t: Tree, plan: seq<Entry>, src: Path, dst: Path, i: nat)
    requires Placed(t, plan, src, dst) && i < |plan| && Within(src, plan[i].path)
    ensures var p := plan[i].path;
            && p in t && Canonical(p) && src <= p && p !in Done(plan, src, i)
            && (p == src <==> Done(plan, src, i) == {})
            && (p != src ==> Parent(p) in Done(plan, src, i) && Parent(p) in t && IsDir(t[Parent(p)].mode))
  {
    var p := plan[i].path;
    CanonicalNonempty(src);
    assert p in PathsOf(plan);
    assert WellFormedAt(t, p);
    if p == ROOT { WithinRoot(src); }
    DoneBefore(plan, src, i, p);
    LessIrreflexive(p);
    if p == src {
      forall q | q in Done(plan, src, i) ensures false {
        assert q in PathsOf(plan);
        DoneBefore(plan, src, i, q);
        if q != src { WithinLess(src, q); LessTransitive(src, q, src); }
        LessIrreflexive(src);
      }
    } else {
      assert src in PathsOf(plan);
      WithinLess(src, p);
      DoneBefore(plan, src, i, src);
      WithinStep(src, p);
      ParentFacts(p);
      LessPrefix(Parent(p), p);
      assert Parent(p) in PathsOf(plan);
      DoneBefore(plan, src, i, Parent(p));
    }
  }

  // ---------- where things stand between two steps ----------

  lemma DoneIsBelow(t: Tree, plan: seq<Entry>, src: Path, dst: Path, i: nat, q: Path)
    requires Placed(t, plan, src, dst) && i <= |plan| && q in Done(plan, src, i)
    ensures q in Sub(t, src) && Canonical(q) && src <= q
  {
    assert q in PathsOf(plan);
    assert WellFormedAt(t, q);
    CanonicalNonempty(src);
    if q == ROOT { WithinRoot(src); }
  }

  /** Objects outside the destination keep their core. */
  lemma Untouched(t: Tree, now: Tree, src: Path, dst: Path, s: set<Path>, q: Path)
    requires Canonical(dst) && Canonical(src) && Copied(t, now, src, dst, s) && q in t && !Within(dst, q)
    requires forall p :: p in s ==> Within(src, p)
    ensures q in now && Core(now[q]) == Core(t[q]) && now[q].mode == t[q].mode
  {
    assert q in now;
    CanonicalNonempty(src);
    if FileImage(t, src, dst, s, q) {
      var p := Image(dst, src, q);
      ImageBack(dst, src, q);
    }
    assert CopiedAt(t, now, src, dst, s, q);
  }

  /** The image of a directory that has been handled is a directory. */
  lemma ImageDir(t: Tree, now: Tree, src: Path, dst: Path, s: set<Path>, p: Path)
    requires Canonical(dst) && Canonical(src) && Canonical(p) && WellFormed(t) && Copied(t, now, src, dst, s)
    requires p in s && p in t && src <= p && Within(src, p) && IsDir(t[p].mode) && AllFit(t, src, dst)
    ensures var q := Image(src, dst, p); q in now && IsDir(now[q].mode)
  {
    var q := Image(src, dst, p);
    ImageBack(src, dst, p);
    assert q in ImagesOf(src, dst, s);
    assert CopiedAt(t, now, src, dst, s, q);
    assert Fits(t, src, dst, p);
    if q in t { assert IsDir(t[q].mode); }
  }

  /** The state of the copy before entry `i`, an object below the source. */
  ghost predicate Before(t: Tree, plan: seq<Entry>, src: Path, dst: Path, i: nat, now: Tree) {
    && Ready(t, plan, src, dst) && i < |plan| && Within(src, plan[i].path)
    && Copied(t, now, src, dst, Done(plan, src, i))
  }

  /** No path at or above the next image is already the copy of a file. */
  lemma NotFileImage(t: Tree, plan: seq<Entry>, src: Path, dst: Path, i: nat, now: Tree, a: Path)
    requires Before(t, plan, src, dst, i, now) && src <= plan[i].path && Canonical(a)
    requires Within(a, Image(src, dst, plan[i].path))
    ensures !FileImage(t, src, dst, Done(plan, src, i), a)
  {
    var p, s := plan[i].path, Done(plan, src, i);
    ParentDone(t, plan, src, dst, i);
    CanonicalNonempty(a);
    if dst <= a && Image(dst, src, a) in s {
      var p' := Image(dst, src, a);
      DoneIsBelow(t, plan, src, dst, i, p');
      ImageBack(src, dst, p);
      PrefixImage(dst, src, a, Image(src, dst, p));
      AncestorsPresent(t, p', p);
    }
  }

  lemma PrefixImage(dst: Path, src: Path, a: Path, q: Path)
    requires dst <= a && dst <= q && a != ROOT && Within(a, q) && src != ROOT
    ensures Within(Image(dst, src, a), Image(dst, src, q))
  {
    var n := |dst|;
    assert a == q[..|a|] && a[n..] == q[n..][..|a| - n];
    var a', q' := Image(dst, src, a), Image(dst, src, q);
    assert a' == q'[..|a'|];
    if |a| < |q| { assert q'[|a'|] == q[|a|]; }
  }

  /** Everything on the way down to the image of a directory is a directory. */
  lemma DirReady(t: Tree, plan: seq<Entry>, src: Path, dst: Path, i: nat, now: Tree, a: Path)
    requires Before(t, plan, src, dst, i, now) && IsDir(plan[i].mode) && src <= plan[i].path
    requires a in now && Canonical(a) && Within(a, Image(src, dst, plan[i].path))
    ensures IsDir(now[a].mode) && now[a].owned
  {
    var p := plan[i].path;
    ParentDone(t, plan, src, dst, i);
    NotFileImage(t, plan, src, dst, i, now, a);
    assert CopiedAt(t, now, src, dst, Done(plan, src, i), a) && AgreesAt(t, plan, i);
    assert p in Sub(t, src) && Fits(t, src, dst, p);
    if a in t { assert AdmissibleAt(t, a); }
  }

  lemma KeysStep(src: Path, dst: Path, s: set<Path>, p: Path)
    requires |src| <= |p|
    ensures ImagesOf(src, dst, s + {p}) == ImagesOf(src, dst, s) + {Image(src, dst, p)}
  {
    forall q | q in ImagesOf(src, dst, s + {p}) ensures q in ImagesOf(src, dst, s) + {Image(src, dst, p)} {}
    assert p in s + {p};
    forall q | q in ImagesOf(src, dst, s) ensures q in ImagesOf(src, dst, s + {p}) {
      var x :| x in s && |src| <= |x| && Image(src, dst, x) == q;
      assert x in s + {p};
    }
  }

  lemma {:induction false} ChainPresent(t: Tree, p: Path)
    requires WellFormed(t) && p in t && TreePath(p)
    ensures Chain(p) <= t.Keys
    decreases Depth(p)
  {
    if p != ROOT {
      assert WellFormedAt(t, p);
      ParentFacts(p);
      ChainPresent(t, Parent(p));
    }
  }

  lemma FirstKeys(all: set<Path>, q: Path, chain: set<Path>)
    requires q in chain
    ensures all + chain == all + ({} + {q}) + chain
  {}

  lemma LaterKeys(all: set<Path>, images: set<Path>, top: set<Path>, q: Path, chain: set<Path>)
    requires q in chain && chain <= all + images + top + {q}
    ensures (all + images + top) + chain == all + (images + {q}) + top
  {}

  lemma DirKeys(t: Tree, plan: seq<Entry>, src: Path, dst: Path, i: nat, now: Tree)
    requires Before(t, plan, src, dst, i, now) && IsDir(plan[i].mode) && src <= plan[i].path
    requires Canonical(Image(src, dst, plan[i].path))
    ensures now.Keys + Chain(Image(src, dst, plan[i].path))
              == t.Keys + (ImagesOf(src, dst, Done(plan, src, i)) + {Image(src, dst, plan[i].path)}) + Chain(dst)
  {
    var p, s := plan[i].path, Done(plan, src, i);
    var q := Image(src, dst, p);
    ParentDone(t, plan, src, dst, i);
    ChainIsAncestors(q, q);
    if p == src {
      ImageSelf(src, dst);
      assert ImagesOf(src, dst, s) == {} && now.Keys == t.Keys + {} + {};
      FirstKeys(t.Keys, q, Chain(q));
    } else {
      ChainOfImage(t, plan, src, dst, i, now);
      LaterKeys(t.Keys, ImagesOf(src, dst, s), Chain(dst), q, Chain(q));
    }
  }

  lemma ChainOfImage(t: Tree, plan: seq<Entry>, src: Path, dst: Path, i: nat, now: Tree)
    requires Before(t, plan, src, dst, i, now) && src <= plan[i].path && plan[i].path != src
    requires Canonical(Image(src, dst, plan[i].path))
    ensures Chain(Image(src, dst, plan[i].path)) <= now.Keys + {Image(src, dst, plan[i].path)}
    ensures Parent(Image(src, dst, plan[i].path)) in now && IsDir(now[Parent(Image(src, dst, plan[i].path))].mode)
  {
    var p, s := plan[i].path, Done(plan, src, i);
    ParentDone(t, plan, src, dst, i);
    ImageCanonical(src, dst, p);
    ImageDir(t, now, src, dst, s, Parent(p));
    ParentFacts(Image(src, dst, p));
    ChainPresent(now, Parent(Image(src, dst, p)));
  }

  /** Making the image of a directory, with its missing ancestors, is the copy step. */
  lemma DirAfter(t: Tree, plan: seq<Entry>, src: Path, dst: Path, i: nat, now: Tree, after: Tree)
    requires Before(t, plan, src, dst, i, now) && IsDir(plan[i].mode) && src <= plan[i].path
    requires Canonical(Image(src, dst, plan[i].path))
    requires WellFormed(after) && Grown(now, after, Chain(Image(src, dst, plan[i].path)))
    ensures Copied(t, after, src, dst, Done(plan, src, i + 1))
  {
    var p, s := plan[i].path, Done(plan, src, i);
    DoneStep(plan, src, i);
    DirKeys(t, plan, src, dst, i, now);
    KeysStep(src, dst, s, p);
    assert AgreesAt(t, plan, i);
    KeptAll(t, now, after, src, dst, s, p, Chain(Image(src, dst, p)));
    CopiedIntro(t, after, src, dst, s + {p});
  }

  lemma CopiedIntro(t: Tree, after: Tree, src: Path, dst: Path, s: set<Path>)
    requires TreePath(dst) && s != {} && WellFormed(after)
    requires after.Keys == t.Keys + ImagesOf(src, dst, s) + Chain(dst)
    requires forall x :: x in after ==> CopiedAt(t, after, src, dst, s, x)
    ensures Copied(t, after, src, dst, s)
  {}

  lemma KeptAll(t: Tree, now: Tree, after: Tree, src: Path, dst: Path, s: set<Path>, p: Path, more: set<Path>)
    requires TreePath(dst) && Copied(t, now, src, dst, s) && Grown(now, after, more) && p in t && !IsReg(t[p].mode)
    ensures forall x :: x in after ==> CopiedAt(t, after, src, dst, s + {p}, x)
  {
    forall x | x in after ensures CopiedAt(t, after, src, dst, s + {p}, x) {
      FileImageKey(t, src, dst, s, x);
      if x in now { assert CopiedAt(t, now, src, dst, s, x); }
      KeptAt(t, now, after, src, dst, s, p, x);
    }
  }

  lemma FileImageKey(t: Tree, src: Path, dst: Path, s: set<Path>, x: Path)
    ensures FileImage(t, src, dst, s, x) ==> x in ImagesOf(src, dst, s)
  {
    if FileImage(t, src, dst, s, x) {
      ImageBack(dst, src, x);
      assert Image(dst, src, x) in s;
    }
  }

  lemma KeptAt(t: Tree, now: Tree, after: Tree, src: Path, dst: Path, s: set<Path>, p: Path, x: Path)
    requires x in after && p in t && !IsReg(t[p].mode)
    requires FileImage(t, src, dst, s, x) || x in t ==> x in now
    requires x in now ==> CopiedAt(t, now, src, dst, s, x) && Core(after[x]) == Core(now[x])
    requires x !in now ==> FreshDir(after[x])
    ensures CopiedAt(t, after, src, dst, s + {p}, x)
  {
    assert FileImage(t, src, dst, s + {p}, x) <==> FileImage(t, src, dst, s, x);
    if FileImage(t, src, dst, s, x) { assert after[x] == now[x]; }
  }

  // ---------- file steps ----------

  /** The image of the next object is there only if it was there from the start. */
  lemma ImageWasThere(t: Tree, plan: seq<Entry>, src: Path, dst: Path, i: nat, now: Tree)
    requires Before(t, plan, src, dst, i, now) && src <= plan[i].path
    requires Image(src, dst, plan[i].path) in now
    ensures Image(src, dst, plan[i].path) in t
  {
    var p, s := plan[i].path, Done(plan, src, i);
    var q := Image(src, dst, p);
    ParentDone(t, plan, src, dst, i);
    ImageBack(src, dst, p);
    if q in ImagesOf(src, dst, s) {
      var x :| x in s && |src| <= |x| && Image(src, dst, x) == q;
      DoneIsBelow(t, plan, src, dst, i, x);
      ImageBack(src, dst, x);
    } else if q !in t {
      ImageCanonical(src, dst, p);
      ChainIsAncestors(dst, q);
      WithinAntisymmetric(dst, q);
    }
  }

  /** The source file is exactly as planned, and its image an ordinary file or absent. */
  lemma FileReady(t: Tree, plan: seq<Entry>, src: Path, dst: Path, i: nat, now: Tree)
    requires Before(t, plan, src, dst, i, now) && IsReg(plan[i].mode) && src <= plan[i].path
    ensures var p, q := plan[i].path, Image(src, dst, plan[i].path);
            && p in now && p in t && now[p] == t[p] && SameNode(now[p], plan[i], true)
            && Ordinary(now[p]) && !HasSpecialBits(plan[i].mode)
            && Canonical(q) && TreePath(Parent(q)) && p != q
            && (q in now ==> q in t && now[q] == t[q] && Ordinary(now[q]))
  {
    var p, s := plan[i].path, Done(plan, src, i);
    var q := Image(src, dst, p);
    ParentDone(t, plan, src, dst, i);
    ImageCanonical(src, dst, p);
    ParentFacts(q);
    Disjoint(src, dst, p);
    forall x | x in s ensures Within(src, x) { DoneIsBelow(t, plan, src, dst, i, x); }
    Untouched(t, now, src, dst, s, p);
    assert AgreesAt(t, plan, i) && AdmissibleAt(t, p);
    assert p in Sub(t, src) && Fits(t, src, dst, p);
    if q in now { FileImageReady(t, plan, src, dst, i, now); }
  }

  lemma FileImageReady(t: Tree, plan: seq<Entry>, src: Path, dst: Path, i: nat, now: Tree)
    requires Before(t, plan, src, dst, i, now) && src <= plan[i].path && plan[i].path in t
             && IsReg(t[plan[i].path].mode)
    requires Image(src, dst, plan[i].path) in now && Canonical(Image(src, dst, plan[i].path))
    ensures var q := Image(src, dst, plan[i].path); q in t && now[q] == t[q] && Ordinary(now[q])
  {
    var p := plan[i].path;
    var q := Image(src, dst, p);
    ImageWasThere(t, plan, src, dst, i, now);
    NotFileImage(t, plan, src, dst, i, now, q);
    assert CopiedAt(t, now, src, dst, Done(plan, src, i), q);
    assert p in Sub(t, src) && Fits(t, src, dst, p) && AdmissibleAt(t, q);
  }

  lemma OnlyKey(all: set<Path>, q: Path, chain: set<Path>)
    requires chain <= all + {q}
    ensures all + {q} == all + ({} + {q}) + chain
  {}

  lemma FileKeys(t: Tree, plan: seq<Entry>, src: Path, dst: Path, i: nat, now: Tree)
    requires Before(t, plan, src, dst, i, now) && src <= plan[i].path && Canonical(Image(src, dst, plan[i].path))
    requires plan[i].path == src ==> Parent(dst) in t && TreePath(Parent(dst))
    ensures var q := Image(src, dst, plan[i].path);
            now.Keys + {q} == t.Keys + (ImagesOf(src, dst, Done(plan, src, i)) + {q}) + Chain(dst)
  {
    var p, s := plan[i].path, Done(plan, src, i);
    var q := Image(src, dst, p);
    ParentDone(t, plan, src, dst, i);
    if p == src {
      ImageSelf(src, dst);
      ParentFacts(dst);
      ChainPresent(t, Parent(dst));
      assert ImagesOf(src, dst, s) == {} && now.Keys == t.Keys + {} + {};
      OnlyKey(t.Keys, q, Chain(dst));
    } else {
      LaterKeys(t.Keys, ImagesOf(src, dst, s), Chain(dst), q, {q});
    }
  }

  lemma WrittenAll(t: Tree, now: Tree, after: Tree, src: Path, dst: Path, s: set<Path>, p: Path)
    requires TreePath(dst) && Copied(t, now, src, dst, s) && src <= p && p in t && IsReg(t[p].mode)
    requires t[p].mode < 65536 && !HasSpecialBits(t[p].mode)
    requires p in now && now[p] == t[p] && FileWritten(now, after, p, Image(src, dst, p))
    requires Image(src, dst, p) in now ==> Image(src, dst, p) in t && now[Image(src, dst, p)] == t[Image(src, dst, p)]
    requires Image(src, dst, p) in t ==> Image(src, dst, p) in now
    ensures forall x :: x in after ==> CopiedAt(t, after, src, dst, s + {p}, x)
  {
    ImageBack(src, dst, p);
    PlainMode(t[p].mode);
    forall x | x in after ensures CopiedAt(t, after, src, dst, s + {p}, x) {
      if x != Image(src, dst, p) {
        assert x in now && CopiedAt(t, now, src, dst, s, x);
        OtherImage(src, dst, p, x);
        assert FileImage(t, src, dst, s + {p}, x) <==> FileImage(t, src, dst, s, x);
        if FileImage(t, src, dst, s, x) { assert after[x] == now[x]; }
      }
    }
  }

  lemma OtherImage(src: Path, dst: Path, p: Path, x: Path)
    requires src <= p && x != Image(src, dst, p)
    ensures dst <= x ==> Image(dst, src, x) != p
  {
    if dst <= x { ImageBack(dst, src, x); }
  }

  /** Writing the image of a file is the copy step. */
  lemma FileAfter(t: Tree, plan: seq<Entry>, src: Path, dst: Path, i: nat, now: Tree, after: Tree)
    requires Before(t, plan, src, dst, i, now) && IsReg(plan[i].mode) && src <= plan[i].path && plan[i].path in now
    requires plan[i].path == src ==> Parent(dst) in t && TreePath(Parent(dst))
    requires FileWritten(now, after, plan[i].path, Image(src, dst, plan[i].path))
    ensures Copied(t, after, src, dst, Done(plan, src, i + 1))
  {
    var p, s := plan[i].path, Done(plan, src, i);
    DoneStep(plan, src, i);
    FileReady(t, plan, src, dst, i, now);
    FileKeys(t, plan, src, dst, i, now);
    KeysStep(src, dst, s, p);
    assert WellFormedAt(t, p);
    WrittenAll(t, now, after, src, dst, s, p);
    CopiedIntro(t, after, src, dst, s + {p});
  }
}
