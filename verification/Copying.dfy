/** Copying a subtree with a verified plan: the steps that change the workspace. */
module Copying {
  import opened Paths
  import opened Plans
  import opened Workspaces
  import opened Verification
  import opened Images

  // ---------- what a copy leaves behind ----------

  /** Same bytes, kind and permission bits as the file it was copied from. */
  ghost predicate CopiedFile(n: Node, from: Node) {
    n.content == from.content && n.stamp.size == |n.content| && n.mode == from.mode && n.owned && n.links == 1
  }

  ghost function ImagesOf(src: Path, dst: Path, s: set<Path>): (i: set<Path>) {
    set p | p in s && |src| <= |p| :: Image(src, dst, p)
  }

  /** `q` is where one of the files in `s` goes. */
  ghost predicate FileImage(t: Tree, src: Path, dst: Path, s: set<Path>, q: Path) {
    dst <= q && var p := Image(dst, src, q); p in s && p in t && IsReg(t[p].mode)
  }

  ghost predicate CopiedAt(t: Tree, now: Tree, src: Path, dst: Path, s: set<Path>, q: Path)
    requires q in now
  {
    if FileImage(t, src, dst, s, q) then
      && CopiedFile(now[q], t[Image(dst, src, q)])
      && (q in t ==> now[q].device == t[q].device && now[q].inode == t[q].inode)
    else if q in t then Core(now[q]) == Core(t[q])
    else FreshDir(now[q])
  }

  /** `now` is `t` after the objects in `s` have been copied: their images and the
      ancestors of the destination exist, every image of a file has that file's
      content, and everything else is as it was. */
  ghost predicate Copied(t: Tree, now: Tree, src: Path, dst: Path, s: set<Path>)
    requires TreePath(dst)
  {
    && WellFormed(now)
    && now.Keys == t.Keys + ImagesOf(src, dst, s) + (if s == {} then {} else Chain(dst))
    && forall q {:trigger CopiedAt(t, now, src, dst, s, q)} :: q in now ==> CopiedAt(t, now, src, dst, s, q)
  }

  // ---------- what the preflight established ----------

  /** The image of `p` is within bounds and meets only objects of its own kind,
      below directories. */
  ghost predicate Fits(t: Tree, src: Path, dst: Path, p: Path)
    requires p in t && |src| <= |p|
  {
    var q := Image(src, dst, p);
    && |q| < PATH_MAX
    && Depth(q) <= MAX_DEPTH + (if IsReg(t[p].mode) then 1 else 0)
    && (q in t ==> Format(t[q].mode) == Format(t[p].mode))
    && (IsReg(t[p].mode) ==> !HasSpecialBits(t[p].mode))
    && (forall a :: a in t && Canonical(a) && Within(a, q) && a != q ==> IsDir(t[a].mode))
  }

  ghost predicate AllFit(t: Tree, src: Path, dst: Path) {
    forall p {:trigger Fits(t, src, dst, p)} :: p in Sub(t, src) && |src| <= |p| ==> Fits(t, src, dst, p)
  }

  /** A verified plan, a source in it, and a destination apart from the source. */
  ghost predicate Placed(t: Tree, plan: seq<Entry>, src: Path, dst: Path) {
    && WellFormed(t) && PlanOk(plan) && Agrees(t, plan) && Admissible(t)
    && Canonical(src) && Canonical(dst) && src in t
    && !Within(src, dst) && !Within(dst, src)
  }

  ghost predicate Ready(t: Tree, plan: seq<Entry>, src: Path, dst: Path) {
    Placed(t, plan, src, dst) && AllFit(t, src, dst)
  }

  /** The planned objects below the source that precede entry `i`. */
  ghost function Done(plan: seq<Entry>, src: Path, i: nat): (s: set<Path>)
    requires i <= |plan|
  {
    set j | 0 <= j < i && Within(src, plan[j].path) :: plan[j].path
  }

  // ---------- directories ----------

  /** What stands on the way to a directory is an owned directory. */
  ghost predicate Walkable(t: Tree, path: Path)
    requires TreePath(path)
  {
    forall a :: a in Chain(path) && a in t ==> IsDir(t[a].mode) && t[a].owned
  }

  /** `copy_directory`: makes the path and every missing ancestor, or finds something else
      on the way and has made nothing. */
  method CopyDirectory(root: Workspace, path: Path) returns (r: Result<()>)
    requires WellFormed(root.nodes) && Canonical(path)
    modifies root
    ensures r.Ok? <==> Walkable(old(root.nodes), path)
    ensures WellFormed(root.nodes) && (r.Ok? ==> Grown(old(root.nodes), root.nodes, Chain(path)))
    ensures r.Err? ==> root.nodes == old(root.nodes)
  {
    hide Walked, Walkable, Grown, Chain, Within, WellFormed, Canonical;
    ghost var t := root.nodes;
    CanonicalNonempty(path);
    WalkStart(t);
    var start := 0;
    ghost var done := ROOT;
    while true
      invariant 0 <= start < |path|
      invariant done == if start == 0 then ROOT else path[..start - 1]
      invariant start > 0 ==> path[start - 1] == SLASH
      invariant TreePath(done) && WellFormed(root.nodes) && done in root.nodes && IsDir(root.nodes[done].mode)
      invariant Walked(t, root.nodes, done)
      decreases |path| - start
    {
      var end := SlashFrom(path, start);
      var prefix := path[..end];
      NextPrefix(path, start, end, done);
      ghost var before := root.nodes;
      var fd := OpenOrMake(root, prefix);
      WalkStep(t, before, root.nodes, done, prefix, fd.Ok?);
      if fd.Err? {
        NotWalkable(t, prefix, path);
        return fd;
      }
      if end == |path| {
        assert prefix == path;
        WalkEnd(t, root.nodes, path);
        return Ok(());
      }
      start, done := end + 1, prefix;
    }
  }

  lemma WalkStart(t: Tree)
    requires WellFormed(t)
    ensures Walked(t, t, ROOT) && ROOT in t && IsDir(t[ROOT].mode)
  {
    assert t.Keys + {} == t.Keys;
  }

  lemma WalkEnd(t: Tree, now: Tree, path: Path)
    requires TreePath(path) && Walked(t, now, path)
    ensures Walkable(t, path) && Grown(t, now, Chain(path))
  {}

  /** How far the walk has come: `done` and its ancestors are there, and nothing was made
      unless one of them was missing. */
  ghost predicate Walked(t: Tree, now: Tree, done: Path)
    requires TreePath(done)
  {
    && Walkable(t, done) && Grown(t, now, Chain(done))
    && (Chain(done) <= t.Keys ==> now == t)
  }

  lemma WalkStep(t: Tree, before: Tree, now: Tree, done: Path, prefix: Path, ok: bool)
    requires WellFormed(t) && TreePath(done) && Canonical(prefix) && Parent(prefix) == done
    requires Chain(prefix) == Chain(done) + {prefix} && Walked(t, before, done)
    requires if prefix in before then now == before && (ok <==> IsDir(before[prefix].mode) && before[prefix].owned)
             else ok && Grown(before, now, {prefix})
    ensures ok ==> Walked(t, now, prefix)
    ensures !ok ==> now == t && prefix in t && !(IsDir(t[prefix].mode) && t[prefix].owned)
  {
    assert before.Keys == t.Keys + Chain(done);
    ChainIsAncestors(done, prefix);
    RootNotCanonical();
    ParentFacts(prefix);
    if Within(prefix, done) { WithinDepth(prefix, done); }
    assert prefix !in Chain(done);
    if prefix in before {
      assert prefix in t;
      forall a | a in Chain(done) ensures a in t {
        ChainIsAncestors(done, a);
        ChainIsAncestors(prefix, a);
        AncestorsPresent(t, a, prefix);
      }
      GrownNothing(t, prefix);
      assert t.Keys + Chain(prefix) == t.Keys;
    } else {
      GrownTwice(t, before, now, Chain(done), {prefix});
    }
  }

  lemma NotWalkable(t: Tree, prefix: Path, path: Path)
    requires Canonical(prefix) && Canonical(path) && Within(prefix, path)
    requires prefix in t && !(IsDir(t[prefix].mode) && t[prefix].owned)
    ensures !Walkable(t, path)
  {
    RootNotCanonical();
    ChainIsAncestors(path, prefix);
  }

  /** One component: the directory is ready, or made when it is missing. */
  method OpenOrMake(root: Workspace, prefix: Path) returns (r: Result<()>)
    requires WellFormed(root.nodes) && Canonical(prefix) && TreePath(Parent(prefix))
    requires Parent(prefix) in root.nodes && IsDir(root.nodes[Parent(prefix)].mode)
    modifies root
    ensures WellFormed(root.nodes)
    ensures var t := old(root.nodes);
            if prefix in t then root.nodes == t && (r.Ok? <==> IsDir(t[prefix].mode) && t[prefix].owned)
            else r.Ok? && Grown(t, root.nodes, {prefix})
    ensures r.Ok? ==> prefix in root.nodes && IsDir(root.nodes[prefix].mode)
  {
    ParentFacts(prefix);
    LookupChild(root.nodes, prefix);
    var fd := LookupDir(root.nodes, prefix);
    if fd.Err? {
      if fd.Code() != ENOENT { return Err(fd.Code()); }
      r := MakeOne(root, prefix);
      if r.Err? { return; }
    }
    if !root.nodes[prefix].owned || !IsDir(root.nodes[prefix].mode) { return Err(EPERM); }
    return Ok(());
  }

  method MakeOne(root: Workspace, prefix: Path) returns (r: Result<()>)
    requires WellFormed(root.nodes) && Canonical(prefix) && TreePath(Parent(prefix)) && prefix !in root.nodes
    requires Parent(prefix) in root.nodes && IsDir(root.nodes[Parent(prefix)].mode)
    modifies root
    ensures r.Ok? && WellFormed(root.nodes) && Grown(old(root.nodes), root.nodes, {prefix})
  {
    ParentFacts(prefix);
    var parent := LookupDir(root.nodes, Parent(prefix));
    if parent.Err? { return Err(parent.Code()); }
    r := root.MkDirAt(Parent(prefix), Leaf(prefix));
  }

  lemma LookupChild(t: Tree, p: Path)
    requires Canonical(p) && TreePath(Parent(p)) && Parent(p) in t && IsDir(t[Parent(p)].mode)
    ensures LookupDir(t, p) == if p !in t then Err(ENOENT) else if IsDir(t[p].mode) then Ok(t[p]) else Err(ENOTDIR)
    ensures LookupDir(t, Parent(p)) == Ok(t[Parent(p)])
  {
    ParentFacts(p);
  }

  lemma GrownNothing(t: Tree, p: Path)
    ensures p in t ==> Grown(t, t, {p})
  {
    if p in t { assert t.Keys + {p} == t.Keys; }
  }

  /** The next prefix is the previous one with one more component. */
  lemma NextPrefix(path: Path, start: nat, end: nat, done: Path)
    requires Canonical(path) && start < |path| && end == SlashFrom(path, start)
    requires TreePath(done) && done == if start == 0 then ROOT else path[..start - 1]
    requires start > 0 ==> path[start - 1] == SLASH
    ensures start < end <= |path| && Canonical(path[..end]) && Within(path[..end], path)
    ensures Parent(path[..end]) == done && Chain(path[..end]) == Chain(done) + {path[..end]}
    ensures end < |path| ==> path[end] == SLASH && end + 1 < |path|
  {
    PrefixBounds(path, start, end);
    PrefixParent(path, start, end);
    hide SlashFrom, Canonical, Within, Parent;
    PrefixPath(path, end);
    ParentFacts(path[..end]);
  }

  lemma PrefixPath(path: Path, end: nat)
    requires Canonical(path) && 0 < end <= |path| && (end < |path| ==> path[end] == SLASH)
    ensures Canonical(path[..end]) && Within(path[..end], path)
  {
    if end < |path| {
      PrefixCanonical(path, end);
    } else {
      assert path[..end] == path;
    }
  }

  lemma PrefixBounds(path: Path, start: nat, end: nat)
    requires Canonical(path) && start < |path| && end == SlashFrom(path, start)
    requires start > 0 ==> path[start - 1] == SLASH
    ensures start < end <= |path| && (end < |path| ==> path[end] == SLASH && end + 1 < |path|)
  {
    CanonicalNonempty(path);
    if start > 0 { NoEmptyComponent(path, start - 1); }
    if end < |path| { NoEmptyComponent(path, end); }
  }

  lemma PrefixParent(path: Path, start: nat, end: nat)
    requires start < end <= |path| && end == SlashFrom(path, start)
    requires start > 0 ==> path[start - 1] == SLASH
    ensures Parent(path[..end]) == if start == 0 then ROOT else path[..start - 1]
  {
    var prefix := path[..end];
    assert LastSlash(prefix) == start - 1;
    if start > 0 { assert prefix[..start - 1] == path[..start - 1]; }
  }

  lemma NoEmptyComponent(path: Path, i: nat)
    requires Canonical(path) && i < |path| && path[i] == SLASH
    ensures 0 < i && i + 1 < |path| && path[i + 1] != SLASH
  {
    CanonicalNonempty(path);
    LastByte(path);
    if path[i + 1] == SLASH {
      PrefixCanonical(path, i + 1);
      LastByte(path[..i + 1]);
    }
  }

  lemma LastByte(path: Path)
    requires Canonical(path)
    ensures |path| > 0 && path[|path| - 1] != SLASH
  {
    CanonicalNonempty(path);
    ParentFacts(path);
    assert |Leaf(path)| > 0;
  }

  lemma GrownTwice(t: Tree, mid: Tree, now: Tree, a: set<Path>, b: set<Path>)
    requires Grown(t, mid, a) && Grown(mid, now, b)
    ensures Grown(t, now, a + b)
  {
    assert now.Keys == t.Keys + (a + b);
  }

  // ---------- files ----------

  /** One file has been written: it has the source's content and permission bits; no other
      object changed but for directory bookkeeping. */
  ghost predicate FileWritten(t: Tree, now: Tree, p: Path, q: Path)
    requires p in t
  {
    && WellFormed(now) && now.Keys == t.Keys + {q}
    && CopiedFile(now[q], t[p].(mode := 32768 + Permissions(t[p].mode)))
    && (q in t ==> now[q].device == t[q].device && now[q].inode == t[q].inode)
    && forall a :: a in t && a != q ==> Core(now[a]) == Core(t[a])
  }

  predicate Ordinary(n: Node) { IsReg(n.mode) && n.owned && n.links == 1 }

  lemma PlainMode(mode: nat)
    requires IsReg(mode) && mode < 65536 && !HasSpecialBits(mode)
    ensures mode == 32768 + Permissions(mode)
  {}

  /** `copy_file`: which step fails, and that a failed one leaves the tree as it was. */
  method CopyFile(root: Workspace, source: Entry, destination: Path) returns (r: Outcome)
    requires WellFormed(root.nodes) && TreePath(source.path) && Canonical(destination) && TreePath(Parent(destination))
    modifies root
    ensures var t := old(root.nodes);
            if source.path !in t then r == Failure(OpenStage, Missing(t, source.path)) && root.nodes == t
            else if !Ordinary(t[source.path]) then r == Failure(OpenStage, EPERM) && root.nodes == t
            else if !SameNode(t[source.path], source, true) then r == Failure(TreeStage, ESTALE) && root.nodes == t
            else if destination in t && !Ordinary(t[destination]) then r == Failure(OpenStage, EPERM) && root.nodes == t
            else if destination in t || (Parent(destination) in t && IsDir(t[Parent(destination)].mode)) then
              r == Success && FileWritten(t, root.nodes, source.path, destination)
            else
              r == Failure(OpenStage, Missing(t, destination)) && root.nodes == t
  {
    ghost var t := root.nodes;
    var pin := Lookup(root.nodes, source.path);
    if pin.Err? { return Failure(OpenStage, pin.Code()); }
    if !Ordinary(pin.value) { return Failure(OpenStage, EPERM); }
    var input := pin.value;
    if !SameNode(input, source, true) { return Failure(TreeStage, ESTALE); }
    assert WellFormedAt(t, source.path);
    if |input.content| != source.size { return Failure(TreeStage, ESTALE); }
    var output := PinnedOpen(root, destination);
    if output.Err? { return Failure(OpenStage, output.Code()); }
    ghost var ready := root.nodes;
    root.Rewrite(destination, input.content, Permissions(source.mode));
    WrittenFile(t, ready, root.nodes, source.path, destination);
    return Success;
  }

  /** `pinned_open` for writing: an ordinary file as it is, or a new one created
      exclusively. */
  method PinnedOpen(root: Workspace, path: Path) returns (r: Result<()>)
    requires WellFormed(root.nodes) && Canonical(path) && TreePath(Parent(path))
    modifies root
    ensures var t := old(root.nodes);
            if path in t then r == (if Ordinary(t[path]) then Ok(()) else Err(EPERM)) && root.nodes == t
            else if Parent(path) in t && IsDir(t[Parent(path)].mode) then
              r.Ok? && WellFormed(root.nodes) && path in root.nodes && FreshFile(root.nodes[path])
              && Cores(root.nodes) == Cores(t)[path := root.nodes[path]]
            else r == Err(Missing(t, path)) && root.nodes == t
  {
    ParentFacts(path);
    var pin := Lookup(root.nodes, path);
    if pin.Ok? {
      if !Ordinary(pin.value) { return Err(EPERM); }
      return Ok(());
    }
    if pin.Code() != ENOENT { return Err(pin.Code()); }
    var parent := LookupDir(root.nodes, Parent(path));
    if parent.Err? { return Err(parent.Code()); }
    r := root.CreateFile(Parent(path), Leaf(path));
  }

  lemma WrittenFile(t: Tree, ready: Tree, now: Tree, p: Path, q: Path)
    requires WellFormed(t) && p in t && Ordinary(t[p]) && WellFormed(ready) && WellFormed(now) && q in ready && q in now
    requires if q in t then ready == t && Ordinary(t[q])
             else FreshFile(ready[q]) && Cores(ready) == Cores(t)[q := ready[q]]
    requires Rewritten(now[q], ready[q], t[p].content, Permissions(t[p].mode)) && now == ready[q := now[q]]
    ensures FileWritten(t, now, p, q)
  {
    assert ready.Keys == Cores(ready).Keys && t.Keys == Cores(t).Keys;
    forall a | a in t && a != q ensures Core(now[a]) == Core(t[a]) {
      assert Cores(ready)[a] == Cores(t)[a];
    }
  }
}
