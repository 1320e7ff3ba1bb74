/** The workspace the native file helper works on, and the kernel calls it makes.
    Paths map to objects; a directory's size, times and link count change whenever
    an entry in it does, to values the kernel chooses. */
module Workspaces {
  import opened Basics
  import opened Paths
  import opened Plans

  datatype Errno = ENOENT | ENOTDIR | EISDIR | EEXIST | ENOTEMPTY | ESTALE | EINVAL | E2BIG | ENAMETOOLONG | EPERM

  datatype Result<+T> = Ok(value: T) | Err(errno: Errno) {
    /** What `errno` holds when the call failed. */
    function Code(): (e: Errno) { if Err? then errno else ESTALE }
  }

  /** The stage an error report names, and what the helper answers. */
  datatype Stage = PlanStage | TreeStage | OpenStage | RemoveStage | CopyStage

  datatype Outcome = Success | Failure(stage: Stage, errno: Errno)

  datatype Stamp = Stamp(size: nat, mtime: int, mns: nat, ctime: int, cns: nat)

  datatype Node = Node(device: nat, inode: nat, mode: nat, stamp: Stamp, owned: bool, links: nat, content: seq<byte>)

  type Tree = map<Path, Node>

  ghost predicate WellFormedAt(t: Tree, p: Path)
    requires p in t
  {
    && (p == ROOT || (Canonical(p) && Parent(p) in t && IsDir(t[Parent(p)].mode)))
    && (IsReg(t[p].mode) ==> t[p].stamp.size == |t[p].content|)
    && t[p].mode < 65536
  }

  ghost predicate WellFormed(t: Tree) {
    && ROOT in t && IsDir(t[ROOT].mode)
    && forall p {:trigger WellFormedAt(t, p)} :: p in t ==> WellFormedAt(t, p)
  }

  /** An object without what changes in a directory when its entries change. */
  ghost function Core(n: Node): (c: Node) {
    if IsDir(n.mode) then n.(stamp := Stamp(0, 0, 0, 0, 0), links := 0) else n
  }

  /** Everything about a tree that outlives unlinking or creating other entries. */
  ghost function Cores(t: Tree): (c: Tree) {
    map p | p in t :: Core(t[p])
  }

  ghost function Sub(t: Tree, p: Path): (s: set<Path>) {
    set q | q in t && Within(p, q)
  }

  // ---------- path resolution ----------

  /** Why resolving a missing path fails: a component is absent, or a file stands
      where a directory is needed. */
  function Missing(t: Tree, p: Path): (e: Errno)
    requires TreePath(p)
    ensures e == ENOENT || e == ENOTDIR
    decreases Depth(p)
  {
    if p == ROOT then ENOENT else
    ParentFacts(p);
    var d := Parent(p);
    if d in t then (if IsDir(t[d].mode) then ENOENT else ENOTDIR) else Missing(t, d)
  }

  function Lookup(t: Tree, p: Path): (r: Result<Node>)
    requires TreePath(p)
  {
    if p in t then Ok(t[p]) else Err(Missing(t, p))
  }

  function LookupDir(t: Tree, p: Path): (r: Result<Node>)
    requires TreePath(p)
  {
    match Lookup(t, p)
    case Ok(n) => if IsDir(n.mode) then Ok(n) else Err(ENOTDIR)
    case Err(e) => Err(e)
  }

  /** What a plan records of the object at a path. */
  function Snapshot(p: Path, n: Node): (e: Entry) {
    Entry(p, n.device, n.inode, n.mode, n.stamp.size, n.stamp.mtime, n.stamp.mns, n.stamp.ctime, n.stamp.cns)
  }

  /** The object belongs to the user, and no other name leads to a file's bytes. */
  predicate Unshared(n: Node) {
    n.owned && (IsReg(n.mode) ==> n.links == 1)
  }

  /** `same_node`: the entry is the object's snapshot, or would be if the object had the
      entry's size and times. */
  predicate SameNode(n: Node, e: Entry, full: bool): (same: bool)
    ensures full ==> (same <==> Unshared(n) && e == Snapshot(e.path, n))
    ensures !full ==>
              var stamp := Stamp(e.size, e.mtime, e.mns, e.ctime, e.cns);
              (same <==> Unshared(n) && e == Snapshot(e.path, n.(stamp := stamp)))
  {
    && n.owned && n.device == e.device && n.inode == e.inode && n.mode == e.mode
    && (IsReg(n.mode) ==> n.links == 1)
    && (full ==> n.stamp == Stamp(e.size, e.mtime, e.mns, e.ctime, e.cns))
  }

  lemma {:induction false} AncestorsPresent(t: Tree, a: Path, p: Path)
    requires WellFormed(t) && p in t && Canonical(a) && Within(a, p)
    ensures a in t && (a != p ==> IsDir(t[a].mode))
    decreases Depth(p)
  {
    if a != p {
      RootNotCanonical();
      if p == ROOT { WithinRoot(a); }
      assert WellFormedAt(t, p);
      ParentFacts(p);
      WithinStep(a, p);
      AncestorsPresent(t, a, Parent(p));
    }
  }

  /** What `mkdirat(…, 0700)` and the exclusive creation of a file leave behind. */
  predicate FreshDir(n: Node) {
    IsDir(n.mode) && Permissions(n.mode) == 448 && n.mode < 65536 && n.owned
  }

  predicate FreshFile(n: Node) {
    n.mode == 33152 && n.owned && n.links == 1 && n.content == [] && n.stamp.size == 0
  }

  ghost predicate Rewritten(n: Node, was: Node, bytes: seq<byte>, permissions: nat) {
    && n.content == bytes && n.stamp.size == |bytes| && n.mode == 32768 + permissions
    && n.device == was.device && n.inode == was.inode && n.owned == was.owned && n.links == was.links
  }

  /** `t'` is `t` with new directories at those of `s` that were missing. */
  ghost predicate Grown(t: Tree, t': Tree, s: set<Path>) {
    && t'.Keys == t.Keys + s
    && (forall q :: q in t ==> Core(t'[q]) == Core(t[q]))
    && forall q :: q in t' && q !in t ==> FreshDir(t'[q])
  }

  lemma Added(t: Tree, p: Path, n: Node, d: Path, dn: Node)
    requires WellFormed(t) && p !in t && Canonical(p) && Parent(p) == d && d in t && d != p
    requires IsDir(t[d].mode) && Core(dn) == Core(t[d])
    requires FreshDir(n) || FreshFile(n)
    ensures var t' := t[p := n][d := dn];
            WellFormed(t') && t'.Keys == t.Keys + {p} && t'[p] == n && Cores(t') == Cores(t)[p := Core(n)]
  {
    var t' := t[p := n][d := dn];
    assert forall q :: q in t ==> t'[q].mode == t[q].mode;
    forall q | q in t' ensures WellFormedAt(t', q) {
      if q != p { assert WellFormedAt(t, q); }
    }
  }

  lemma Replaced(t: Tree, p: Path, n: Node)
    requires WellFormed(t) && p in t && IsReg(t[p].mode) && IsReg(n.mode) && n.mode < 65536
    requires n.stamp.size == |n.content|
    ensures WellFormed(t[p := n])
  {
    var t' := t[p := n];
    forall q | q in t' ensures WellFormedAt(t', q) {
      assert WellFormedAt(t, q);
    }
  }

  lemma Unlinked(t: Tree, p: Path, d: Path, n: Node)
    requires WellFormed(t) && p in t && p != ROOT && Parent(p) == d && d in t && d != p
    requires IsDir(t[d].mode) && Core(n) == Core(t[d])
    requires forall q :: q in t && q != ROOT ==> Parent(q) != p
    ensures var t' := (t - {p})[d := n];
            WellFormed(t') && t'.Keys == t.Keys - {p} && Cores(t') == Cores(t) - {p}
  {
    var t' := (t - {p})[d := n];
    assert forall q :: q in t' ==> t'[q].mode == t[q].mode;
    forall q | q in t' ensures WellFormedAt(t', q) {
      assert WellFormedAt(t, q);
    }
  }

  /** The elements of a set, each once, in some order. */
  method Listing(s: set<Path>) returns (xs: seq<Path>)
    ensures forall i, j :: 0 <= i < j < |xs| ==> xs[i] != xs[j]
    ensures forall i :: 0 <= i < |xs| ==> xs[i] in s
    ensures forall x :: x in s ==> x in xs
  {
    xs := [];
    var rest := s;
    while rest != {}
      invariant rest <= s
      invariant forall i, j :: 0 <= i < j < |xs| ==> xs[i] != xs[j]
      invariant forall x :: x in xs <==> x in s && x !in rest
      decreases |rest|
    {
      var x :| x in rest;
      xs := xs + [x];
      rest := rest - {x};
    }
  }

  lemma ListedNames(t: Tree, d: Path, listed: seq<Path>)
    requires WellFormed(t) && d in t
    requires forall i :: 0 <= i < |listed| ==> listed[i] in t && listed[i] != ROOT && Parent(listed[i]) == d
    ensures forall i :: 0 <= i < |listed| ==>
              GoodName(Leaf(listed[i])) && NoSlash(Leaf(listed[i])) && Child(d, Leaf(listed[i])) == listed[i]
  {
    forall i | 0 <= i < |listed|
      ensures GoodName(Leaf(listed[i])) && NoSlash(Leaf(listed[i])) && Child(d, Leaf(listed[i])) == listed[i]
    {
      assert WellFormedAt(t, listed[i]);
      ParentFacts(listed[i]);
    }
  }

  method Leaves(listed: seq<Path>) returns (names: seq<Path>)
    ensures |names| == |listed| && forall i :: 0 <= i < |listed| ==> names[i] == Leaf(listed[i])
  {
    names := [];
    for k := 0 to |listed|
      invariant |names| == k && forall i :: 0 <= i < k ==> names[i] == Leaf(listed[i])
    {
      names := names + [Leaf(listed[k])];
    }
  }

  class Workspace {
    var nodes: Tree

    constructor (t: Tree)
      ensures nodes == t
    {
      nodes := t;
    }

    /** `readdir` until the end: every name once, in no fixed order. The entries `.`
        and `..`, which the caller skips, are not listed. */
    method ReadDir(d: Path) returns (names: seq<Path>)
      requires WellFormed(nodes) && d in nodes
      ensures forall i, j :: 0 <= i < j < |names| ==> names[i] != names[j]
      ensures forall i :: 0 <= i < |names| ==> GoodName(names[i]) && NoSlash(names[i]) && Child(d, names[i]) in nodes
      ensures forall q :: q in nodes && q != ROOT && Parent(q) == d ==> Leaf(q) in names
    {
      var listed := Listing(set q | q in nodes && q != ROOT && Parent(q) == d);
      ListedNames(nodes, d, listed);
      names := Leaves(listed);
      forall q | q in nodes && q != ROOT && Parent(q) == d ensures Leaf(q) in names {
        assert q in listed;
        var i :| 0 <= i < |listed| && listed[i] == q;
        assert names[i] == Leaf(q);
      }
    }

    /** `unlinkat`, with `AT_REMOVEDIR` when `directory`. */
    method UnlinkAt(d: Path, leaf: Path, directory: bool) returns (r: Result<()>)
      requires WellFormed(nodes) && d in nodes && IsDir(nodes[d].mode) && GoodName(leaf) && NoSlash(leaf)
      modifies this
      ensures var p := Child(d, leaf);
              r.Ok? <==> p in old(nodes) && IsDir(old(nodes)[p].mode) == directory
                         && forall q :: q in old(nodes) && q != ROOT ==> Parent(q) != p
      ensures r.Ok? ==> WellFormed(nodes) && Cores(nodes) == Cores(old(nodes)) - {Child(d, leaf)}
      ensures r.Err? ==>
                && nodes == old(nodes)
                && r.errno == if Child(d, leaf) !in nodes then ENOENT
                              else if IsDir(nodes[Child(d, leaf)].mode) == directory then ENOTEMPTY
                              else if directory then ENOTDIR else EISDIR
    {
      var p := Child(d, leaf);
      assert WellFormedAt(nodes, d);
      ChildFacts(d, leaf);
      if p !in nodes { return Err(ENOENT); }
      if IsDir(nodes[p].mode) != directory {
        return Err(if directory then ENOTDIR else EISDIR);
      }
      if exists q :: q in nodes && q != ROOT && Parent(q) == p {
        return Err(ENOTEMPTY);
      }
      var stamp: Stamp := *;
      var links: nat := *;
      Unlinked(nodes, p, d, nodes[d].(stamp := stamp, links := links));
      nodes := (nodes - {p})[d := nodes[d].(stamp := stamp, links := links)];
      return Ok(());
    }

    /** `mkdirat` with mode 0700. */
    method MkDirAt(d: Path, leaf: Path) returns (r: Result<()>)
      requires WellFormed(nodes) && d in nodes && IsDir(nodes[d].mode) && GoodName(leaf) && NoSlash(leaf)
      modifies this
      ensures r.Ok? <==> Child(d, leaf) !in old(nodes)
      ensures r.Ok? ==> WellFormed(nodes) && Grown(old(nodes), nodes, {Child(d, leaf)})
      ensures r.Err? ==> nodes == old(nodes)
    {
      var p := Child(d, leaf);
      assert WellFormedAt(nodes, d);
      ChildFacts(d, leaf);
      if p in nodes { return Err(EEXIST); }
      assert FreshDir(Node(0, 0, 16832, Stamp(0, 0, 0, 0, 0), true, 2, []));
      var made: Node :| FreshDir(made);
      var stamp: Stamp := *;
      var links: nat := *;
      Added(nodes, p, made, d, nodes[d].(stamp := stamp, links := links));
      ghost var t := nodes;
      nodes := nodes[p := made][d := nodes[d].(stamp := stamp, links := links)];
      assert forall q :: q in t ==> Cores(nodes)[q] == Cores(t)[q];
      return Ok(());
    }

    /** `openat2` with `O_CREAT|O_EXCL` and mode 0600. */
    method CreateFile(d: Path, leaf: Path) returns (r: Result<()>)
      requires WellFormed(nodes) && d in nodes && IsDir(nodes[d].mode) && GoodName(leaf) && NoSlash(leaf)
      modifies this
      ensures var p := Child(d, leaf);
              && (r.Ok? <==> p !in old(nodes))
              && (r.Ok? ==> WellFormed(nodes) && p in nodes && FreshFile(nodes[p])
                            && Cores(nodes) == Cores(old(nodes))[p := nodes[p]])
      ensures r.Err? ==> nodes == old(nodes)
    {
      var p := Child(d, leaf);
      assert WellFormedAt(nodes, d);
      ChildFacts(d, leaf);
      if p in nodes { return Err(EEXIST); }
      assert FreshFile(Node(0, 0, 33152, Stamp(0, 0, 0, 0, 0), true, 1, []));
      var made: Node :| FreshFile(made);
      var stamp: Stamp := *;
      var links: nat := *;
      Added(nodes, p, made, d, nodes[d].(stamp := stamp, links := links));
      nodes := nodes[p := made][d := nodes[d].(stamp := stamp, links := links)];
      return Ok(());
    }

    /** `ftruncate`, the complete `write`, and `fchmod` of an open regular file. */
    method Rewrite(p: Path, bytes: seq<byte>, permissions: nat)
      requires WellFormed(nodes) && p in nodes && IsReg(nodes[p].mode) && permissions < 512
      modifies this
      ensures WellFormed(nodes) && p in nodes && Rewritten(nodes[p], old(nodes)[p], bytes, permissions)
      ensures nodes == old(nodes)[p := nodes[p]]
    {
      var mtime: int := *;
      var mns: nat := *;
      var ctime: int := *;
      var cns: nat := *;
      var stamp := Stamp(|bytes|, mtime, mns, ctime, cns);
      var n := nodes[p].(content := bytes, stamp := stamp, mode := 32768 + permissions);
      Replaced(nodes, p, n);
      nodes := nodes[p := n];
    }
  }
}
