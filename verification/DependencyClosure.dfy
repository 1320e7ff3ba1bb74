/** The dependency worklist of the ELF check: which libraries a binary pulls in. */
module DependencyClosure {
  type Name = string

  /** The collected libraries and what each one needs. */
  type Libraries = map<Name, seq<Name>>

  /** A name the loader would look for: needed by the binary, or by a collected library that
      it looks for; `path` is the chain of needs. */
  predicate Chain(libraries: Libraries, needed: seq<Name>, path: seq<Name>) {
    && path != [] && path[0] in needed
    && forall i :: 0 <= i < |path| - 1 ==> path[i] in libraries && path[i + 1] in libraries[path[i]]
  }

  ghost predicate Reachable(libraries: Libraries, needed: seq<Name>, x: Name) {
    exists path :: Chain(libraries, needed, path) && path[|path| - 1] == x
  }

  lemma ReachDirect(libraries: Libraries, needed: seq<Name>, x: Name)
    requires x in needed
    ensures Reachable(libraries, needed, x)
  {
    assert Chain(libraries, needed, [x]) && [x][|[x]| - 1] == x;
  }

  lemma ReachNeeded(libraries: Libraries, needed: seq<Name>, x: Name, y: Name)
    requires Reachable(libraries, needed, x) && x in libraries && y in libraries[x]
    ensures Reachable(libraries, needed, y)
  {
    var path :| Chain(libraries, needed, path) && path[|path| - 1] == x;
    var longer := path + [y];
    assert Chain(libraries, needed, longer) && longer[|longer| - 1] == y;
  }

  ghost predicate NoDuplicates(s: seq<Name>) {
    forall i, j :: 0 <= i < j < |s| ==> s[i] != s[j]
  }

  /** What has been found is reachable, and what is needed is found or still pending. */
  ghost predicate Progress(libraries: Libraries, needed: seq<Name>, closure: Libraries, missing: seq<Name>,
                           pending: seq<Name>) {
    && (forall x :: x in closure ==> x in libraries && closure[x] == libraries[x] && Reachable(libraries, needed, x))
    && (forall x :: x in missing ==> x !in libraries && Reachable(libraries, needed, x))
    && (forall x :: x in pending ==> Reachable(libraries, needed, x))
    && NoDuplicates(missing)
    && (forall x :: x in needed ==> x in closure || x in missing || x in pending)
    && (forall x, y :: x in closure && y in closure[x] ==> y in closure || y in missing || y in pending)
  }

  lemma Skip(libraries: Libraries, needed: seq<Name>, closure: Libraries, missing: seq<Name>, pending: seq<Name>,
             d: Name)
    requires Progress(libraries, needed, closure, missing, pending + [d]) && (d in closure || d in missing)
    ensures Progress(libraries, needed, closure, missing, pending)
  {
    hide Reachable;
  }

  lemma AddMissing(libraries: Libraries, needed: seq<Name>, closure: Libraries, missing: seq<Name>, pending: seq<Name>,
                   d: Name)
    requires Progress(libraries, needed, closure, missing, pending + [d]) && d !in libraries && d !in missing
    ensures Progress(libraries, needed, closure, missing + [d], pending)
  {
    hide Reachable;
    assert d in pending + [d];
  }

  lemma AddLibrary(libraries: Libraries, needed: seq<Name>, closure: Libraries, missing: seq<Name>, pending: seq<Name>,
                   d: Name)
    requires Progress(libraries, needed, closure, missing, pending + [d]) && d in libraries
    ensures Progress(libraries, needed, closure[d := libraries[d]], missing, pending + libraries[d])
  {
    hide Reachable;
    assert d in pending + [d];
    forall y | y in libraries[d] ensures Reachable(libraries, needed, y) { ReachNeeded(libraries, needed, d, y); }
  }

  /** With nothing pending, every chain of needs leads to what has been found. */
  lemma {:induction false} Complete(libraries: Libraries, needed: seq<Name>, closure: Libraries, missing: seq<Name>,
                                    path: seq<Name>, k: nat)
    requires Progress(libraries, needed, closure, missing, []) && Chain(libraries, needed, path) && k < |path|
    ensures path[k] in closure || path[k] in missing
  {
    hide Reachable;
    if k > 0 {
      Complete(libraries, needed, closure, missing, path, k - 1);
      assert path[k - 1] in closure && path[k] in closure[path[k - 1]];
    }
  }

  /** With nothing pending, the books are closed. */
  lemma Finished(libraries: Libraries, needed: seq<Name>, closure: Libraries, missing: seq<Name>)
    requires Progress(libraries, needed, closure, missing, [])
    ensures forall x :: x in closure <==> x in libraries && Reachable(libraries, needed, x)
    ensures forall x :: x in closure ==> closure[x] == libraries[x]
    ensures forall x :: x in missing <==> x !in libraries && Reachable(libraries, needed, x)
    ensures NoDuplicates(missing)
  {
    forall x | Reachable(libraries, needed, x) ensures x in closure || x in missing {
      var path :| Chain(libraries, needed, path) && path[|path| - 1] == x;
      Complete(libraries, needed, closure, missing, path, |path| - 1);
    }
    hide Reachable;
  }

  /** Every name that can ever be met. */
  ghost function Names(libraries: Libraries, needed: seq<Name>): (r: set<Name>)
    ensures forall x :: x in needed ==> x in r
    ensures forall x :: x in libraries ==> Within(libraries[x], r)
  {
    (set x | x in needed) + set x, y | x in libraries && y in libraries[x] :: y
  }

  ghost predicate Within(s: seq<Name>, names: set<Name>) {
    forall y :: y in s ==> y in names
  }

  /** The loop's invariant: `left` are the names not discovered yet. */
  ghost predicate Going(libraries: Libraries, needed: seq<Name>, closure: Libraries, missing: seq<Name>,
                        pending: seq<Name>, left: set<Name>) {
    && Progress(libraries, needed, closure, missing, pending)
    && Within(pending, Names(libraries, needed))
    && forall x :: x in Names(libraries, needed) ==> x in left || x in closure || x in missing
  }

  /** One turn: take the last pending name; a new one is missing, or brings its own needs. */
  method Visit(libraries: Libraries, needed: seq<Name>, closure: Libraries, missing: seq<Name>, pending: seq<Name>,
               ghost left: set<Name>)
    returns (closure': Libraries, missing': seq<Name>, pending': seq<Name>, ghost left': set<Name>)
    requires pending != [] && Going(libraries, needed, closure, missing, pending, left)
    ensures Going(libraries, needed, closure', missing', pending', left')
    ensures (left' == left && |pending'| < |pending|) || |left'| < |left|
  {
    hide Progress, Names, Reachable;
    closure', missing', left' := closure, missing, left;
    var rest, d := pending[..|pending| - 1], pending[|pending| - 1];
    assert pending == rest + [d] && d in Names(libraries, needed);
    pending' := rest;
    if d in closure || d in missing {
      Skip(libraries, needed, closure, missing, rest, d);
    } else if d !in libraries {
      AddMissing(libraries, needed, closure, missing, rest, d);
      missing', left' := missing + [d], left - {d};
    } else {
      AddLibrary(libraries, needed, closure, missing, rest, d);
      closure', left' := closure[d := libraries[d]], left - {d};
      pending' := rest + libraries[d];
    }
  }

  /** The loop, for any finite graph of needs, with or without cycles. */
  method Close(libraries: Libraries, needed: seq<Name>) returns (closure: Libraries, missing: seq<Name>)
    ensures forall x :: x in closure <==> x in libraries && Reachable(libraries, needed, x)
    ensures forall x :: x in closure ==> closure[x] == libraries[x]
    ensures forall x :: x in missing <==> x !in libraries && Reachable(libraries, needed, x)
    ensures NoDuplicates(missing)
  {
    hide Going, Names, Reachable;
    closure, missing := map[], [];
    var pending := needed;
    ghost var left := Names(libraries, needed);
    Start(libraries, needed);
    while pending != []
      invariant Going(libraries, needed, closure, missing, pending, left)
      decreases |left|, |pending|
    {
      closure, missing, pending, left := Visit(libraries, needed, closure, missing, pending, left);
    }
    Finish(libraries, needed, closure, missing, left);
  }

  lemma Start(libraries: Libraries, needed: seq<Name>)
    ensures Going(libraries, needed, map[], [], needed, Names(libraries, needed))
  {
    forall x | x in needed ensures Reachable(libraries, needed, x) { ReachDirect(libraries, needed, x); }
    hide Reachable, Names;
  }

  lemma Finish(libraries: Libraries, needed: seq<Name>, closure: Libraries, missing: seq<Name>, left: set<Name>)
    requires Going(libraries, needed, closure, missing, [], left)
    ensures forall x :: x in closure <==> x in libraries && Reachable(libraries, needed, x)
    ensures forall x :: x in closure ==> closure[x] == libraries[x]
    ensures forall x :: x in missing <==> x !in libraries && Reachable(libraries, needed, x)
    ensures NoDuplicates(missing)
  {
    hide Progress, Reachable;
    Finished(libraries, needed, closure, missing);
  }
}
