/** The environment router: thread locations learned from successful responses only. */
module Routing {
  import opened Basics

  // ---------- values as they arrive ----------

  /** A JSON value where a path, or a list of paths, is expected. */
  datatype Raw = Null | Text(s: string) | Junk
  datatype RawRoots = NoRoots | Roots(items: seq<Raw>) | JunkRoots

  /** `environments`: absent or null, empty, one item, or anything else. */
  datatype Environments = Absent | Empty | One(known: bool, cwd: Raw, roots: RawRoots) | JunkEnvironments

  type Id = int
  type Thread = Option<string>

  datatype Method = Initialize | ThreadStart | TurnStart | ThreadResume | ThreadFork | SettingsUpdate | OtherMethod
  datatype Params = Params(thread: Thread, cwd: Raw, roots: RawRoots, environments: Environments, capabilities: bool)
  datatype Request = Request(id: Option<Id>, name: Method, params: Option<Params>)

  datatype Reply = Failed | Shapeless | Done(thread: Option<string>, cwd: Raw, roots: RawRoots)
  datatype Incoming = Updated(thread: Thread, cwd: Option<Raw>) | Answer(id: Id, reply: Reply) | OtherMessage

  /** An absolute GNU path, or nothing. */
  function Absolute(r: Raw): (p: Option<string>)
    ensures p.Some? ==> r == Text(p.value) && |p.value| > 0 && p.value[..1] == "/"
    ensures p.None? ==> !r.Text? || |r.s| == 0 || r.s[0] != '/' || exists i :: 0 <= i < |r.s| && r.s[i] == '\0'
    ensures p.Some? ==> forall i :: 0 <= i < |p.value| ==> p.value[i] != '\0'
  {
    if r.Text? && r.s != "" && r.s[0] == '/' && '\0' !in r.s then Some(r.s) else None
  }

  predicate AllAbsolute(items: seq<Raw>) {
    forall i :: 0 <= i < |items| ==> Absolute(items[i]).Some?
  }

  function Paths(items: seq<Raw>): (ps: seq<string>)
    requires AllAbsolute(items)
  {
    seq(|items|, i requires 0 <= i < |items| => Absolute(items[i]).value)
  }

  /** The listed paths, all absolute. */
  ghost predicate Names(items: seq<Raw>, paths: seq<string>) {
    |paths| == |items| && forall i :: 0 <= i < |items| ==> Absolute(items[i]) == Some(paths[i])
  }

  // ---------- locations ----------

  datatype Location = Location(cwd: string, roots: Option<seq<string>>, enabled: bool)
  datatype Selection = Selection(environment: string, cwd: string, roots: Option<seq<string>>)
  datatype Choice = Bad | Chosen(environments: seq<Selection>, location: Location)

  /** Each element once, in the order of first appearance. */
  function Distinct(s: seq<string>): (r: seq<string>)
    ensures forall x :: x in r <==> x in s
    ensures forall i, j :: 0 <= i < j < |r| ==> r[i] != r[j]
  {
    if s == [] then []
    else
      var r, x := Distinct(s[..|s| - 1]), s[|s| - 1];
      assert s == s[..|s| - 1] + [x];
      if x in r then r else r + [x]
  }

  lemma {:induction false} DistinctOrder(s: seq<string>, i: nat, j: nat, b: nat)
    requires i < j < |Distinct(s)| && b < |s| && s[b] == Distinct(s)[j]
    ensures exists a :: 0 <= a < b && s[a] == Distinct(s)[i]
  {
    var n := |s| - 1;
    var r := Distinct(s[..n]);
    if j < |r| && b < n {
      DistinctOrder(s[..n], i, j, b);
    } else if j == |r| {
      assert r[i] in s[..n] && s[n] !in s[..n];
    } else {
      assert r[j] in s[..n];
      var c :| 0 <= c < n && s[..n][c] == r[j];
      DistinctOrder(s[..n], i, j, c);
    }
  }

  lemma {:induction false} DistinctSame(s: seq<string>)
    requires forall i, j :: 0 <= i < j < |s| ==> s[i] != s[j]
    ensures Distinct(s) == s
  {
    if s != [] {
      DistinctSame(s[..|s| - 1]);
      assert s == s[..|s| - 1] + [s[|s| - 1]];
    }
  }

  function Moved(roots: seq<string>, from: string, to: string): (r: seq<string>) {
    seq(|roots|, i requires 0 <= i < |roots| => if roots[i] == from then to else roots[i])
  }

  /** The roots of a thread that changes directory: the old one gives way to the new. */
  function Retarget(prior: Option<Location>, cwd: string): (roots: Option<seq<string>>)
    ensures roots.Some? <==> prior.Some? && prior.value.roots.Some?
    ensures roots.Some? ==> forall x :: x in roots.value <==>
              || (x != prior.value.cwd && x in prior.value.roots.value)
              || (x == cwd && prior.value.cwd in prior.value.roots.value)
  {
    if prior.None? || prior.value.roots.None? then None
    else
      var before := prior.value.roots.value;
      var moved := Moved(before, prior.value.cwd, cwd);
      assert forall i :: 0 <= i < |before| ==> moved[i] == if before[i] == prior.value.cwd then cwd else before[i];
      Some(Distinct(moved))
  }

  /** No environment, or exactly one with the router's id. */
  predicate AtMostOwn(router: string, environments: seq<Selection>) {
    environments == [] || (|environments| == 1 && environments[0].environment == router)
  }

  /** What the router puts in `environments`, and where that would leave the thread. */
  function Select(router: string, fallback: string, p: Params, prior: Option<Location>): (c: Choice)
    ensures c.Chosen? ==> AtMostOwn(router, c.environments)
    ensures c.Chosen? ==> (c.location.enabled <==> c.environments != [])
    ensures var kept := p.environments.Absent? && (prior.Some? ==> prior.value.enabled);
            c.Chosen? ==> (c.location.enabled <==> p.environments.One? || kept)
  {
    var disabled := p.environments.Empty? || (p.environments.Absent? && prior.Some? && !prior.value.enabled);
    if p.environments.JunkEnvironments? || (p.environments.One? && !p.environments.known) then Bad
    else
      var given := if p.environments.One? then p.environments.cwd else p.cwd;
      var roots := if p.environments.One? then p.environments.roots else p.roots;
      if (p.environments.One? || !given.Null?) && Absolute(given).None? then Bad
      else if roots.JunkRoots? || (roots.Roots? && !AllAbsolute(roots.items)) then Bad
      else
        var cwd := if Absolute(given).Some? then Absolute(given).value
                   else if prior.Some? then prior.value.cwd else fallback;
        var selected := if roots.Roots? then Some(Paths(roots.items))
                        else if p.environments.One? then None else Retarget(prior, cwd);
        Chosen(if disabled then [] else [Selection(router, cwd, selected)],
               Location(cwd, Some(if selected.Some? then selected.value else [cwd]), !disabled))
  }

  /** What a request proposes, given where its thread is when it is sent. */
  datatype Proposal = Refuse | Propose(environments: Option<seq<Selection>>, location: Option<Location>)

  function Consider(router: string, fallback: string, r: Request, prior: Option<Location>): (q: Proposal)
    requires r.params.Some?
    ensures q.Propose? && q.environments.Some? ==>
              AtMostOwn(router, q.environments.value)
  {
    var p := r.params.value;
    if r.name.Initialize? && !p.capabilities then Refuse
    else if r.name.TurnStart? && prior.None? && p.cwd.Null? && p.environments.Absent? then Refuse
    else if r.name.ThreadStart? || r.name.TurnStart? then
      match Select(router, fallback, p, prior)
      case Bad => Refuse
      case Chosen(environments, location) => Propose(Some(environments), Some(location))
    else if r.name.SettingsUpdate? && !p.cwd.Null? then
      if Absolute(p.cwd).None? then Refuse
      else
        var cwd := Absolute(p.cwd).value;
        Propose(None, Some(Location(cwd, Retarget(prior, cwd), prior.Some? ==> prior.value.enabled)))
    else Propose(None, None)
  }

  function Asked(router: string, fallback: string, r: Request, prior: Option<Location>): (l: Option<Location>)
    requires r.params.Some?
  {
    var q := Consider(router, fallback, r, prior);
    if q.Propose? then q.location else None
  }

  /** Where an answer leaves the thread it is about, if it is a success of the right shape. */
  datatype Landing = Nowhere | At(thread: Thread, location: Location)

  function Land(name: Method, thread: Thread, location: Option<Location>, reply: Reply,
                prior: Option<Location>): (l: Landing) {
    if !reply.Done? then Nowhere
    else if name.ThreadStart? || name.ThreadResume? || name.ThreadFork? then
      if reply.thread.None? || Absolute(reply.cwd).None? || reply.roots.JunkRoots?
         || (reply.roots.Roots? && !AllAbsolute(reply.roots.items)) then Nowhere
      else if location.Some? && location.value.enabled then At(reply.thread, location.value)
      else
        var roots := if reply.roots.Roots? then Some(Paths(reply.roots.items)) else None;
        var enabled := if location.Some? then location.value.enabled else prior.Some? ==> prior.value.enabled;
        At(reply.thread, Location(Absolute(reply.cwd).value, roots, enabled))
    else if (name.TurnStart? || name.SettingsUpdate?) && location.Some? then At(thread, location.value)
    else Nowhere
  }

  // ---------- what a request may ask for and where it leads ----------

  ghost predicate Unrepeated(s: seq<string>) {
    forall i, j :: 0 <= i < j < |s| ==> s[i] != s[j]
  }

  /** `r` has each element of `s` once, in the order of first appearance. */
  ghost predicate Once(s: seq<string>, r: seq<string>) {
    && Unrepeated(r) && (forall x :: x in r <==> x in s)
    && forall i, j, b :: 0 <= i < j < |r| && 0 <= b < |s| && s[b] == r[j] ==> exists a :: 0 <= a < b && s[a] == r[i]
  }

  /** The roots of a thread that has moved to `cwd`: those it had, the directory it left
      replaced by the new one. */
  ghost predicate Follows(before: Option<Location>, cwd: string, roots: Option<seq<string>>) {
    if before.None? || before.value.roots.None? then roots.None?
    else
      var from, had := before.value.cwd, before.value.roots.value;
      && roots.Some?
      && Once(seq(|had|, i requires 0 <= i < |had| => if had[i] == from then cwd else had[i]), roots.value)
      && (cwd == from && Unrepeated(had) ==> roots.value == had)
  }

  lemma RetargetFollows(before: Option<Location>, cwd: string)
    ensures Follows(before, cwd, Retarget(before, cwd))
  {
    if before.Some? && before.value.roots.Some? {
      var from, had := before.value.cwd, before.value.roots.value;
      var moved := seq(|had|, i requires 0 <= i < |had| => if had[i] == from then cwd else had[i]);
      assert moved == Moved(had, from, cwd);
      DistinctIsOnce(moved);
      if cwd == from && Unrepeated(had) {
        assert moved == had;
        DistinctSame(had);
      }
    }
  }

  lemma DistinctIsOnce(s: seq<string>)
    ensures Once(s, Distinct(s))
  {
    var r := Distinct(s);
    forall i, j, b | 0 <= i < j < |r| && 0 <= b < |s| && s[b] == r[j]
      ensures exists a :: 0 <= a < b && s[a] == r[i]
    {
      DistinctOrder(s, i, j, b);
    }
  }

  ghost predicate RootsFine(roots: RawRoots) {
    roots.NoRoots? || (roots.Roots? && exists paths :: Names(roots.items, paths))
  }

  lemma RootsFineWhen(roots: RawRoots)
    ensures RootsFine(roots) <==> !roots.JunkRoots? && (roots.Roots? ==> AllAbsolute(roots.items))
  {
    if roots.Roots? && AllAbsolute(roots.items) { assert Names(roots.items, Paths(roots.items)); }
  }

  ghost predicate Has(before: Option<Location>) {
    before.Some? && before.value.roots.Some?
  }

  predicate Disabled(l: Option<Location>) {
    l.Some? && !l.value.enabled
  }

  /** What a request must be, apart from its id, to be let through. */
  ghost predicate Proper(r: Request, before: Option<Location>)
    requires r.params.Some?
  {
    var p := r.params.value;
    match r.name
    case Initialize => p.capabilities
    case SettingsUpdate => p.cwd.Null? || Absolute(p.cwd).Some?
    case OtherMethod => false
    case ThreadResume => true
    case ThreadFork => true
    case _ =>
      && (match p.environments
          case JunkEnvironments => false
          case One(known, cwd, roots) => known && Absolute(cwd).Some? && RootsFine(roots)
          case _ => (p.cwd.Null? || Absolute(p.cwd).Some?) && RootsFine(p.roots))
      && (r.name.TurnStart? ==> before.Some? || !p.cwd.Null? || !p.environments.Absent?)
  }

  /** Where a started thread or turn is: in the directory and roots of the environment it
      names, or else in those it names itself, or else where the thread was, or else, for
      a thread without a location, in the default directory. */
  ghost predicate Takes(fallback: string, p: Params, before: Option<Location>, l: Location) {
    var e := p.environments;
    var given := if e.One? then e.roots else p.roots;
    && (e.One? ==> e.cwd == Text(l.cwd))
    && (!e.One? && !p.cwd.Null? ==> p.cwd == Text(l.cwd))
    && (!e.One? && p.cwd.Null? && before.Some? ==> l.cwd == before.value.cwd)
    && (!e.One? && p.cwd.Null? && before.None? ==> l.cwd == fallback)
    && l.roots.Some?
    && (given.Roots? ==> Names(given.items, l.roots.value))
    && (given.NoRoots? && (e.One? || !Has(before)) ==> l.roots.value == [l.cwd])
    && (given.NoRoots? && !e.One? && Has(before) ==> Follows(before, l.cwd, l.roots))
    && (l.enabled <==> e.One? || (e.Absent? && !Disabled(before)))
  }

  /** What the request then carries: nothing for a thread without access, else one
      environment at that very place, with roots if any are named or known. */
  ghost predicate Offers(router: string, p: Params, before: Option<Location>, l: Location, offer: seq<Selection>) {
    var e := p.environments;
    if !l.enabled then offer == []
    else
      && |offer| == 1 && offer[0].environment == router && offer[0].cwd == l.cwd
      && (offer[0].roots.Some? <==> if e.One? then e.roots.Roots? else p.roots.Roots? || Has(before))
      && (offer[0].roots.Some? ==> offer[0].roots == l.roots)
  }

  lemma SelectPlaces(router: string, fallback: string, p: Params, before: Option<Location>)
    ensures var c := Select(router, fallback, p, before);
            && (c.Chosen? ==> Takes(fallback, p, before, c.location))
            && (c.Chosen? ==> Offers(router, p, before, c.location, c.environments))
  {
    hide Follows, Retarget;
    var c := Select(router, fallback, p, before);
    if c.Chosen? { RetargetFollows(before, c.location.cwd); }
  }

  /** What the router makes of a request, told without how it computes it. */
  lemma ConsiderPlaces(router: string, fallback: string, r: Request, before: Option<Location>)
    requires r.params.Some? && !r.name.OtherMethod?
    ensures var q, p := Consider(router, fallback, r, before), r.params.value;
            var starts := r.name.ThreadStart? || r.name.TurnStart?;
            var moves := r.name.SettingsUpdate? && !p.cwd.Null?;
            && (q.Propose? <==> Proper(r, before))
            && (q.Propose? ==> (q.environments.Some? <==> starts) && (q.location.Some? <==> starts || moves))
            && (q.Propose? && starts ==> Takes(fallback, p, before, q.location.value))
            && (q.Propose? && starts ==> Offers(router, p, before, q.location.value, q.environments.value))
            && (q.Propose? && moves ==> MovesTo(p, before, q.location.value))
  {
    var p := r.params.value;
    SelectPlaces(router, fallback, p, before);
    RootsFineWhen(p.roots);
    if p.environments.One? { RootsFineWhen(p.environments.roots); }
    if Absolute(p.cwd).Some? { RetargetFollows(before, Absolute(p.cwd).value); }
    hide Takes, Offers, Follows, Retarget, RootsFine, AllAbsolute;
  }

  /** Changed settings move the thread to the directory they name. */
  ghost predicate MovesTo(p: Params, before: Option<Location>, l: Location) {
    p.cwd == Text(l.cwd) && Follows(before, l.cwd, l.roots) && (l.enabled <==> !Disabled(before))
  }

  /** Where the answer itself puts the thread. */
  ghost predicate ReportedAt(reply: Reply, l: Location)
    requires reply.Done?
  {
    && reply.cwd == Text(l.cwd)
    && (if reply.roots.Roots? then l.roots.Some? && Names(reply.roots.items, l.roots.value) else l.roots.None?)
  }

  /** Where a successful answer leaves the thread it is about. */
  ghost predicate Leads(fallback: string, r: Request, before: Option<Location>, now: Option<Location>, reply: Reply,
                        l: Location)
    requires r.params.Some? && reply.Done?
  {
    var p := r.params.value;
    match r.name
    case TurnStart => Takes(fallback, p, before, l)
    case ThreadStart =>
      if AsksAccess(r, before, now) then Takes(fallback, p, before, l) else ReportedAt(reply, l) && !l.enabled
    case SettingsUpdate => MovesTo(p, before, l)
    case _ => ReportedAt(reply, l) && (l.enabled <==> !Disabled(now))
  }

  // ---------- the reference: what a trace says ----------

  /** Accepted requests and everything received, in order. */
  datatype Event = Sent(request: Request) | Got(m: Incoming)

  predicate WellFormed(trace: seq<Event>) {
    forall i :: 0 <= i < |trace| && trace[i].Sent? ==> trace[i].request.id.Some? && trace[i].request.params.Some?
  }

  /** The request that an answer with this id would belong to. */
  function Origin(trace: seq<Event>, id: Id): (i: Option<nat>)
    ensures i.Some? ==> i.value < |trace| && trace[i.value].Sent? && trace[i.value].request.id == Some(id)
  {
    if trace == [] then None
    else
      var n := |trace| - 1;
      match trace[n]
      case Sent(r) => if r.id == Some(id) then Some(n) else Origin(trace[..n], id)
      case Got(m) => if m.Answer? && m.id == id then None else Origin(trace[..n], id)
  }

  /** The location of a thread: its last success or settings notification, nothing else. */
  function Where(router: string, fallback: string, trace: seq<Event>, t: Thread): (l: Option<Location>)
    requires WellFormed(trace)
    decreases |trace|, 0
  {
    if trace == [] then None
    else
      var n := |trace| - 1;
      var prior := Where(router, fallback, trace[..n], t);
      match trace[n]
      case Sent(_) => prior
      case Got(Updated(u, cwd)) =>
        if u == t && prior.Some? && cwd.Some? && Absolute(cwd.value).Some? then
          var path := Absolute(cwd.value).value;
          Some(Location(path, Retarget(prior, path), prior.value.enabled))
        else prior
      case Got(Answer(id, reply)) =>
        var i := Origin(trace[..n], id);
        if i.None? then prior
        else
          var r := trace[i.value].request;
          var before := Where(router, fallback, trace[..i.value], r.params.value.thread);
          var now := Where(router, fallback, trace[..n], r.params.value.thread);
          var l := Land(r.name, r.params.value.thread, Asked(router, fallback, r, before), reply, now);
          if l.At? && l.thread == t then Some(l.location) else prior
      case Got(OtherMessage) => prior
  }

  // ---------- the router ----------

  datatype Pending = Pending(name: Method, thread: Thread, location: Option<Location>)
  datatype Outcome = Unchanged | Rewritten(environments: Option<seq<Selection>>) | Refused

  function Get<K, V>(m: map<K, V>, k: K): (v: Option<V>) {
    if k in m then Some(m[k]) else None
  }

  /** What the router remembers of the request at `i`. */
  function Recall(router: string, fallback: string, trace: seq<Event>, i: nat): (p: Pending)
    requires WellFormed(trace) && i < |trace| && trace[i].Sent?
  {
    var r := trace[i].request;
    var t := r.params.value.thread;
    Pending(r.name, t, Asked(router, fallback, r, Where(router, fallback, trace[..i], t)))
  }

  ghost predicate Placed(router: string, fallback: string, trace: seq<Event>, locations: map<Thread, Location>)
    requires WellFormed(trace)
  {
    forall t :: Get(locations, t) == Where(router, fallback, trace, t)
  }

  ghost predicate Awaited(router: string, fallback: string, trace: seq<Event>, pending: map<Id, Pending>)
    requires WellFormed(trace)
  {
    forall id :: AwaitedAt(router, fallback, trace, pending, id)
  }

  ghost predicate AwaitedAt(router: string, fallback: string, trace: seq<Event>, pending: map<Id, Pending>, id: Id)
    requires WellFormed(trace)
  {
    var i := Origin(trace, id);
    Get(pending, id) == if i.Some? then Some(Recall(router, fallback, trace, i.value)) else None
  }

  lemma AppendSent(router: string, fallback: string, trace: seq<Event>, r: Request,
                   locations: map<Thread, Location>, pending: map<Id, Pending>, p: Pending)
    requires WellFormed(trace) && r.id.Some? && r.params.Some?
    requires Placed(router, fallback, trace, locations) && Awaited(router, fallback, trace, pending)
    requires var t := r.params.value.thread;
             p == Pending(r.name, t, Asked(router, fallback, r, Get(locations, t)))
    ensures WellFormed(trace + [Sent(r)])
    ensures Placed(router, fallback, trace + [Sent(r)], locations)
    ensures Awaited(router, fallback, trace + [Sent(r)], pending[r.id.value := p])
  {
    var trace', pending' := trace + [Sent(r)], pending[r.id.value := p];
    assert trace'[..|trace|] == trace;
    forall id ensures AwaitedAt(router, fallback, trace', pending', id) {
      assert AwaitedAt(router, fallback, trace, pending, id);
      var i := Origin(trace, id);
      if i.Some? { assert trace'[..i.value] == trace[..i.value]; }
    }
  }

  lemma AppendNotice(router: string, fallback: string, trace: seq<Event>, m: Incoming,
                     locations: map<Thread, Location>, pending: map<Id, Pending>)
    requires WellFormed(trace) && !m.Answer?
    requires Placed(router, fallback, trace, locations) && Awaited(router, fallback, trace, pending)
    ensures WellFormed(trace + [Got(m)])
    ensures Placed(router, fallback, trace + [Got(m)], Noticed(locations, m))
    ensures Awaited(router, fallback, trace + [Got(m)], pending)
  {
    var trace' := trace + [Got(m)];
    assert trace'[..|trace|] == trace;
    forall id ensures AwaitedAt(router, fallback, trace', pending, id) {
      assert AwaitedAt(router, fallback, trace, pending, id);
      var i := Origin(trace, id);
      if i.Some? { assert trace'[..i.value] == trace[..i.value]; }
    }
    forall t ensures Get(Noticed(locations, m), t) == Where(router, fallback, trace', t) {
      assert Get(locations, t) == Where(router, fallback, trace, t);
    }
  }

  function Noticed(locations: map<Thread, Location>, m: Incoming): (l: map<Thread, Location>) {
    if m.Updated? && m.thread in locations && m.cwd.Some? && Absolute(m.cwd.value).Some? then
      var prior, path := locations[m.thread], Absolute(m.cwd.value).value;
      locations[m.thread := Location(path, Retarget(Some(prior), path), prior.enabled)]
    else locations
  }

  lemma AppendAnswer(router: string, fallback: string, trace: seq<Event>, id: Id, reply: Reply,
                     locations: map<Thread, Location>, pending: map<Id, Pending>)
    requires WellFormed(trace)
    requires Placed(router, fallback, trace, locations) && Awaited(router, fallback, trace, pending)
    ensures var trace' := trace + [Got(Answer(id, reply))];
            && WellFormed(trace')
            && Placed(router, fallback, trace', Answered(locations, Get(pending, id), reply))
            && Awaited(router, fallback, trace', pending - {id})
  {
    var trace' := trace + [Got(Answer(id, reply))];
    assert trace'[..|trace|] == trace;
    forall x ensures AwaitedAt(router, fallback, trace', pending - {id}, x) {
      assert AwaitedAt(router, fallback, trace, pending, x);
      var i := Origin(trace, x);
      if i.Some? { assert trace'[..i.value] == trace[..i.value]; }
    }
    assert AwaitedAt(router, fallback, trace, pending, id);
    var i := Origin(trace, id);
    if i.Some? { assert trace'[..i.value] == trace[..i.value]; }
    forall t ensures Get(Answered(locations, Get(pending, id), reply), t) == Where(router, fallback, trace', t) {
      assert Get(locations, t) == Where(router, fallback, trace, t);
      if i.Some? {
        var u := trace[i.value].request.params.value.thread;
        assert Get(locations, u) == Where(router, fallback, trace, u);
      }
    }
  }

  function Answered(locations: map<Thread, Location>, p: Option<Pending>, reply: Reply): (l: map<Thread, Location>) {
    if p.None? then locations
    else
      var landing := Land(p.value.name, p.value.thread, p.value.location, reply, Get(locations, p.value.thread));
      if landing.At? then locations[landing.thread := landing.location] else locations
  }

  /** The answer has what the method's answers must have. */
  ghost predicate Shaped(name: Method, reply: Reply)
    requires reply.Done?
  {
    name.ThreadStart? || name.ThreadResume? || name.ThreadFork? ==>
      reply.thread.Some? && Absolute(reply.cwd).Some? && RootsFine(reply.roots)
  }

  class EnvironmentRouter {
    const router: string
    const fallback: string // the default directory
    var locations: map<Thread, Location>
    var pending: map<Id, Pending>
    ghost var trace: seq<Event>

    /** The stored state is what the trace says. */
    ghost predicate Valid()
      reads this
    {
      && WellFormed(trace) && Accepted(router, fallback, trace)
      && Placed(router, fallback, trace, locations)
      && Awaited(router, fallback, trace, pending)
    }

    constructor (id: string, cwd: string)
      ensures Valid() && router == id && fallback == cwd && trace == []
    {
      router, fallback, locations, pending, trace := id, cwd, map[], map[], [];
    }

    /** Rewrites a request on its way out; a refusal leaves no trace. */
    method Outgoing(r: Request) returns (o: Outcome)
      requires Valid()
      modifies this`pending, this`trace
      ensures Valid()
      ensures r.name.OtherMethod? <==> o.Unchanged?
      ensures o.Rewritten? ==> trace == old(trace) + [Sent(r)]
      ensures !o.Rewritten? ==> trace == old(trace) && pending == old(pending)
      ensures o.Rewritten? <==> LetThrough(router, fallback, old(trace), r)
      ensures o.Rewritten? ==> (o.environments.Some? <==> r.name.ThreadStart? || r.name.TurnStart?)
      ensures o.Rewritten? && o.environments.Some? ==>
                && r.id.Some? && r.id.value in pending
                && var l := pending[r.id.value].location;
                var before := Where(router, fallback, old(trace), r.params.value.thread);
                && AtMostOwn(router, o.environments.value) && l.Some?
                && Takes(fallback, r.params.value, before, l.value)
                && Offers(router, r.params.value, before, l.value, o.environments.value)
    {
      if r.name.OtherMethod? {
        return Unchanged;
      }
      if r.params.None? || r.id.None? {
        return Refused;
      }
      var id, t := r.id.value, r.params.value.thread;
      assert AwaitedAt(router, fallback, trace, pending, id);
      assert Get(locations, t) == Where(router, fallback, trace, t);
      if id in pending {
        return Refused;
      }
      ConsiderPlaces(router, fallback, r, Get(locations, t));
      var q := Consider(router, fallback, r, Get(locations, t));
      if q.Refuse? {
        return Refused;
      }
      var p := Pending(r.name, t, q.location);
      AppendSent(router, fallback, trace, r, locations, pending, p);
      AcceptedPush(router, fallback, trace, Sent(r));
      pending, trace := pending[id := p], trace + [Sent(r)];
      return Rewritten(q.environments);
    }

    /** Learns from a message on its way in; false is an error about its shape. */
    method Incoming(m: Incoming) returns (ok: bool)
      requires Valid()
      modifies this`locations, this`pending, this`trace
      ensures Valid() && trace == old(trace) + [Got(m)]
      ensures !ok ==> locations == old(locations)
      ensures match m
              case Updated(u, cwd) => ok <==> !(u in old(locations) && cwd.Some? && Absolute(cwd.value).None?)
              case OtherMessage => ok
              case Answer(id, reply) =>
                ok <==> id !in old(pending) || reply.Failed? || (reply.Done? && Shaped(old(pending)[id].name, reply))
    {
      match m
      case Updated(u, cwd) =>
        AppendNotice(router, fallback, trace, m, locations, pending);
        AcceptedPush(router, fallback, trace, Got(m));
        trace := trace + [Got(m)];
        if u in locations && cwd.Some? {
          if Absolute(cwd.value).None? {
            return false;
          }
          var prior, path := locations[u], Absolute(cwd.value).value;
          locations := locations[u := Location(path, Retarget(Some(prior), path), prior.enabled)];
        }
        return true;
      case OtherMessage =>
        AppendNotice(router, fallback, trace, m, locations, pending);
        AcceptedPush(router, fallback, trace, Got(m));
        trace := trace + [Got(m)];
        return true;
      case Answer(id, reply) =>
        AppendAnswer(router, fallback, trace, id, reply, locations, pending);
        AcceptedPush(router, fallback, trace, Got(m));
        trace := trace + [Got(m)];
        var p := Get(pending, id);
        pending := pending - {id};
        if p.None? || reply.Failed? {
          return true;
        }
        if reply.Shapeless? {
          return false;
        }
        ok := Learn(p.value, reply);
    }

    /** A successful answer moves the thread it names, or was asked for, and no other. */
    method Learn(p: Pending, reply: Reply) returns (ok: bool)
      requires reply.Done?
      modifies this`locations
      ensures locations == Answered(old(locations), Some(p), reply)
      ensures ok <==> Shaped(p.name, reply)
      ensures !ok ==> locations == old(locations)
      ensures var names := p.name.ThreadStart? || p.name.ThreadResume? || p.name.ThreadFork?;
              var moved := if names then reply.thread else p.thread;
              forall t :: t != moved ==> Get(locations, t) == Get(old(locations), t)
    {
      RootsFineWhen(reply.roots);
      if p.name.ThreadStart? || p.name.ThreadResume? || p.name.ThreadFork? {
        if reply.thread.None? || Absolute(reply.cwd).None? {
          return false;
        }
        if reply.roots.JunkRoots? || (reply.roots.Roots? && !AllAbsolute(reply.roots.items)) {
          return false;
        }
        var roots := if reply.roots.Roots? then Some(Paths(reply.roots.items)) else None;
        var prior := Get(locations, p.thread);
        if p.location.Some? && p.location.value.enabled {
          locations := locations[reply.thread := p.location.value];
        } else {
          var kept := if prior.Some? then prior.value.enabled else true;
          var enabled := if p.location.Some? then p.location.value.enabled else kept;
          locations := locations[reply.thread := Location(Absolute(reply.cwd).value, roots, enabled)];
        }
      } else if (p.name.TurnStart? || p.name.SettingsUpdate?) && p.location.Some? {
        locations := locations[p.thread := p.location.value];
      }
      return true;
    }
  }

  // ---------- a disabled thread stays disabled ----------

  ghost predicate Off(router: string, fallback: string, trace: seq<Event>, t: Thread)
    requires WellFormed(trace)
  {
    Disabled(Where(router, fallback, trace, t))
  }

  predicate NamesThread(r: Request) {
    r.name.ThreadStart? || r.name.ThreadResume? || r.name.ThreadFork?
  }

  /** An answer to this request that succeeds, about thread `t`. */
  predicate Succeeds(r: Request, reply: Reply, t: Thread)
    requires r.params.Some?
  {
    && reply.Done?
    && (NamesThread(r) ==> reply.thread == t && Absolute(reply.cwd).Some? && t.Some?
                           && !reply.roots.JunkRoots? && (reply.roots.Roots? ==> AllAbsolute(reply.roots.items)))
    && (!NamesThread(r) ==> r.params.value.thread == t)
    && (NamesThread(r) || r.name.TurnStart? || (r.name.SettingsUpdate? && !r.params.value.cwd.Null?))
  }

  /** What a request asks for about access: it names an environment, or leaves access as the
      thread it is for has it, when sent (or, for resume and fork, when answered). */
  predicate AsksAccess(r: Request, before: Option<Location>, now: Option<Location>)
    requires r.params.Some?
  {
    var p := r.params.value;
    if r.name.ThreadStart? || r.name.TurnStart? then
      p.environments.One? || (p.environments.Absent? && !Disabled(before))
    else if r.name.SettingsUpdate? then !Disabled(before)
    else !Disabled(now)
  }

  lemma LandingAccess(router: string, fallback: string, r: Request, before: Option<Location>, now: Option<Location>,
                      reply: Reply, t: Thread)
    requires r.params.Some? && !r.name.OtherMethod? && Proper(r, before)
    ensures var l := Land(r.name, r.params.value.thread, Asked(router, fallback, r, before), reply, now);
            && (l.At? && l.thread == t <==> Succeeds(r, reply, t))
            && (l.At? ==> (l.location.enabled <==> AsksAccess(r, before, now)))
  {
    ConsiderPlaces(router, fallback, r, before);
    if reply.Done? { RootsFineWhen(reply.roots); }
    hide Retarget, AllAbsolute, Consider, Offers, Follows, Proper, RootsFine;
  }

  lemma LandingPlace(router: string, fallback: string, r: Request, before: Option<Location>, now: Option<Location>,
                     reply: Reply)
    requires r.params.Some? && !r.name.OtherMethod? && Proper(r, before)
    ensures var l := Land(r.name, r.params.value.thread, Asked(router, fallback, r, before), reply, now);
            l.At? ==> reply.Done? && Leads(fallback, r, before, now, reply, l.location)
  {
    ConsiderPlaces(router, fallback, r, before);
    LandingAccess(router, fallback, r, before, now, reply, None);
    if reply.Done? && NamesThread(r) {
      Reports(r.name, r.params.value.thread, Asked(router, fallback, r, before), reply, now);
    }
    hide Consider, Takes, Offers, Follows, Retarget, Proper, ReportedAt;
  }

  lemma Reports(name: Method, thread: Thread, location: Option<Location>, reply: Reply, now: Option<Location>)
    requires reply.Done? && (name.ThreadStart? || name.ThreadResume? || name.ThreadFork?)
    ensures var l := Land(name, thread, location, reply, now);
            l.At? && !(location.Some? && location.value.enabled) ==> ReportedAt(reply, l.location)
  {}

  /** What an answer does to a thread, over any trace: a success leaves the thread it is
      about where the request and the answer lead, and anything else leaves it alone. */
  lemma SuccessLeads(router: string, fallback: string, trace: seq<Event>, id: Id, reply: Reply, t: Thread)
    requires WellFormed(trace) && Accepted(router, fallback, trace) && Origin(trace, id).Some?
    ensures var trace', i := trace + [Got(Answer(id, reply))], Origin(trace, id).value;
            var r := trace[i].request;
            var u := r.params.value.thread;
            var l := Where(router, fallback, trace', t);
            && WellFormed(trace')
            && if Succeeds(r, reply, t) then
                 && l.Some?
                 && Leads(fallback, r, Where(router, fallback, trace[..i], u), Where(router, fallback, trace, u), reply,
                          l.value)
               else l == Where(router, fallback, trace, t)
  {
    var trace', i := trace + [Got(Answer(id, reply))], Origin(trace, id).value;
    var r := trace[i].request;
    var u := r.params.value.thread;
    assert trace'[..|trace|] == trace && trace'[..i] == trace[..i];
    var before, now := Where(router, fallback, trace[..i], u), Where(router, fallback, trace, u);
    assert LetThrough(router, fallback, trace[..i], r);
    LandingAccess(router, fallback, r, before, now, reply, t);
    LandingPlace(router, fallback, r, before, now, reply);
    hide Land, Asked, Consider, Succeeds, Leads, Proper;
  }

  ghost predicate Grounded(l: Option<Location>) {
    l.Some? ==>
      && Absolute(Text(l.value.cwd)).Some?
      && (l.value.roots.Some? ==> forall x :: x in l.value.roots.value ==> Absolute(Text(x)).Some?)
  }

  lemma LeadsGrounded(fallback: string, r: Request, before: Option<Location>, now: Option<Location>, reply: Reply,
                      l: Location)
    requires Absolute(Text(fallback)).Some? && Grounded(before) && r.params.Some? && reply.Done? && Proper(r, before)
    requires NamesThread(r) ==> Absolute(reply.cwd).Some?
    requires r.name.TurnStart? || r.name.SettingsUpdate? || NamesThread(r)
    requires r.name.SettingsUpdate? ==> !r.params.value.cwd.Null?
    requires Leads(fallback, r, before, now, reply, l)
    ensures Grounded(Some(l))
  {}

  /** With an absolute default directory, every thread of every trace is in an absolute
      directory with absolute roots. */
  lemma {:induction false} PlacesGrounded(router: string, fallback: string, trace: seq<Event>, t: Thread)
    requires WellFormed(trace) && Accepted(router, fallback, trace) && Absolute(Text(fallback)).Some?
    ensures Grounded(Where(router, fallback, trace, t))
    decreases |trace|
  {
    if trace != [] {
      var n := |trace| - 1;
      var past := trace[..n];
      assert trace == past + [trace[n]];
      PrefixAccepted(router, fallback, trace, n);
      PlacesGrounded(router, fallback, past, t);
      if trace[n].Got? && trace[n].m.Answer? && Origin(past, trace[n].m.id).Some? {
        var id, reply := trace[n].m.id, trace[n].m.reply;
        var i := Origin(past, id).value;
        assert past[..i] == trace[..i];
        var r := trace[i].request;
        PrefixAccepted(router, fallback, trace, i);
        PlacesGrounded(router, fallback, trace[..i], r.params.value.thread);
        SuccessLeads(router, fallback, past, id, reply, t);
        assert LetThrough(router, fallback, trace[..i], r);
        if Succeeds(r, reply, t) {
          LeadsGrounded(fallback, r, Where(router, fallback, trace[..i], r.params.value.thread),
                        Where(router, fallback, past, r.params.value.thread), reply,
                        Where(router, fallback, trace, t).value);
        }
        hide Where, Leads, Proper;
      }
    }
  }

  lemma PrefixAccepted(router: string, fallback: string, trace: seq<Event>, n: nat)
    requires WellFormed(trace) && Accepted(router, fallback, trace) && n <= |trace|
    ensures WellFormed(trace[..n]) && Accepted(router, fallback, trace[..n])
  {
    hide Where, Proper, Origin;
    assert forall i :: 0 <= i < n ==> trace[..n][..i] == trace[..i];
  }

  /** A successful turn that names no directory, roots or environment leaves its thread
      where it was when the turn was sent. */
  lemma TurnStays(router: string, fallback: string, trace: seq<Event>, id: Id, reply: Reply)
    requires WellFormed(trace) && Accepted(router, fallback, trace) && Origin(trace, id).Some? && reply.Done?
    requires var r := trace[Origin(trace, id).value].request;
             var p := r.params.value;
             r.name.TurnStart? && p.cwd.Null? && p.roots.NoRoots? && p.environments.Absent?
    ensures var i := Origin(trace, id).value;
            var t := trace[i].request.params.value.thread;
            var before := Where(router, fallback, trace[..i], t);
            var after := Where(router, fallback, trace + [Got(Answer(id, reply))], t);
            && before.Some? && after.Some? && after.value.cwd == before.value.cwd
            && after.value.enabled == before.value.enabled && after.value.roots.Some?
            && (before.value.roots.None? ==> after.value.roots.value == [after.value.cwd])
            && (before.value.roots.Some? ==> Once(before.value.roots.value, after.value.roots.value))
            && (before.value.roots.Some? && Unrepeated(before.value.roots.value) ==> after == before)
  {
    var i := Origin(trace, id).value;
    var r := trace[i].request;
    var t := r.params.value.thread;
    var before := Where(router, fallback, trace[..i], t);
    assert LetThrough(router, fallback, trace[..i], r);
    SuccessLeads(router, fallback, trace, id, reply, t);
    if before.value.roots.Some? {
      var had := before.value.roots.value;
      var here := before.value.cwd;
      assert seq(|had|, k requires 0 <= k < |had| => if had[k] == here then here else had[k]) == had;
    }
    hide Where, Once, Unrepeated, Accepted, Origin;
  }

  /** A request the router lets through at this point. */
  ghost predicate LetThrough(router: string, fallback: string, past: seq<Event>, r: Request)
    requires WellFormed(past)
  {
    && !r.name.OtherMethod? && r.id.Some? && r.params.Some? && Origin(past, r.id.value).None?
    && Proper(r, Where(router, fallback, past, r.params.value.thread))
  }

  /** Every request in the trace was let through: the trace is one the router can see. */
  ghost predicate Accepted(router: string, fallback: string, trace: seq<Event>)
    requires WellFormed(trace)
  {
    forall i :: 0 <= i < |trace| && trace[i].Sent? ==>
      LetThrough(router, fallback, trace[..i], trace[i].request)
  }

  lemma AcceptedPush(router: string, fallback: string, trace: seq<Event>, e: Event)
    requires WellFormed(trace) && Accepted(router, fallback, trace)
    requires e.Sent? ==> LetThrough(router, fallback, trace, e.request)
    ensures WellFormed(trace + [e]) && Accepted(router, fallback, trace + [e])
  {
    hide Where, Consider, Origin;
    assert forall i :: 0 <= i <= |trace| ==> (trace + [e])[..i] == trace[..i];
    assert trace[..|trace|] == trace;
  }

  /** Exactly when a message gives a disabled thread its access back. */
  lemma ReenabledWhen(router: string, fallback: string, trace: seq<Event>, m: Incoming, t: Thread)
    requires WellFormed(trace) && Accepted(router, fallback, trace) && Off(router, fallback, trace, t)
    ensures WellFormed(trace + [Got(m)])
    ensures !Off(router, fallback, trace + [Got(m)], t) <==> Reenables(router, fallback, trace, m, t)
  {
    var trace' := trace + [Got(m)];
    assert trace'[..|trace|] == trace;
    if m.Answer? && Origin(trace, m.id).Some? {
      var i := Origin(trace, m.id).value;
      var r := trace[i].request;
      assert trace'[..i] == trace[..i];
      var before := Where(router, fallback, trace[..i], r.params.value.thread);
      LandingAccess(router, fallback, r, before, Where(router, fallback, trace, r.params.value.thread), m.reply, t);
      hide Land, Asked, Succeeds, AsksAccess;
    }
  }

  ghost predicate Reenables(router: string, fallback: string, trace: seq<Event>, m: Incoming, t: Thread)
    requires WellFormed(trace)
  {
    && m.Answer? && Origin(trace, m.id).Some?
    && var i := Origin(trace, m.id).value;
       var r := trace[i].request;
       var before := Where(router, fallback, trace[..i], r.params.value.thread);
       Succeeds(r, m.reply, t) && AsksAccess(r, before, Where(router, fallback, trace, r.params.value.thread))
  }

  /** So far as the answers about a thread are to requests for that thread, sent since it was
      disabled and naming no environment, it stays disabled. */
  lemma {:induction false} StaysDisabled(router: string, fallback: string, trace: seq<Event>, t: Thread, k: nat, n: nat)
    requires WellFormed(trace) && k <= n <= |trace|
    requires Accepted(router, fallback, trace) && Off(router, fallback, trace[..k], t)
    requires forall j :: k <= j < n ==> Quiet(trace, t, k, j)
    ensures forall j :: k <= j <= n ==> Off(router, fallback, trace[..j], t)
    decreases n
  {
    if k < n {
      var past := trace[..n - 1];
      StaysDisabled(router, fallback, trace, t, k, n - 1);
      assert trace[..n] == past + [trace[n - 1]];
      assert Quiet(trace, t, k, n - 1);
      if trace[n - 1].Sent? {
        assert trace[..n][..n - 1] == past;
      } else {
        var m := trace[n - 1].m;
        assert Accepted(router, fallback, past) by {
          assert forall i :: 0 <= i < n - 1 ==> past[..i] == trace[..i];
        }
        ReenabledWhen(router, fallback, past, m, t);
        if m.Answer? && Origin(past, m.id).Some? {
          var i := Origin(past, m.id).value;
          assert past[..i] == trace[..i];
        }
      }
    }
  }

  predicate Quiet(trace: seq<Event>, t: Thread, k: nat, j: nat)
    requires WellFormed(trace) && j < |trace|
  {
    trace[j].Got? && trace[j].m.Answer? && Origin(trace[..j], trace[j].m.id).Some? ==>
      var i := Origin(trace[..j], trace[j].m.id).value;
      Succeeds(trace[i].request, trace[j].m.reply, t) ==>
        k <= i && trace[i].request.params.value.thread == t && !trace[i].request.params.value.environments.One?
  }

  /** What a caller can see to: when no request for a disabled thread is outstanding, later
      ones name no environment, and answers name the thread that was asked for, it stays
      disabled however those requests overlap. */
  lemma NoneOutstandingStaysDisabled(router: string, fallback: string, trace: seq<Event>, t: Thread, k: nat, n: nat)
    requires WellFormed(trace) && k <= n <= |trace|
    requires Accepted(router, fallback, trace) && Off(router, fallback, trace[..k], t)
    requires forall id :: Origin(trace[..k], id).Some? ==>
               trace[Origin(trace[..k], id).value].request.params.value.thread != t
    requires forall i :: k <= i < n ==> NamesNoEnvironment(trace, t, i)
    requires forall j :: k <= j < n ==> NamesAsked(trace, t, j)
    ensures forall j :: k <= j <= n ==> Off(router, fallback, trace[..j], t)
  {
    forall j | k <= j < n ensures Quiet(trace, t, k, j) {
      assert NamesAsked(trace, t, j);
      if trace[j].Got? && trace[j].m.Answer? && Origin(trace[..j], trace[j].m.id).Some? {
        var i := Origin(trace[..j], trace[j].m.id).value;
        assert k <= i ==> NamesNoEnvironment(trace, t, i);
      }
      if trace[j].Got? && trace[j].m.Answer? { OriginSince(trace, trace[j].m.id, k, j); }
    }
    StaysDisabled(router, fallback, trace, t, k, n);
  }

  /** If this is a request for the thread, it names no environment. */
  predicate NamesNoEnvironment(trace: seq<Event>, t: Thread, i: nat)
    requires WellFormed(trace) && i < |trace|
  {
    trace[i].Sent? ==>
      var p := trace[i].request.params.value;
      p.thread == t ==> !p.environments.One?
  }

  /** A start, resume or fork answered with this thread was a request for it. */
  predicate NamesAsked(trace: seq<Event>, t: Thread, j: nat)
    requires WellFormed(trace) && j < |trace|
  {
    trace[j].Got? && trace[j].m.Answer? && Origin(trace[..j], trace[j].m.id).Some? ==>
      var r := trace[Origin(trace[..j], trace[j].m.id).value].request;
      NamesThread(r) && trace[j].m.reply.Done? && trace[j].m.reply.thread == t ==> r.params.value.thread == t
  }

  /** A request sent before `k` and answered after it was outstanding at `k`. */
  lemma {:induction false} OriginSince(trace: seq<Event>, id: Id, k: nat, j: nat)
    requires k <= j <= |trace|
    ensures var i := Origin(trace[..j], id); i.Some? && i.value < k ==> Origin(trace[..k], id) == i
    decreases j
  {
    if k < j {
      assert trace[..j][..j - 1] == trace[..j - 1];
      OriginSince(trace, id, k, j - 1);
    }
  }

  /** Two turns overlap: one sent while the thread has access, one that takes access away. */
  function Overlap(): (trace: seq<Event>) {
    var t, here := Some("t"), Text("/w");
    var done := Done(t, here, NoRoots);
    [Sent(Request(Some(1), ThreadStart, Some(Params(None, here, NoRoots, Absent, true)))),
     Got(Answer(1, done)),
     Sent(Request(Some(2), TurnStart, Some(Params(t, Null, NoRoots, Absent, true)))),
     Sent(Request(Some(3), TurnStart, Some(Params(t, Null, NoRoots, Empty, true)))),
     Got(Answer(3, done)),
     Got(Answer(2, done))]
  }

  /** Answered in the other order, they leave the disabled thread with access, although no
      request named an environment: the sending order is needed above. */
  lemma OverlapReenables(router: string, fallback: string)
    ensures var trace, t := Overlap(), Some("t");
            && WellFormed(trace) && Accepted(router, fallback, trace)
            && Off(router, fallback, trace[..5], t) && !Off(router, fallback, trace, t)
            && forall i :: 0 <= i < |trace| && trace[i].Sent? ==> !trace[i].request.params.value.environments.One?
  {
    var trace, t := Overlap(), Some("t");
    OverlapStart(router, fallback);
    OverlapAccepted(router, fallback);
    OverlapEnd(router, fallback);
  }

  lemma OverlapEnd(router: string, fallback: string)
    ensures var trace, t := Overlap(), Some("t");
            WellFormed(trace) && Off(router, fallback, trace[..5], t) && !Off(router, fallback, trace, t)
  {
    var trace, t := Overlap(), Some("t");
    OverlapStart(router, fallback);
    var p2, p3, p4, p5 := trace[..2], trace[..3], trace[..4], trace[..5];
    assert p3[..2] == p2 && p4[..3] == p3 && p5[..4] == p4 && p5[..3] == p3;
    assert Origin(p4, 3) == Some(3);
    assert Disabled(Where(router, fallback, p5, t));
    assert Origin(p3, 2) == Some(2) && Origin(p4, 2) == Some(2) && Origin(p5, 2) == Some(2);
  }

  lemma OverlapStart(router: string, fallback: string)
    ensures var trace, t := Overlap(), Some("t");
            && WellFormed(trace)
            && Where(router, fallback, trace[..2], t).Some? && !Off(router, fallback, trace[..2], t)
            && Where(router, fallback, trace[..3], t) == Where(router, fallback, trace[..2], t)
            && Where(router, fallback, trace[..4], t) == Where(router, fallback, trace[..2], t)
  {
    var trace, t := Overlap(), Some("t");
    var p0, p1, p2 := trace[..0], trace[..1], trace[..2];
    assert p1[..0] == p0 && p2[..1] == p1 && p2[..0] == p0 && trace[..3][..2] == p2 && trace[..4][..3] == trace[..3];
    assert Where(router, fallback, p0, None) == None && Where(router, fallback, p1, None) == None;
    assert Origin(p1, 1) == Some(0);
  }

  lemma OverlapAccepted(router: string, fallback: string)
    ensures WellFormed(Overlap()) && Accepted(router, fallback, Overlap())
  {
    var trace := Overlap();
    OverlapStart(router, fallback);
    forall i | 0 <= i < |trace| && trace[i].Sent? ensures LetThrough(router, fallback, trace[..i], trace[i].request) {
      if i == 0 {
        assert Where(router, fallback, trace[..0], None) == None;
      } else if i == 2 {
        assert trace[..2][..1] == trace[..1];
        assert Origin(trace[..1], 2) == None && Origin(trace[..2], 2) == None;
      } else {
        assert i == 3 && trace[..3][..2] == trace[..2] && trace[..2][..1] == trace[..1];
        assert Origin(trace[..1], 3) == None && Origin(trace[..2], 3) == None && Origin(trace[..3], 3) == None;
      }
    }
  }

  /** A thread with access is forked, and the answer names the disabled thread. */
  function Fork(): (trace: seq<Event>) {
    var here := Text("/w");
    [Sent(Request(Some(1), ThreadStart, Some(Params(None, here, NoRoots, Absent, true)))),
     Got(Answer(1, Done(Some("a"), here, NoRoots))),
     Sent(Request(Some(2), ThreadStart, Some(Params(None, here, NoRoots, Empty, true)))),
     Got(Answer(2, Done(Some("t"), here, NoRoots))),
     Sent(Request(Some(3), ThreadFork, Some(Params(Some("a"), Null, NoRoots, Absent, true)))),
     Got(Answer(3, Done(Some("t"), here, NoRoots)))]
  }

  /** That, too, gives access back without an environment being named: the answers must name
      the thread that was asked for. */
  lemma ForkReenables(router: string, fallback: string)
    ensures var trace, t := Fork(), Some("t");
            && WellFormed(trace) && Accepted(router, fallback, trace)
            && Off(router, fallback, trace[..5], t) && !Off(router, fallback, trace, t)
            && forall i :: 0 <= i < |trace| && trace[i].Sent? ==> !trace[i].request.params.value.environments.One?
  {
    var trace, a, t := Fork(), Some("a"), Some("t");
    ForkFirst(router, fallback);
    ForkSecond(router, fallback);
    ForkAccepted(router, fallback);
    var p4, p5 := trace[..4], trace[..5];
    assert p5[..4] == p4;
    assert Where(router, fallback, p5, a) == Where(router, fallback, p4, a);
    assert Where(router, fallback, p5, t) == Where(router, fallback, p4, t);
    assert Origin(p5, 3) == Some(4);
  }

  lemma ForkFirst(router: string, fallback: string)
    ensures var trace, a := Fork(), Some("a");
            && WellFormed(trace) && Where(router, fallback, trace[..2], None) == None
            && Where(router, fallback, trace[..2], a).Some? && !Off(router, fallback, trace[..2], a)
  {
    var trace := Fork();
    var p0, p1, p2 := trace[..0], trace[..1], trace[..2];
    assert p1[..0] == p0 && p2[..1] == p1 && p2[..0] == p0;
    assert Where(router, fallback, p0, None) == None && Where(router, fallback, p1, None) == None;
    assert Origin(p1, 1) == Some(0);
  }

  lemma ForkSecond(router: string, fallback: string)
    ensures var trace, a, t := Fork(), Some("a"), Some("t");
            && WellFormed(trace) && Off(router, fallback, trace[..4], t)
            && Where(router, fallback, trace[..4], a).Some? && !Off(router, fallback, trace[..4], a)
  {
    var trace, a := Fork(), Some("a");
    ForkFirst(router, fallback);
    var p2, p3, p4 := trace[..2], trace[..3], trace[..4];
    assert p3[..2] == p2 && p4[..3] == p3 && p4[..2] == p2;
    assert Where(router, fallback, p3, None) == None
           && Where(router, fallback, p3, a) == Where(router, fallback, p2, a);
    assert Origin(p3, 2) == Some(2);
  }

  lemma ForkAccepted(router: string, fallback: string)
    ensures WellFormed(Fork()) && Accepted(router, fallback, Fork())
  {
    var trace := Fork();
    ForkFirst(router, fallback);
    ForkSecond(router, fallback);
    forall i | 0 <= i < |trace| && trace[i].Sent? ensures LetThrough(router, fallback, trace[..i], trace[i].request) {
      if i == 0 {
        assert Where(router, fallback, trace[..0], None) == None;
      } else if i == 2 {
        assert trace[..2][..1] == trace[..1];
        assert Origin(trace[..1], 2) == None && Origin(trace[..2], 2) == None;
      } else {
        assert i == 4 && trace[..4][..3] == trace[..3] && trace[..3][..2] == trace[..2]
               && trace[..2][..1] == trace[..1];
        assert Origin(trace[..1], 3) == None && Origin(trace[..2], 3) == None && Origin(trace[..3], 3) == None;
        assert Origin(trace[..4], 3) == None;
      }
    }
  }
}
