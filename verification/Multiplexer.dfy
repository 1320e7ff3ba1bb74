/** The two-server multiplexer: one client, a main and a host child, one initialization. */
module Multiplexer {
  import opened Basics

  type Id = int
  datatype Role = Main | Host

  /** A line on any of the streams: undecodable, or what the relay reads from it. */
  datatype Line = Garbage | Line(id: Option<Id>, name: Option<string>, local: bool, error: bool)

  const HOST_METHODS: set<string> :=
    {"fs/readFile", "fs/writeFile", "fs/createDirectory", "fs/getMetadata", "fs/readDirectory", "fs/remove", "fs/copy",
     "fs/watch", "fs/unwatch", "process/spawn", "process/writeStdin", "process/kill", "process/resizePty",
     "command/exec", "command/exec/write", "command/exec/resize", "command/exec/terminate"}
  const HOST_NOTIFICATIONS: set<string> :=
    {"fs/changed", "process/outputDelta", "process/exited", "command/exec/outputDelta", "configWarning"}

  function Destination(l: Line): (r: Role) {
    if l.Line? && l.name.Some? && (l.name.value in HOST_METHODS
                                   || (l.name.value in {"environment/info", "environment/status"} && l.local)) then Host
    else Main
  }

  /** Host operations, and questions about the local environment. */
  ghost predicate ForHost(l: Line) {
    && l.Line? && l.name.Some?
    && (l.name.value in HOST_METHODS
        || (l.local && (l.name.value == "environment/info" || l.name.value == "environment/status")))
  }

  lemma DestinationIs(l: Line)
    ensures Destination(l) == Host <==> ForHost(l)
    ensures Destination(l) == Main <==> !ForHost(l)
  {}

  // ---------- towards the servers ----------

  ghost predicate InitializeRequest(l: Line) {
    l.Line? && l.name == Some("initialize") && l.id.Some?
  }

  ghost predicate InitializedNotice(l: Line) {
    l.Line? && l.name == Some("initialized") && l.id.None?
  }

  /** The id of the client's first initialize request among its first `n` lines. */
  ghost function FirstId(client: seq<Line>, n: nat): (id: Option<Id>)
    requires n <= |client|
  {
    if n == 0 then None
    else if FirstId(client, n - 1).Some? then FirstId(client, n - 1)
    else if InitializeRequest(client[n - 1]) then client[n - 1].id
    else None
  }

  ghost predicate Goes(client: seq<Line>, r: Role, i: nat)
    requires i < |client|
  {
    var l := client[i];
    && l.Line?
    && ((InitializeRequest(l) && FirstId(client, i).None?) || InitializedNotice(l) || ForHost(l) == (r == Host))
  }

  /** Which of the client's first `n` lines a server is given, in order. */
  ghost function Routed(client: seq<Line>, r: Role, n: nat): (s: seq<nat>)
    requires n <= |client|
  {
    if n == 0 then [] else Routed(client, r, n - 1) + (if Goes(client, r, n - 1) then [n - 1] else [])
  }

  // ---------- towards the client ----------

  datatype Phase = Reading | Held | Writing | Over
  datatype Response = Awaited | Arrived(at: nat) | Missing
  datatype Child = Child(lines: seq<Line>, read: nat, phase: Phase, response: Response)

  /** What the client is given: the one published initialize response, or a child's line. */
  datatype Out = Init(role: Role) | From(role: Role, at: nat)

  ghost predicate Forwarded(r: Role, l: Line) {
    l.Line? && (r == Main || l.name.None? || (l.id.None? && l.name.value in HOST_NOTIFICATIONS))
  }

  /** Which of a child's first `n` lines are for the client, in order. */
  ghost function Eligible(c: Child, r: Role, n: nat): (s: seq<nat>)
    requires n <= |c.lines|
    ensures forall i :: i in s ==> i < n
  {
    if n == 0 then []
    else Eligible(c, r, n - 1) + (if c.response != Arrived(n - 1) && Forwarded(r, c.lines[n - 1]) then [n - 1] else [])
  }

  ghost function Delivered(out: seq<Out>, r: Role): (s: seq<nat>) {
    if out == [] then []
    else
      var n := |out| - 1;
      Delivered(out[..n], r) + (if out[n].From? && out[n].role == r then [out[n].at] else [])
  }

  ghost function InHand(c: Child): (s: seq<nat>) {
    if c.phase == Writing && c.read > 0 then [c.read - 1] else []
  }

  /** A child's stream: everything read that is for the client is delivered or in hand. */
  ghost predicate Relayed(c: Child, r: Role, out: seq<Out>) {
    && c.read <= |c.lines|
    && (c.phase == Writing ==> c.read > 0)
    && Delivered(out, r) + InHand(c) == Eligible(c, r, c.read)
  }

  /** The initialize responses published so far. */
  ghost function Openings(out: seq<Out>): (s: seq<Role>) {
    if out == [] then []
    else
      var n := |out| - 1;
      Openings(out[..n]) + (if out[n].Init? then [out[n].role] else [])
  }

  ghost predicate Later(e: Out, r: Role, at: nat) {
    e.From? && e.role == r && e.at > at
  }

  /** Nothing a child wrote after its initialize response precedes the published one. */
  ghost predicate Barred(c: Child, r: Role, out: seq<Out>, initialized: bool) {
    c.response.Arrived? ==>
      && c.response.at < c.read
      && (initialized || (c.phase == Held && c.read == c.response.at + 1))
      && forall k {:trigger out[k]} :: 0 <= k < |out| && Later(out[k], r, c.response.at) ==> Openings(out[..k]) != []
  }

  // ---------- one line more ----------

  lemma OutPush(out: seq<Out>, e: Out)
    ensures Openings(out + [e]) == Openings(out) + if e.Init? then [e.role] else []
    ensures forall r :: Delivered(out + [e], r) == Delivered(out, r) + if e.From? && e.role == r then [e.at] else []
  {
    assert (out + [e])[..|out|] == out;
  }

  lemma {:induction false} EligibleSame(c: Child, d: Child, r: Role, n: nat)
    requires c.lines == d.lines && n <= |c.lines|
    requires forall i :: 0 <= i < n ==> (c.response == Arrived(i) <==> d.response == Arrived(i))
    ensures Eligible(c, r, n) == Eligible(d, r, n)
  {
    if n > 0 { EligibleSame(c, d, r, n - 1); }
  }

  lemma BarredPush(c: Child, r: Role, out: seq<Out>, initialized: bool, e: Out)
    requires Barred(c, r, out, initialized)
    requires e.From? && e.role == r && c.response.Arrived? && e.at > c.response.at ==> Openings(out) != []
    ensures Barred(c, r, out + [e], initialized)
  {
    var out' := out + [e];
    forall k | 0 <= k < |out'|
      ensures out'[..k] == out[..k]
    {}
    assert out[..|out|] == out;
  }

  /** The client's stream is nothing but the published response and the children's lines. */
  lemma {:induction false} NothingElse(out: seq<Out>)
    ensures |out| == |Openings(out)| + |Delivered(out, Main)| + |Delivered(out, Host)|
  {
    if out != [] {
      var n := |out| - 1;
      NothingElse(out[..n]);
      assert out[n].From? ==> out[n].role == Main || out[n].role == Host;
    }
  }

  /** A child's lines stay in order, none twice. */
  lemma {:induction false} EligibleInOrder(c: Child, r: Role, n: nat)
    requires n <= |c.lines|
    ensures forall i, j :: 0 <= i < j < |Eligible(c, r, n)| ==> Eligible(c, r, n)[i] < Eligible(c, r, n)[j]
  {
    if n > 0 {
      EligibleInOrder(c, r, n - 1);
      var s := Eligible(c, r, n - 1);
      assert forall i :: 0 <= i < |s| ==> s[i] in s;
    }
  }

  ghost predicate Good(c: Child, r: Role, out: seq<Out>, initialized: bool) {
    Relayed(c, r, out) && Barred(c, r, out, initialized)
  }

  /** A child takes its next line: its initialize response is held, a line for the client
      comes to hand, the host's other notifications are dropped, anything else ends it. */
  ghost function Advance(c: Child, r: Role, initialization: Option<Id>): (d: Child)
    requires c.read <= |c.lines|
  {
    if c.read == |c.lines| then c.(phase := Over, response := if c.response.Awaited? then Missing else c.response)
    else
      var l := c.lines[c.read];
      var d := c.(read := c.read + 1);
      if l.Garbage? then d.(phase := Over)
      else if initialization.Some? && c.response.Awaited? && l.name.None? && l.id == initialization then
        d.(phase := Held, response := Arrived(c.read))
      else if Forwarded(r, l) then d.(phase := Writing)
      else if l.id.Some? then d.(phase := Over)
      else d
  }

  lemma AdvanceGood(c: Child, r: Role, out: seq<Out>, initialized: bool, initialization: Option<Id>)
    requires Good(c, r, out, initialized) && c.phase == Reading
    ensures Good(Advance(c, r, initialization), r, out, initialized)
    ensures Advance(c, r, initialization).lines == c.lines
    ensures c.response.Arrived? ==> Advance(c, r, initialization).response == c.response
  {
    AdvanceRelayed(c, r, out, initialization);
    AdvanceBarred(c, r, out, initialized, initialization);
  }

  lemma AdvanceRelayed(c: Child, r: Role, out: seq<Out>, initialization: Option<Id>)
    requires Relayed(c, r, out) && c.phase == Reading
    requires c.response.Arrived? ==> c.response.at < c.read
    ensures Relayed(Advance(c, r, initialization), r, out)
  {
    hide Forwarded;
    var d := Advance(c, r, initialization);
    EligibleSame(c, d, r, c.read);
    ForwardedIsLine(r, c);
    assert Delivered(out, r) + InHand(c) == Delivered(out, r);
  }

  lemma ForwardedIsLine(r: Role, c: Child)
    ensures c.read < |c.lines| && Forwarded(r, c.lines[c.read]) ==> c.lines[c.read].Line?
  {}

  lemma AdvanceBarred(c: Child, r: Role, out: seq<Out>, initialized: bool, initialization: Option<Id>)
    requires Good(c, r, out, initialized) && c.phase == Reading
    ensures Barred(Advance(c, r, initialization), r, out, initialized)
  {
    hide Forwarded;
    assert Delivered(out, r) + InHand(c) == Delivered(out, r);
    forall k | 0 <= k < |out| && out[k].From? && out[k].role == r ensures out[k].at < c.read {
      DeliveredAt(out, r, k);
    }
  }

  lemma {:induction false} DeliveredAt(out: seq<Out>, r: Role, k: nat)
    requires k < |out| && out[k].From? && out[k].role == r
    ensures out[k].at in Delivered(out, r)
  {
    var n := |out| - 1;
    if k < n { DeliveredAt(out[..n], r, k); }
  }

  lemma WriteGood(c: Child, r: Role, out: seq<Out>, initialized: bool)
    requires Good(c, r, out, initialized) && c.phase == Writing
    requires initialized ==> Openings(out) != []
    ensures Good(c.(phase := Reading), r, out + [From(r, c.read - 1)], initialized)
  {
    var d := c.(phase := Reading);
    WriteRelayed(c, r, out);
    assert Barred(d, r, out, initialized) && (c.response.Arrived? ==> initialized);
    hide Relayed, Barred, Openings;
    BarredPush(d, r, out, initialized, From(r, c.read - 1));
  }

  lemma WriteRelayed(c: Child, r: Role, out: seq<Out>)
    requires Relayed(c, r, out) && c.phase == Writing
    ensures Relayed(c.(phase := Reading), r, out + [From(r, c.read - 1)])
  {
    EligibleSame(c, c.(phase := Reading), r, c.read);
    hide Eligible, Delivered, Openings;
    OutPush(out, From(r, c.read - 1));
  }

  lemma OthersGood(c: Child, r: Role, out: seq<Out>, initialized: bool, e: Out)
    requires Good(c, r, out, initialized) && (e.Init? || e.role != r)
    ensures Good(c, r, out + [e], initialized)
  {
    OutPush(out, e);
    BarredPush(c, r, out, initialized, e);
  }

  lemma ReleaseGood(c: Child, r: Role, out: seq<Out>)
    requires Good(c, r, out, true) && c.phase == Held
    ensures Good(c.(phase := Reading), r, out, true)
  {
    EligibleSame(c, c.(phase := Reading), r, c.read);
  }

  // ---------- the relay ----------

  datatype Front = Ready | Waiting | Publishing | Draining | Closed

  /** The response that speaks for both: an error if either is one. */
  function Choose(main: Child, host: Child): (r: Role)
    requires main.response.Arrived? && main.response.at < |main.lines|
    requires host.response.Arrived? && host.response.at < |host.lines|
    ensures var l := if r == Main then main.lines[main.response.at] else host.lines[host.response.at];
            IsError(l) <==> IsError(main.lines[main.response.at]) || IsError(host.lines[host.response.at])
    ensures r == Host <==> IsError(host.lines[host.response.at]) && !IsError(main.lines[main.response.at])
  {
    if IsError(main.lines[main.response.at]) then Main
    else if IsError(host.lines[host.response.at]) then Host
    else Main
  }

  predicate IsError(l: Line) {
    l.Line? && l.error
  }

  ghost predicate BothArrived(main: Child, host: Child) {
    && main.response.Arrived? && main.response.at < |main.lines|
    && host.response.Arrived? && host.response.at < |host.lines|
  }

  /** What is held as a child's initialize response is the answer to the client's request. */
  ghost predicate Recognized(c: Child, initialization: Option<Id>) {
    c.response.Arrived? ==>
      && c.response.at < |c.lines| && initialization.Some?
      && var l := c.lines[c.response.at];
         l.Line? && l.name.None? && l.id == initialization
  }

  ghost predicate Failed(main: Child, host: Child)
    requires BothArrived(main, host)
  {
    IsError(main.lines[main.response.at]) || IsError(host.lines[host.response.at])
  }

  /** At most one initialize response is published, only after both, and the right one; the
      client's side goes on exactly when it is no error. */
  ghost predicate Opened(front: Front, initialization: Option<Id>, initialized: bool, main: Child, host: Child,
                         out: seq<Out>) {
    && Recognized(main, initialization) && Recognized(host, initialization)
    && (initialized <==> Openings(out) != [] && front != Draining)
    && (initialization.None? ==> front == Ready || front == Closed)
    && (front == Draining ==> Openings(out) != [])
    && (front == Waiting || front == Publishing || initialization.None? ==> Openings(out) == [])
    && (front == Ready && initialization.Some? ==> initialized)
    && (front == Publishing || Openings(out) != [] ==> BothArrived(main, host))
    && (Openings(out) != [] ==> Openings(out) == [Choose(main, host)])
    && (initialized && front != Closed ==> !Failed(main, host))
  }

  /** Why the client's side has closed: its input ended or could not be read, a child ended
      without a response, or the published response is an error. */
  ghost predicate Reason(client: seq<Line>, taken: nat, main: Child, host: Child, out: seq<Out>)
    requires taken <= |client|
  {
    || taken == |client|
    || (taken > 0 && client[taken - 1].Garbage?)
    || (Openings(out) == [] && (main.response.Missing? || host.response.Missing?))
    || (Openings(out) != [] && BothArrived(main, host) && Failed(main, host))
  }

  /** Only a closed side has met a line it could not read. */
  ghost predicate Readable(client: seq<Line>, taken: nat, front: Front)
    requires taken <= |client|
  {
    front != Closed ==> forall i :: 0 <= i < taken ==> client[i].Line?
  }

  /** Reading on changes no response that is in. */
  lemma OpenedKept(front: Front, initialization: Option<Id>, initialized: bool, main: Child, host: Child,
                   out: seq<Out>, main': Child, host': Child)
    requires Opened(front, initialization, initialized, main, host, out)
    requires main'.lines == main.lines && (main.response.Arrived? ==> main'.response == main.response)
    requires host'.lines == host.lines && (host.response.Arrived? ==> host'.response == host.response)
    requires Recognized(main', initialization) && Recognized(host', initialization)
    ensures Opened(front, initialization, initialized, main', host', out)
  {}

  /** A line of a child is not an opening. */
  lemma OpenedWrite(front: Front, initialization: Option<Id>, initialized: bool, main: Child, host: Child,
                    out: seq<Out>, e: Out)
    requires Opened(front, initialization, initialized, main, host, out) && e.From?
    ensures Opened(front, initialization, initialized, main, host, out + [e])
  {
    OutPush(out, e);
  }

  /** The client's side may stop, or wait for its first initialization. */
  lemma OpenedClient(initialization: Option<Id>, initialized: bool, main: Child, host: Child, out: seq<Out>, id: Id)
    requires Opened(Ready, initialization, initialized, main, host, out)
    ensures Opened(Closed, initialization, initialized, main, host, out)
    ensures initialization.None? ==> Opened(Waiting, Some(id), initialized, main, host, out)
  {}

  lemma AdvanceRecognized(c: Child, r: Role, initialization: Option<Id>)
    requires c.read <= |c.lines| && Recognized(c, initialization)
    ensures Recognized(Advance(c, r, initialization), initialization)
    ensures c.response.Missing? ==> Advance(c, r, initialization).response.Missing?
  {
    hide Forwarded;
  }

  lemma Bounds(c: Child, r: Role, out: seq<Out>, initialized: bool)
    requires Good(c, r, out, initialized)
    ensures c.read <= |c.lines| && (c.phase == Writing ==> c.read > 0)
  {}

  lemma RoutedNext(client: seq<Line>, n: nat)
    requires n < |client|
    ensures var first := FirstId(client, n);
            FirstId(client, n + 1) == if first.None? && InitializeRequest(client[n]) then client[n].id else first
    ensures forall r :: Routed(client, r, n + 1) == Routed(client, r, n) + if Goes(client, r, n) then [n] else []
    ensures var l := client[n];
            && (InitializeRequest(l) ==> l.Line? && l.id.Some?)
            && forall r :: Goes(client, r, n) <==>
                 && l.Line?
                 && ((InitializeRequest(l) && FirstId(client, n).None?) || InitializedNotice(l)
                     || ForHost(l) == (r == Host))
  {
    hide ForHost;
  }

  /** When waiting for both responses is over. */
  predicate Gathered(a: Response, b: Response) {
    a.Missing? || b.Missing? || (a.Arrived? && b.Arrived?)
  }

  /** Who moves next. */
  datatype Move = ReadClient | Gather | Publish | Announce | ReadChild(r: Role) | WriteChild(r: Role) | Release(r: Role)

  /** The relay's variables. */
  datatype State = State(taken: nat, front: Front, initialization: Option<Id>, initialized: bool,
                         main: Child, host: Child, toMain: seq<nat>, toHost: seq<nat>, out: seq<Out>)
  {
    function Of(r: Role): (c: Child) { if r == Main then main else host }

    ghost function With(r: Role, c: Child): (s: State) { if r == Main then this.(main := c) else this.(host := c) }
  }

  /** The client's next line is passed on; its end or garbage closes this side. */
  ghost predicate TookClient(a: State, b: State, client: seq<Line>)
    requires a.taken <= |client|
  {
    var n := a.taken;
    if n == |client| then b == a.(front := Closed)
    else
      && b == a.(taken := n + 1, front := b.front, initialization := FirstId(client, n + 1),
                 toMain := a.toMain + (if Goes(client, Main, n) then [n] else []),
                 toHost := a.toHost + (if Goes(client, Host, n) then [n] else []))
      && b.front == if client[n].Garbage? then Closed
                    else if InitializeRequest(client[n]) && a.initialization.None? then Waiting else Ready
  }

  /** What one move does; a move that is not possible does nothing. */
  ghost predicate Moves(a: State, b: State, client: seq<Line>, m: Move)
    requires a.taken <= |client|
  {
    match m
    case ReadClient => if a.front == Ready then TookClient(a, b, client) else b == a
    case Gather =>
      var both := a.main.response.Arrived? && a.host.response.Arrived?;
      var none := a.main.response.Missing? || a.host.response.Missing?;
      b == if a.front != Waiting then a else if both then a.(front := Publishing)
           else if none then a.(front := Closed) else a
    case Publish =>
      if a.front == Publishing
      then BothArrived(a.main, a.host) && b == a.(front := Draining, out := a.out + [Init(Choose(a.main, a.host))])
      else b == a
    case Announce =>
      if a.front == Draining
      then BothArrived(a.main, a.host) &&
           b == a.(initialized := true, front := if Failed(a.main, a.host) then Closed else Ready)
      else b == a
    case ReadChild(r) =>
      if a.Of(r).phase == Reading
      then a.Of(r).read <= |a.Of(r).lines| && b == a.With(r, Advance(a.Of(r), r, a.initialization))
      else b == a
    case WriteChild(r) =>
      if a.Of(r).phase == Writing
      then a.Of(r).read > 0 &&
           b == a.With(r, a.Of(r).(phase := Reading)).(out := a.out + [From(r, a.Of(r).read - 1)])
      else b == a
    case Release(r) =>
      b == if a.initialized && a.Of(r).phase == Held then a.With(r, a.Of(r).(phase := Reading)) else a
  }

  class Relay {
    const client: seq<Line>
    var taken: nat
    var front: Front
    var initialization: Option<Id>
    var initialized: bool
    var main: Child
    var host: Child
    var toMain: seq<nat>
    var toHost: seq<nat>
    var out: seq<Out>

    ghost function View(): (s: State)
      reads this
    {
      State(taken, front, initialization, initialized, main, host, toMain, toHost, out)
    }

    ghost predicate Valid()
      reads this
    {
      && taken <= |client| && initialization == FirstId(client, taken)
      && toMain == Routed(client, Main, taken) && toHost == Routed(client, Host, taken)
      && Good(main, Main, out, initialized) && Good(host, Host, out, initialized)
      && Opened(front, initialization, initialized, main, host, out)
      && Readable(client, taken, front) && (front == Closed ==> Reason(client, taken, main, host, out))
    }

    constructor (input: seq<Line>, fromMain: seq<Line>, fromHost: seq<Line>)
      ensures Valid() && client == input && out == [] && taken == 0 && front == Ready
      ensures main == Child(fromMain, 0, Reading, Awaited) && host == Child(fromHost, 0, Reading, Awaited)
    {
      client, taken, front, initialization, initialized, out := input, 0, Ready, None, false, [];
      main, host := Child(fromMain, 0, Reading, Awaited), Child(fromHost, 0, Reading, Awaited);
      toMain, toHost := [], [];
    }

    /** Take one line from the client and pass it on; the end or garbage closes this side. */
    method TakeClient()
      requires Valid() && front == Ready
      modifies this`taken, this`front, this`initialization, this`toMain, this`toHost
      ensures Valid() && TookClient(old(View()), View(), client)
    {
      hide Good, Opened, Routed, FirstId, ForHost;
      OpenedClient(initialization, initialized, main, host, out, 0);
      if taken == |client| {
        front := Closed;
        return;
      }
      var l := client[taken];
      RoutedNext(client, taken);
      DestinationIs(l);
      var first := l.Line? && initialization.None? && l.name == Some("initialize") && l.id.Some?;
      OpenedClient(initialization, initialized, main, host, out, if first then l.id.value else 0);
      if l.Garbage? {
        front := Closed;
      } else if first {
        initialization, front := l.id, Waiting;
        toMain, toHost := toMain + [taken], toHost + [taken];
      } else if l.name == Some("initialized") && l.id.None? {
        toMain, toHost := toMain + [taken], toHost + [taken];
      } else if Destination(l) == Main {
        toMain := toMain + [taken];
      } else {
        toHost := toHost + [taken];
      }
      taken := taken + 1;
    }

    /** Both responses are in, or one will never come. */
    method GatherResponses()
      requires Valid() && front == Waiting
      requires Gathered(main.response, host.response)
      modifies this`front
      ensures Valid()
      ensures front == if main.response.Arrived? && host.response.Arrived? then Publishing else Closed
    {
      hide Good, Openings, FirstId, Routed;
      front := if main.response.Arrived? && host.response.Arrived? then Publishing else Closed;
    }

    method PublishResponse()
      requires Valid() && front == Publishing
      modifies this`front, this`out
      ensures Valid() && front == Draining
      ensures BothArrived(main, host) && out == old(out) + [Init(Choose(main, host))]
    {
      var e := Init(Choose(main, host));
      OutPush(out, e);
      hide Good, Openings, FirstId, Choose, Routed;
      OthersGood(main, Main, out, initialized, e);
      OthersGood(host, Host, out, initialized, e);
      out, front := out + [e], Draining;
    }

    /** Let the children go on; an error response ends the client's side. */
    method AnnounceInitialized()
      requires Valid() && front == Draining
      modifies this`front, this`initialized
      ensures Valid() && initialized && BothArrived(main, host)
      ensures front == if Failed(main, host) then Closed else Ready
    {
      assert Good(main, Main, out, true) && Good(host, Host, out, true);
      hide Good, Openings, FirstId, Routed;
      var chosen := if Choose(main, host) == Main then main else host;
      initialized := true;
      front := if IsError(chosen.lines[chosen.response.at]) then Closed else Ready;
    }

    /** A child's next line: its initialize response is held, the rest is for the client,
        dropped, or the child's end. */
    method NextLine(r: Role) returns (c: Child)
      requires Valid() && View().Of(r).read <= |View().Of(r).lines|
      ensures c == Advance(View().Of(r), r, initialization)
    {
      hide Good, Opened, FirstId, Routed, Reason;
      c := if r == Main then main else host;
      if c.read == |c.lines| {
        return c.(phase := Over, response := if c.response.Awaited? then Missing else c.response);
      }
      var l := c.lines[c.read];
      c := c.(read := c.read + 1);
      if l.Garbage? { return c.(phase := Over); }
      if initialization.Some? && c.response.Awaited? && l.name.None? && l.id == initialization {
        return c.(phase := Held, response := Arrived(c.read - 1));
      }
      if r == Main || l.name.None? {
        c := c.(phase := Writing);
      } else if l.id.Some? {
        c := c.(phase := Over);
      } else if l.name.value in HOST_NOTIFICATIONS {
        c := c.(phase := Writing);
      }
    }

    method TakeChild(r: Role)
      requires Valid() && View().Of(r).phase == Reading
      modifies this`main, this`host
      ensures Valid() && Moves(old(View()), View(), client, ReadChild(r))
    {
      hide Good, Opened, FirstId, Routed, Advance, Recognized, Forwarded;
      OpenedRecognizes(front, initialization, initialized, main, host, out);
      Bounds(main, Main, out, initialized);
      Bounds(host, Host, out, initialized);
      var c := NextLine(r);
      if r == Main {
        AdvanceGood(main, r, out, initialized, initialization);
        AdvanceRecognized(main, r, initialization);
        OpenedKept(front, initialization, initialized, main, host, out, c, host);
        main := c;
      } else {
        AdvanceGood(host, r, out, initialized, initialization);
        AdvanceRecognized(host, r, initialization);
        OpenedKept(front, initialization, initialized, main, host, out, main, c);
        host := c;
      }
    }

    /** The line in hand goes out. */
    method WriteLine(r: Role)
      requires Valid() && View().Of(r).phase == Writing
      modifies this`main, this`host, this`out
      ensures Valid() && Moves(old(View()), View(), client, WriteChild(r))
    {
      hide Good, Openings, FirstId, Routed, Opened, Recognized;
      OpenedRecognizes(front, initialization, initialized, main, host, out);
      Bounds(main, Main, out, initialized);
      Bounds(host, Host, out, initialized);
      var e := From(r, (if r == Main then main else host).read - 1);
      OutPush(out, e);
      OpenedWrite(front, initialization, initialized, main, host, out, e);
      if r == Main {
        WriteGood(main, r, out, initialized);
        OthersGood(host, Host, out, initialized, e);
        Rephased(main, initialization, Reading);
        OpenedKept(front, initialization, initialized, main, host, out + [e], main.(phase := Reading), host);
        main := main.(phase := Reading);
      } else {
        WriteGood(host, r, out, initialized);
        OthersGood(main, Main, out, initialized, e);
        Rephased(host, initialization, Reading);
        OpenedKept(front, initialization, initialized, main, host, out + [e], main, host.(phase := Reading));
        host := host.(phase := Reading);
      }
      out := out + [e];
    }

    method ReleaseChild(r: Role)
      requires Valid() && initialized && View().Of(r).phase == Held
      modifies this`main, this`host
      ensures Valid() && Moves(old(View()), View(), client, Release(r))
    {
      hide Good, Openings, FirstId, Routed;
      if r == Main {
        ReleaseGood(main, r, out);
        main := main.(phase := Reading);
      } else {
        ReleaseGood(host, r, out);
        host := host.(phase := Reading);
      }
    }

    /** One move, if it is possible. */
    method Step(m: Move)
      requires Valid()
      modifies this
      ensures Valid() && old(out) <= out && Moves(old(View()), View(), client, m)
    {
      hide Good, Openings, FirstId, Routed, Opened, Reason, Readable, TookClient, Advance;
      match m
      case ReadClient => if front == Ready { TakeClient(); }
      case Gather =>
        if front == Waiting && Gathered(main.response, host.response) {
          GatherResponses();
        }
      case Publish => if front == Publishing { PublishResponse(); }
      case Announce => if front == Draining { AnnounceInitialized(); }
      case ReadChild(r) => if (if r == Main then main else host).phase == Reading { TakeChild(r); }
      case WriteChild(r) => if (if r == Main then main else host).phase == Writing { WriteLine(r); }
      case Release(r) => if initialized && (if r == Main then main else host).phase == Held { ReleaseChild(r); }
    }

    /** Any interleaving of the client's side with the two children. */
    method Drive(moves: seq<Move>) returns (ghost trace: seq<State>)
      requires Valid()
      modifies this
      ensures Valid() && old(out) <= out
      ensures |trace| == |moves| + 1 && trace[0] == old(View()) && trace[|moves|] == View()
      ensures forall i :: 0 <= i < |moves| ==>
                trace[i].taken <= |client| && Moves(trace[i], trace[i + 1], client, moves[i])
    {
      hide Good, Openings, FirstId, Routed, Opened, Reason, Readable, Moves;
      trace := [View()];
      for i := 0 to |moves|
        invariant Valid() && old(out) <= out
        invariant |trace| == i + 1 && trace[0] == old(View()) && trace[i] == View()
        invariant forall k :: 0 <= k < i ==>
                    trace[k].taken <= |client| && Moves(trace[k], trace[k + 1], client, moves[k])
      {
        Step(moves[i]);
        trace := trace + [View()];
      }
    }

    /** With two good responses in, and input that can be read, the client's next line
        always gets to where it belongs. */
    method ServeNext()
      requires Valid() && taken < |client| && client[taken].Line? && initialization.Some?
      requires BothArrived(main, host) && !Failed(main, host)
      requires forall i :: 0 <= i < taken ==> client[i].Line?
      modifies this
      ensures Valid() && initialized && taken == old(taken) + 1
      ensures toMain == old(toMain) + if Goes(client, Main, old(taken)) then [old(taken)] else []
      ensures toHost == old(toHost) + if Goes(client, Host, old(taken)) then [old(taken)] else []
    {
      Settle();
      hide Good, Openings, Routed, Opened, Goes, Reason, Readable, FirstId;
      TakeClient();
    }

    /** The client's side comes to read again. */
    method Settle()
      requires Valid() && taken < |client| && initialization.Some?
      requires BothArrived(main, host) && !Failed(main, host)
      requires forall i :: 0 <= i < taken ==> client[i].Line?
      modifies this`front, this`out, this`initialized
      ensures Valid() && initialized && front == Ready
    {
      NeverClosed();
      hide Good, Openings, FirstId, Routed, Opened, Reason, Readable;
      if front == Waiting { GatherResponses(); }
      if front == Publishing { PublishResponse(); }
      if front == Draining { AnnounceInitialized(); }
      ReadyMeansInitialized();
    }

    lemma ReadyMeansInitialized()
      requires Valid() && front == Ready && initialization.Some?
      ensures initialized
    {}

    lemma NeverClosed()
      requires Valid() && taken < |client| && BothArrived(main, host) && !Failed(main, host)
      requires forall i :: 0 <= i < taken ==> client[i].Line?
      ensures front != Closed
    {}
  }

  lemma OpenedRecognizes(front: Front, initialization: Option<Id>, initialized: bool, main: Child, host: Child,
                         out: seq<Out>)
    requires Opened(front, initialization, initialized, main, host, out)
    ensures Recognized(main, initialization) && Recognized(host, initialization)
    ensures initialized ==> Openings(out) != []
  {}

  lemma Rephased(c: Child, initialization: Option<Id>, phase: Phase)
    requires Recognized(c, initialization)
    ensures Recognized(c.(phase := phase), initialization)
  {}
}
