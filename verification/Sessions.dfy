/** One connection of the exec server as values: its story, its books, and the steps that
    keep them in agreement. */
module Sessions {
  import opened Basics

  /** The pair of an id's type and value. */
  datatype Key = IntKey(n: int) | StringKey(s: string)

  /** What validation finds in a request's parameters. */
  datatype Params = Params(fields: bool, resume: bool, empty: bool, valid: bool, capable: bool)

  /** The wire names; `Other` is every name the server does not know. */
  datatype Method =
    | Initialize | EnvironmentInfo | EnvironmentStatus
    | ProcessStart | ProcessRead | ProcessWrite | ProcessSignal | ProcessTerminate
    | FsReadFile | FsOpen | FsReadBlock | FsClose | FsWriteFile | FsCreateDirectory | FsGetMetadata
    | FsCanonicalize | FsReadDirectory | FsWalk | FsRemove | FsCopy
    | CapabilityRootsDiscover | EnvironmentConfigRead | HttpRequest
    | Other(name: string)

  datatype Request = Request(key: Key, name: Method, params: Params)
  datatype Message = Response | Notification(name: string) | Call(request: Request)
  datatype Reply = Result | Error(code: int)

  predicate Control(r: Request) {
    || r.name.EnvironmentInfo? || r.name.EnvironmentStatus?
    || r.name.ProcessSignal? || r.name.ProcessTerminate? || r.name.FsClose?
  }

  predicate Info(r: Request) {
    r.name.EnvironmentInfo? || r.name.EnvironmentStatus?
  }

  /** The audited backend methods. */
  predicate Operation(r: Request) {
    !r.name.Initialize? && !Info(r) && !r.name.Other?
  }

  const PROCESS_METHODS: set<Method> := {ProcessStart, ProcessRead, ProcessWrite, ProcessSignal, ProcessTerminate}
  const FILE_METHODS: set<Method> := {
    FsReadFile, FsOpen, FsReadBlock, FsClose, FsWriteFile, FsCreateDirectory, FsGetMetadata, FsCanonicalize,
    FsReadDirectory, FsWalk, FsRemove, FsCopy}
  const BACKEND_METHODS: set<Method> :=
    PROCESS_METHODS + FILE_METHODS + {CapabilityRootsDiscover, EnvironmentConfigRead, HttpRequest}
  const CONTROL_METHODS: set<Method> := {EnvironmentInfo, EnvironmentStatus, ProcessSignal, ProcessTerminate, FsClose}

  /** The classes are the declared sets of names. */
  lemma ClassesAreNamed(r: Request)
    ensures Operation(r) <==> r.name in BACKEND_METHODS
    ensures Control(r) <==> r.name in CONTROL_METHODS
    ensures Info(r) <==> r.name in {EnvironmentInfo, EnvironmentStatus}
  {
    match r.name
    case Other(_) =>
    case _ =>
  }

  // ---------- what a request comes to ----------

  datatype Verdict = Opens | Replies(reply: Reply) | Invokes

  function Examine(r: Request, live: bool, initialized: bool, methods: set<Method>): (v: Verdict) {
    if r.name.Initialize? then
      if !r.params.fields then Replies(Error(-32602))
      else if live || r.params.resume then Replies(Error(-32600))
      else Opens
    else if r.name.Other? then Replies(Error(-32601))
    else if !live || !initialized then Replies(Error(-32600))
    else if Info(r) then
      if r.params.empty then Replies(Result) else Replies(Error(-32602))
    else if !r.params.valid then Replies(Error(-32602))
    else if r.name !in methods then Replies(Error(-32601))
    else if !r.params.capable then Replies(Error(-32602))
    else Invokes
  }

  /** The request opens the connection's one session. */
  ghost predicate Opening(r: Request, live: bool) {
    r.name.Initialize? && r.params.fields && !r.params.resume && !live
  }

  /** The request reaches the backend: a declared operation with valid parameters that ask
      for nothing undeclared, on an initialized session. */
  ghost predicate Callable(r: Request, live: bool, ready: bool, methods: set<Method>) {
    live && ready && Operation(r) && r.name in methods && r.params.valid && r.params.capable
  }

  /** The reply a request is due without the backend: each error has its own cause, and
      none of the causes that are looked at before it. */
  ghost predicate Due(r: Request, live: bool, ready: bool, methods: set<Method>, reply: Reply) {
    var usable := live && ready;
    match reply
    case Result => Info(r) && r.params.empty && usable
    case Error(code) =>
      || (code == -32601 && (r.name.Other? || (usable && Operation(r) && r.params.valid && r.name !in methods)))
      || (code == -32600 && r.name.Initialize? && r.params.fields && (live || r.params.resume))
      || (code == -32600 && (Info(r) || Operation(r)) && !usable)
      || (code == -32602 && r.name.Initialize? && !r.params.fields)
      || (code == -32602 && usable && Info(r) && !r.params.empty)
      || (code == -32602 && usable && Operation(r) && !r.params.valid)
      || (code == -32602 && usable && Operation(r) && r.params.valid && r.name in methods && !r.params.capable)
  }

  /** Every request opens, is called or is due exactly one reply, and examination tells which. */
  lemma ExamineIsDue(r: Request, live: bool, ready: bool, methods: set<Method>)
    ensures var v := Examine(r, live, ready, methods);
            && (v.Opens? <==> Opening(r, live))
            && (v.Invokes? <==> Callable(r, live, ready, methods))
            && (forall reply :: Due(r, live, ready, methods, reply) <==> v == Replies(reply))
  {}

  // ---------- the story of a connection ----------

  datatype Event =
    | Opened(session: string)
    | Ready
    | Arrived(serial: nat, request: Request)
    | Called(serial: nat, request: Request, session: string)
    | Answered(serial: nat, request: Request, reply: Reply, payload: Bytes)
    | Noticed(payload: Bytes)  // a backend's notification
    | Rejected(payload: Bytes) // the answer to a line that does not decode
    | Closed

  datatype Tag =
    | OfOpening | OfReady | OfArrival(n: nat) | OfCall(n: nat) | OfAnswer(n: nat) | OfNotice | OfRejection | OfClose

  function TagOf(e: Event): (t: Tag) {
    match e
    case Opened(_) => OfOpening
    case Ready => OfReady
    case Arrived(n, _) => OfArrival(n)
    case Called(n, _, _) => OfCall(n)
    case Answered(n, _, _, _) => OfAnswer(n)
    case Noticed(_) => OfNotice
    case Rejected(_) => OfRejection
    case Closed => OfClose
  }

  ghost predicate Seen(log: seq<Event>, t: Tag) {
    exists e :: e in log && TagOf(e) == t
  }

  lemma SeenPush(log: seq<Event>, e: Event)
    ensures forall t :: Seen(log + [e], t) <==> Seen(log, t) || TagOf(e) == t
  {
    assert e in log + [e];
    forall t ensures Seen(log + [e], t) <==> Seen(log, t) || TagOf(e) == t {
      if Seen(log, t) {
        var x :| x in log && TagOf(x) == t;
        assert x in log + [e];
      }
    }
  }

  /** When an event may follow a story: one opening; calls only after the handshake, before
      the close, for a declared method with good parameters and once per request; at most one answer per request,
      under its own id, and no success without a call; notifications only in between. */
  ghost predicate Admits(log: seq<Event>, e: Event, methods: set<Method>) {
    match e
    case Opened(_) => !Seen(log, OfOpening)
    case Ready => Seen(log, OfOpening)
    case Arrived(n, _) => !Seen(log, OfArrival(n)) && Closed !in log
    case Called(n, r, s) =>
      && Arrived(n, r) in log && Opened(s) in log && Ready in log && Closed !in log
      && Callable(r, true, true, methods) && !Seen(log, OfCall(n))
    case Answered(n, r, reply, _) =>
      && Arrived(n, r) in log && !Seen(log, OfAnswer(n))
      && (reply == Result && Operation(r) ==> Seen(log, OfCall(n)))
    case Noticed(_) => Ready in log && Closed !in log
    case Rejected(_) => Closed !in log
    case Closed => Closed !in log
  }

  ghost predicate Sound(log: seq<Event>, methods: set<Method>) {
    log == [] || (Sound(log[..|log| - 1], methods) && Admits(log[..|log| - 1], log[|log| - 1], methods))
  }

  lemma SoundPush(log: seq<Event>, e: Event, methods: set<Method>)
    requires Sound(log, methods) && Admits(log, e, methods)
    ensures Sound(log + [e], methods)
  {
    assert (log + [e])[..|log|] == log;
  }

  /** In a sound story every event was admitted by what came before it. */
  lemma {:induction false} SoundAt(log: seq<Event>, methods: set<Method>, i: nat)
    requires Sound(log, methods) && i < |log|
    ensures Admits(log[..i], log[i], methods)
  {
    var n := |log| - 1;
    if i < n {
      SoundAt(log[..n], methods, i);
      assert log[..n][..i] == log[..i];
    }
  }

  // ---------- the books ----------

  datatype Task = Task(ghost serial: nat, request: Request, running: bool, cancelled: bool)
  datatype Fate = Waiting(request: Request) | Settled(request: Request) | Lost(request: Request)

  function Class(pending: map<Key, Task>, control: bool): (keys: set<Key>) {
    set k | k in pending && Control(pending[k].request) == control
  }

  ghost predicate Counted(pending: map<Key, Task>, ordinary: int, control: int, max: nat) {
    && ordinary == |Class(pending, false)| <= max
    && control == |Class(pending, true)| <= max
  }

  /** A request is waiting exactly while it is in the table, except the one in hand. */
  ghost predicate Kept(pending: map<Key, Task>, fate: seq<Fate>, hand: int) {
    && (forall k :: k in pending ==> KeptTask(pending, fate, hand, k))
    && (forall n {:trigger fate[n]} :: 0 <= n < |fate| && fate[n].Waiting? && n != hand ==>
          var k := fate[n].request.key; k in pending && pending[k].serial == n)
  }

  ghost predicate KeptTask(pending: map<Key, Task>, fate: seq<Fate>, hand: int, k: Key)
    requires k in pending
  {
    var t := pending[k];
    && t.serial < |fate| && fate[t.serial].request == t.request && t.request.key == k
    && (fate[t.serial].Waiting? || t.serial == hand)
  }

  /** The books against the story. */
  ghost predicate Logged(fate: seq<Fate>, log: seq<Event>, excused: bool) {
    && (forall n {:trigger fate[n]} :: 0 <= n < |fate| ==> Arrived(n, fate[n].request) in log)
    && (forall n {:trigger fate[n]} :: 0 <= n < |fate| ==> (fate[n].Settled? <==> Seen(log, OfAnswer(n))))
    && (forall n {:trigger fate[n]} :: 0 <= n < |fate| && fate[n].Lost? ==> excused)
    && (forall n {:trigger Seen(log, OfArrival(n))} :: n >= |fate| ==> !Seen(log, OfArrival(n)))
    && (forall n {:trigger Seen(log, OfAnswer(n))} :: n >= |fate| ==> !Seen(log, OfAnswer(n)))
    && (forall n {:trigger Seen(log, OfCall(n))} :: n >= |fate| ==> !Seen(log, OfCall(n)))
  }

  ghost predicate Phased(pending: map<Key, Task>, log: seq<Event>, closed: bool) {
    && (forall k :: k in pending ==> (pending[k].running <==> Seen(log, OfCall(pending[k].serial))))
    && (forall k :: k in pending ==> pending[k].request.name != Initialize && (closed ==> pending[k].cancelled))
  }

  ghost predicate Shaken(session: Option<string>, initialized: bool, closed: bool, log: seq<Event>) {
    && (session.Some? <==> Seen(log, OfOpening))
    && (session.Some? ==> Opened(session.value) in log)
    && (initialized ==> session.Some? && Ready in log)
    && (closed <==> Closed in log)
  }

  lemma CountAdd(pending: map<Key, Task>, k: Key, t: Task, c: bool)
    requires k !in pending
    ensures |Class(pending[k := t], c)| == |Class(pending, c)| + if Control(t.request) == c then 1 else 0
  {
    assert Class(pending[k := t], c) == Class(pending, c) + if Control(t.request) == c then {k} else {};
  }

  lemma CountRemove(pending: map<Key, Task>, k: Key, c: bool)
    requires k in pending
    ensures |Class(pending - {k}, c)| == |Class(pending, c)| - if Control(pending[k].request) == c then 1 else 0
  {
    assert Class(pending - {k}, c) == Class(pending, c) - {k};
  }

  /** Starting and cancelling tasks changes neither the table's keys nor its requests. */
  lemma Retask(pending: map<Key, Task>, pending': map<Key, Task>, fate: seq<Fate>, ordinary: int, control: int,
               max: nat)
    requires Kept(pending, fate, -1) && Counted(pending, ordinary, control, max)
    requires pending'.Keys == pending.Keys
    requires forall k :: k in pending ==>
               pending'[k].serial == pending[k].serial && pending'[k].request == pending[k].request
    ensures Kept(pending', fate, -1) && Counted(pending', ordinary, control, max)
  {
    assert Class(pending', true) == Class(pending, true) && Class(pending', false) == Class(pending, false);
    forall k | k in pending' ensures KeptTask(pending', fate, -1, k) {
      assert KeptTask(pending, fate, -1, k);
    }
  }

  lemma KeptAdmit(pending: map<Key, Task>, fate: seq<Fate>, n: nat, r: Request)
    requires Kept(pending, fate, n) && n < |fate| && fate[n] == Waiting(r) && r.key !in pending
    requires forall k :: k in pending ==> pending[k].serial != n
    ensures Kept(pending[r.key := Task(n, r, false, false)], fate, -1)
  {
    var pending' := pending[r.key := Task(n, r, false, false)];
    forall k | k in pending' ensures KeptTask(pending', fate, -1, k) {
      if k != r.key { assert KeptTask(pending, fate, n, k); }
    }
  }

  lemma KeptRelease(pending: map<Key, Task>, fate: seq<Fate>, k: Key)
    requires k in pending && Kept(pending, fate, pending[k].serial)
    requires pending[k].serial < |fate| && !fate[pending[k].serial].Waiting?
    ensures Kept(pending - {k}, fate, -1)
  {
    var n := pending[k].serial;
    assert KeptTask(pending, fate, n, k);
    forall q | q in pending - {k} ensures KeptTask(pending - {k}, fate, -1, q) {
      assert KeptTask(pending, fate, n, q);
    }
  }

  lemma LoggedPush(fate: seq<Fate>, log: seq<Event>, excused: bool, e: Event)
    requires Logged(fate, log, excused)
    requires !e.Arrived? && !e.Answered? && (e.Called? ==> e.serial < |fate|)
    ensures Logged(fate, log + [e], excused)
  {
    SeenPush(log, e);
  }

  lemma PhasedAdmit(pending: map<Key, Task>, log: seq<Event>, n: nat, r: Request)
    requires Phased(pending, log, false) && !Seen(log, OfCall(n)) && !r.name.Initialize?
    ensures Phased(pending[r.key := Task(n, r, false, false)], log, false)
  {
    hide Seen;
  }

  lemma PhasedBegin(pending: map<Key, Task>, log: seq<Event>, closed: bool, k: Key, e: Event)
    requires Phased(pending, log, closed) && k in pending && e.Called? && e.serial == pending[k].serial
    requires forall q :: q in pending && q != k ==> pending[q].serial != pending[k].serial
    ensures Phased(pending[k := pending[k].(running := true)], log + [e], closed)
  {
    SeenPush(log, e);
    hide Seen;
  }

  lemma PhasedShut(pending: map<Key, Task>, log: seq<Event>)
    requires Phased(pending, log, false)
    ensures Phased(map k | k in pending :: pending[k].(cancelled := true), log + [Closed], true)
  {
    SeenPush(log, Closed);
    hide Seen;
  }

  /** An arrival is in hand until it is answered or queued. */
  lemma BooksArrive(pending: map<Key, Task>, fate: seq<Fate>, log: seq<Event>, excused: bool, r: Request)
    requires Kept(pending, fate, -1) && Logged(fate, log, excused)
    ensures Kept(pending, fate + [Waiting(r)], |fate|)
    ensures Logged(fate + [Waiting(r)], log + [Arrived(|fate|, r)], excused)
    ensures !Seen(log, OfArrival(|fate|))
  {
    var fate', log' := fate + [Waiting(r)], log + [Arrived(|fate|, r)];
    SeenPush(log, Arrived(|fate|, r));
    forall k | k in pending ensures KeptTask(pending, fate', |fate|, k) {
      assert KeptTask(pending, fate, -1, k);
    }
    forall n | 0 <= n < |fate'|
      ensures Arrived(n, fate'[n].request) in log' && (fate'[n].Settled? <==> Seen(log', OfAnswer(n)))
    {
      assert n < |fate| ==> fate'[n] == fate[n];
    }
  }

  /** The request in hand is answered, or lost with an excuse. */
  lemma BooksSettle(pending: map<Key, Task>, fate: seq<Fate>, log: seq<Event>, excused: bool, n: nat, reply: Reply,
                    payload: Bytes)
    requires Kept(pending, fate, n) && Logged(fate, log, excused) && n < |fate|
    ensures var r := fate[n].request;
            && Kept(pending, fate[n := Settled(r)], n)
            && Logged(fate[n := Settled(r)], log + [Answered(n, r, reply, payload)], excused)
  {
    var r := fate[n].request;
    var fate', log' := fate[n := Settled(r)], log + [Answered(n, r, reply, payload)];
    SeenPush(log, Answered(n, r, reply, payload));
    forall k | k in pending ensures KeptTask(pending, fate', n, k) {
      assert KeptTask(pending, fate, n, k);
    }
  }

  lemma BooksLose(pending: map<Key, Task>, fate: seq<Fate>, log: seq<Event>, excused: bool, n: nat)
    requires Kept(pending, fate, n) && Logged(fate, log, excused) && n < |fate| && !fate[n].Settled?
    ensures Kept(pending, fate[n := Lost(fate[n].request)], n)
    ensures Logged(fate[n := Lost(fate[n].request)], log, true)
  {
    var fate' := fate[n := Lost(fate[n].request)];
    forall k | k in pending ensures KeptTask(pending, fate', n, k) {
      assert KeptTask(pending, fate, n, k);
    }
  }

  // ---------- the state of a connection and its steps ----------

  datatype State = State(session: Option<string>, initialized: bool, closed: bool, broken: bool,
                         pending: map<Key, Task>, ordinary: int, control: int,
                         log: seq<Event>, fate: seq<Fate>)

  /** What holds of a connection in every state, with request `hand` between two hands. */
  ghost predicate Good(s: State, methods: set<Method>, max: nat, hand: int) {
    && Counted(s.pending, s.ordinary, s.control, max)
    && Kept(s.pending, s.fate, hand)
    && Logged(s.fate, s.log, s.closed || s.broken)
    && Phased(s.pending, s.log, s.closed)
    && Shaken(s.session, s.initialized, s.closed, s.log)
    && Sound(s.log, methods)
  }

  ghost function Arrive(s: State, r: Request): (s': State) {
    s.(fate := s.fate + [Waiting(r)], log := s.log + [Arrived(|s.fate|, r)])
  }

  ghost function Answer(s: State, n: nat, reply: Reply, payload: Bytes): (s': State)
    requires n < |s.fate|
  {
    var r := s.fate[n].request;
    s.(fate := s.fate[n := Settled(r)], log := s.log + [Answered(n, r, reply, payload)])
  }

  ghost function Lose(s: State, n: nat): (s': State)
    requires n < |s.fate|
  {
    s.(fate := s.fate[n := Lost(s.fate[n].request)])
  }

  lemma QuietPush(s: State, e: Event)
    requires Phased(s.pending, s.log, s.closed) && Shaken(s.session, s.initialized, s.closed, s.log)
    requires e.Arrived? || e.Answered? || e.Noticed? || e.Rejected?
    ensures Phased(s.pending, s.log + [e], s.closed) && Shaken(s.session, s.initialized, s.closed, s.log + [e])
  {
    SeenPush(s.log, e);
  }

  lemma ArriveGood(s: State, r: Request, methods: set<Method>, max: nat)
    requires Good(s, methods, max, -1) && !s.closed
    ensures Good(Arrive(s, r), methods, max, |s.fate|)
    ensures forall k :: k in s.pending ==> s.pending[k].serial != |s.fate|
  {
    FreshSerial(s.pending, s.fate, s.log, s.closed || s.broken, r);
    var e := Arrived(|s.fate|, r);
    BooksArrive(s.pending, s.fate, s.log, s.closed || s.broken, r);
    QuietPush(s, e);
    assert Admits(s.log, e, methods);
    hide Kept, Logged, Phased, Shaken, Counted, Admits;
    SoundPush(s.log, e, methods);
  }

  lemma AnswerGood(s: State, n: nat, reply: Reply, payload: Bytes, methods: set<Method>, max: nat)
    requires Good(s, methods, max, n) && n < |s.fate| && s.fate[n].Waiting?
    requires reply == Result && Operation(s.fate[n].request) ==> Seen(s.log, OfCall(n))
    ensures Good(Answer(s, n, reply, payload), methods, max, n)
  {
    var e := Answered(n, s.fate[n].request, reply, payload);
    BooksSettle(s.pending, s.fate, s.log, s.closed || s.broken, n, reply, payload);
    QuietPush(s, e);
    assert Admits(s.log, e, methods);
    hide Kept, Logged, Phased, Shaken, Counted, Admits;
    SoundPush(s.log, e, methods);
  }

  lemma LoseGood(s: State, n: nat, methods: set<Method>, max: nat)
    requires Good(s, methods, max, n) && n < |s.fate| && s.fate[n].Waiting? && (s.closed || s.broken)
    ensures Good(Lose(s, n), methods, max, n)
  {
    BooksLose(s.pending, s.fate, s.log, s.closed || s.broken, n);
  }

  ghost function Admit(s: State, r: Request): (s': State) {
    var t := Arrive(s, r);
    t.(pending := t.pending[r.key := Task(|s.fate|, r, false, false)],
       control := t.control + (if Control(r) then 1 else 0), ordinary := t.ordinary + (if Control(r) then 0 else 1))
  }

  /** The `finally` block: out of the table and out of the count. */
  ghost function Release(s: State, k: Key): (s': State)
    requires k in s.pending
  {
    var c := Control(s.pending[k].request);
    s.(pending := s.pending - {k},
       control := s.control - (if c then 1 else 0), ordinary := s.ordinary - (if c then 0 else 1))
  }

  ghost function Begin(s: State, k: Key): (s': State)
    requires k in s.pending && s.session.Some?
  {
    var t := s.pending[k];
    s.(pending := s.pending[k := t.(running := true)], log := s.log + [Called(t.serial, t.request, s.session.value)])
  }

  ghost function Open(s: State, uuid: string): (s': State) {
    s.(session := Some(uuid), log := s.log + [Opened(uuid)])
  }

  ghost function MakeReady(s: State): (s': State) {
    s.(initialized := true, log := s.log + [Ready])
  }

  ghost function Shut(s: State): (s': State) {
    s.(closed := true, pending := map k | k in s.pending :: s.pending[k].(cancelled := true), log := s.log + [Closed])
  }

  /** Request `n` is given its answer, or loses it to a channel that takes no more. */
  ghost function Told(s: State, n: nat, reply: Reply, sent: Option<Bytes>): (s': State)
    requires n < |s.fate|
  {
    if sent.Some? then Answer(s, n, reply, sent.value) else Lose(s.(broken := true), n)
  }

  /** A task hands over its answer, or loses it to a broken channel, and leaves. */
  ghost function Concluded(s: State, k: Key, reply: Reply, sent: Option<Bytes>): (s': State)
    requires k in s.pending && s.pending[k].serial < |s.fate|
  {
    var n := s.pending[k].serial;
    Release(Told(s, n, reply, sent), k)
  }

  /** A request answered as soon as it is read. */
  ghost predicate ToldNow(s: State, s': State, r: Request, reply: Reply, sent: Option<Bytes>) {
    s' == Told(Arrive(s, r), |s.fate|, reply, sent)
  }

  /** The handshake: a session is opened, or the request is told what it is due. */
  ghost predicate Handshake(s: State, s': State, r: Request, uuid: string, methods: set<Method>, sent: Option<Bytes>) {
    if Opening(r, s.session.Some?) then s' == Told(Open(Arrive(s, r), uuid), |s.fate|, Result, sent)
    else exists reply :: Due(r, s.session.Some?, s.initialized, methods, reply) && ToldNow(s, s', r, reply, sent)
  }

  /** The first step of a task: called, or told what it is due; nothing if cancelled. */
  ghost predicate Started(s: State, s': State, k: Key, methods: set<Method>, sent: Option<Bytes>)
    requires k in s.pending && s.pending[k].serial < |s.fate|
  {
    var r := s.pending[k].request;
    if s.pending[k].cancelled then s' == s
    else if Callable(r, s.session.Some?, s.initialized, methods) then s.session.Some? && s' == Begin(s, k)
    else exists reply :: Due(r, s.session.Some?, s.initialized, methods, reply) && s' == Concluded(s, k, reply, sent)
  }

  /** The end of a task: told the backend's reply, or unwound by its cancellation. */
  ghost predicate Finished(s: State, s': State, k: Key, reply: Option<Reply>, sent: Option<Bytes>)
    requires k in s.pending && s.pending[k].serial < |s.fate|
  {
    s' == if reply.Some? then Concluded(s, k, reply.value, sent) else Release(Lose(s, s.pending[k].serial), k)
  }

  predicate HasRoom(s: State, r: Request, max: nat) {
    if Control(r) then s.control < max else s.ordinary < max
  }

  /** One envelope: `ok` is false for a protocol failure. */
  ghost predicate Dispatched(s: State, s': State, m: Message, uuid: string, methods: set<Method>, max: nat,
                             sent: Option<Bytes>, ok: bool)
  {
    if s.closed then !ok && s' == s
    else
      match m
      case Response => !ok && s' == s
      case Notification(name) =>
        (ok <==> name == "initialized" && s.session.Some?) && s' == if ok then MakeReady(s) else s
      case Call(r) =>
        if r.key in s.pending then !ok && s' == s
        else if r.name.Initialize? || !s.initialized then ok == sent.Some? && Handshake(s, s', r, uuid, methods, sent)
        else if HasRoom(s, r, max) then ok && s' == Admit(s, r)
        else ok == sent.Some? && ToldNow(s, s', r, Error(-32000), sent)
  }

  /** A message that answers no request goes out, or finds the channel full or broken. */
  ghost function Said(s: State, e: Event, sent: bool): (s': State) {
    if sent then s.(log := s.log + [e]) else s.(broken := true)
  }

  lemma AdmitGood(s: State, r: Request, methods: set<Method>, max: nat)
    requires Good(s, methods, max, -1) && !s.closed
    requires r.key !in s.pending && !r.name.Initialize? && HasRoom(s, r, max)
    ensures Good(Admit(s, r), methods, max, -1)
  {
    hide Class, Kept, Logged, Phased, Sound, Shaken, Seen, Control;
    var n, t, s' := |s.fate|, Task(|s.fate|, r, false, false), Arrive(s, r);
    FreshSerial(s.pending, s.fate, s.log, s.closed || s.broken, r);
    ArriveGood(s, r, methods, max);
    CountAdd(s.pending, r.key, t, true);
    CountAdd(s.pending, r.key, t, false);
    KeptAdmit(s.pending, s'.fate, n, r);
    PhasedAdmit(s.pending, s'.log, n, r);
  }

  lemma FreshSerial(pending: map<Key, Task>, fate: seq<Fate>, log: seq<Event>, excused: bool, r: Request)
    requires Kept(pending, fate, -1) && Logged(fate, log, excused)
    ensures !Seen(log + [Arrived(|fate|, r)], OfCall(|fate|))
    ensures forall k :: k in pending ==> pending[k].serial != |fate|
  {
    SeenPush(log, Arrived(|fate|, r));
    forall k | k in pending ensures pending[k].serial != |fate| {
      assert KeptTask(pending, fate, -1, k);
    }
  }

  lemma ReleaseGood(s: State, k: Key, methods: set<Method>, max: nat)
    requires k in s.pending && Good(s, methods, max, s.pending[k].serial)
    requires s.pending[k].serial < |s.fate| && !s.fate[s.pending[k].serial].Waiting?
    ensures Good(Release(s, k), methods, max, -1)
  {
    hide Class, Kept, Sound, Shaken, Logged;
    CountRemove(s.pending, k, true);
    CountRemove(s.pending, k, false);
    KeptRelease(s.pending, s.fate, k);
  }

  lemma BeginGood(s: State, k: Key, methods: set<Method>, max: nat)
    requires Good(s, methods, max, -1) && k in s.pending && !s.pending[k].running && !s.pending[k].cancelled
    requires s.session.Some? && s.initialized
    requires Callable(s.pending[k].request, true, true, methods)
    ensures Good(Begin(s, k), methods, max, -1)
  {
    var s', t := Begin(s, k), s.pending[k];
    var e := Called(t.serial, t.request, s.session.value);
    assert t.serial < |s.fate| && s.fate[t.serial].request == t.request by {
      assert KeptTask(s.pending, s.fate, -1, k);
    }
    assert Admits(s.log, e, methods);
    assert Shaken(s.session, s.initialized, s.closed, s'.log) by { SeenPush(s.log, e); }
    hide Class, Kept, Counted, Logged, Phased, Sound, Shaken, Seen, Admits, Callable, Operation;
    SerialsDiffer(s.pending, s.fate, k);
    PhasedBegin(s.pending, s.log, s.closed, k, e);
    Retask(s.pending, s'.pending, s.fate, s.ordinary, s.control, max);
    LoggedPush(s.fate, s.log, s.closed || s.broken, e);
    SoundPush(s.log, e, methods);
  }

  lemma SerialsDiffer(pending: map<Key, Task>, fate: seq<Fate>, k: Key)
    requires Kept(pending, fate, -1) && k in pending
    ensures forall q :: q in pending && q != k ==> pending[q].serial != pending[k].serial
  {
    assert KeptTask(pending, fate, -1, k);
    forall q | q in pending && q != k ensures pending[q].serial != pending[k].serial {
      assert KeptTask(pending, fate, -1, q);
    }
  }

  lemma OpenGood(s: State, uuid: string, methods: set<Method>, max: nat, hand: int)
    requires Good(s, methods, max, hand) && s.session.None?
    ensures Good(Open(s, uuid), methods, max, hand)
  {
    SeenPush(s.log, Opened(uuid));
    SoundPush(s.log, Opened(uuid), methods);
    LoggedPush(s.fate, s.log, s.closed || s.broken, Opened(uuid));
  }

  lemma MakeReadyGood(s: State, methods: set<Method>, max: nat)
    requires Good(s, methods, max, -1) && s.session.Some?
    ensures Good(MakeReady(s), methods, max, -1)
  {
    SeenPush(s.log, Ready);
    SoundPush(s.log, Ready, methods);
    LoggedPush(s.fate, s.log, s.closed || s.broken, Ready);
  }

  lemma ShutGood(s: State, methods: set<Method>, max: nat)
    requires Good(s, methods, max, -1) && !s.closed
    ensures Good(Shut(s), methods, max, -1)
  {
    hide Class, Kept, Counted, Logged, Phased, Sound, Shaken, Seen;
    var s' := Shut(s);
    ShakenShut(s.session, s.initialized, s.log);
    LoggedExcused(s.fate, s.log, s.broken);
    PhasedShut(s.pending, s.log);
    Retask(s.pending, s'.pending, s.fate, s.ordinary, s.control, max);
    LoggedPush(s.fate, s.log, true, Closed);
    SoundPush(s.log, Closed, methods);
  }

  lemma ShakenShut(session: Option<string>, initialized: bool, log: seq<Event>)
    requires Shaken(session, initialized, false, log)
    ensures Closed !in log && Shaken(session, initialized, true, log + [Closed])
  {
    SeenPush(log, Closed);
  }

  lemma LoggedExcused(fate: seq<Fate>, log: seq<Event>, excused: bool)
    requires Logged(fate, log, excused)
    ensures Logged(fate, log, true)
  {}

  lemma BreakGood(s: State, n: nat, methods: set<Method>, max: nat)
    requires Good(s, methods, max, n) && n < |s.fate| && s.fate[n].Waiting?
    ensures Good(Lose(s.(broken := true), n), methods, max, n)
  {
    BooksLose(s.pending, s.fate, s.log, s.closed || s.broken, n);
  }

  /** An answered request that is not in the table is out of hand. */
  lemma SettledGood(s: State, n: nat, methods: set<Method>, max: nat)
    requires Good(s, methods, max, n) && n < |s.fate| && !s.fate[n].Waiting?
    requires forall k :: k in s.pending ==> s.pending[k].serial != n
    ensures Good(s, methods, max, -1)
  {
    forall k | k in s.pending ensures KeptTask(s.pending, s.fate, -1, k) {
      assert KeptTask(s.pending, s.fate, n, k);
    }
  }

  lemma TaskGood(s: State, k: Key, methods: set<Method>, max: nat)
    requires Good(s, methods, max, -1) && k in s.pending
    ensures var t := s.pending[k];
            && t.serial < |s.fate| && s.fate[t.serial] == Waiting(t.request) && !t.request.name.Initialize?
            && (t.running <==> Seen(s.log, OfCall(t.serial))) && (s.closed ==> t.cancelled)
  {
    assert KeptTask(s.pending, s.fate, -1, k);
  }

  lemma HandGood(s: State, k: Key, methods: set<Method>, max: nat)
    requires Good(s, methods, max, -1) && k in s.pending
    ensures Good(s, methods, max, s.pending[k].serial)
  {
    var n := s.pending[k].serial;
    forall q | q in s.pending ensures KeptTask(s.pending, s.fate, n, q) {
      assert KeptTask(s.pending, s.fate, -1, q);
    }
  }

  lemma JamGood(s: State, methods: set<Method>, max: nat)
    requires Good(s, methods, max, -1)
    ensures Good(s.(broken := true), methods, max, -1)
  {}

  lemma SendGood(s: State, e: Event, methods: set<Method>, max: nat)
    requires Good(s, methods, max, -1) && Admits(s.log, e, methods) && (e.Noticed? || e.Rejected?)
    ensures Good(s.(log := s.log + [e]), methods, max, -1)
  {
    QuietPush(s, e);
    LoggedPush(s.fate, s.log, s.closed || s.broken, e);
    hide Kept, Logged, Phased, Shaken, Counted, Admits;
    SoundPush(s.log, e, methods);
  }

  /** The counters say how many requests of each class are in flight, within the limit. */
  lemma CountersExact(s: State, methods: set<Method>, max: nat)
    requires Good(s, methods, max, -1)
    ensures s.control == |set k | k in s.pending && s.pending[k].request.name in CONTROL_METHODS| <= max
    ensures s.ordinary == |set k | k in s.pending && s.pending[k].request.name !in CONTROL_METHODS| <= max
  {
    forall k | k in s.pending
      ensures Control(s.pending[k].request) <==> s.pending[k].request.name in CONTROL_METHODS
    {
      ClassesAreNamed(s.pending[k].request);
    }
    hide Control;
    assert Class(s.pending, true) == set k | k in s.pending && s.pending[k].request.name in CONTROL_METHODS;
    assert Class(s.pending, false) == set k | k in s.pending && s.pending[k].request.name !in CONTROL_METHODS;
  }

  /** Each request on a live connection has its answer or is in flight, whatever else is. */
  lemma AnsweredOrInFlight(s: State, methods: set<Method>, max: nat)
    requires Good(s, methods, max, -1)
    ensures !s.closed && !s.broken ==> forall n :: 0 <= n < |s.fate| ==> Accounted(s, n)
  {}

  ghost predicate Accounted(s: State, n: nat)
    requires n < |s.fate|
  {
    var k := s.fate[n].request.key;
    || Seen(s.log, OfAnswer(n))
    || (k in s.pending && s.pending[k].serial == n && s.pending[k].request == s.fate[n].request)
  }

  // ---------- what goes out ----------

  /** The messages of a story, in the order they were handed to the output. */
  function Emitted(log: seq<Event>): (ps: seq<Bytes>) {
    if log == [] then []
    else
      var n := |log| - 1;
      Emitted(log[..n]) + Sends(log[n])
  }

  function Sends(e: Event): (ps: seq<Bytes>) {
    if e.Answered? || e.Noticed? || e.Rejected? then [e.payload] else []
  }

  lemma EmittedPush(log: seq<Event>, e: Event)
    ensures Emitted(log + [e]) == Emitted(log) + Sends(e)
  {
    assert (log + [e])[..|log|] == log;
  }

  /** Only `initialized` and free messages happen twice: one opening, one close, and for each
      request one arrival, at most one backend call and at most one answer. */
  lemma Unrepeated(log: seq<Event>, methods: set<Method>, i: nat, j: nat)
    requires Sound(log, methods) && i < j < |log| && !log[j].Ready? && !log[j].Noticed? && !log[j].Rejected?
    ensures TagOf(log[i]) != TagOf(log[j])
  {
    SoundAt(log, methods, j);
    assert log[..j][i] in log[..j];
  }

  /** A backend call comes after the opening of its session and after `initialized`, before
      any close, for a declared operation with valid and capable parameters whose request
      arrived earlier. */
  lemma CalledInOrder(log: seq<Event>, methods: set<Method>, i: nat) returns (opening: nat, ready: nat, arrival: nat)
    requires Sound(log, methods) && i < |log| && log[i].Called?
    ensures opening < ready < i && log[opening] == Opened(log[i].session) && log[ready] == Ready
    ensures arrival < i && log[arrival] == Arrived(log[i].serial, log[i].request)
    ensures Operation(log[i].request) && log[i].request.name in methods
    ensures log[i].request.params.valid && log[i].request.params.capable
    ensures forall j :: 0 <= j < i ==> log[j] != Closed
  {
    SoundAt(log, methods, i);
    var past := log[..i];
    opening :| 0 <= opening < i && past[opening] == Opened(log[i].session);
    ready :| 0 <= ready < i && past[ready] == Ready;
    arrival :| 0 <= arrival < i && past[arrival] == Arrived(log[i].serial, log[i].request);
    SoundAt(log, methods, ready);
    var e :| e in log[..ready] && TagOf(e) == OfOpening;
    var first :| 0 <= first < ready && log[..ready][first] == e;
    if first < opening {
      Unrepeated(log, methods, first, opening);
    } else if opening < first {
      Unrepeated(log, methods, opening, first);
    }
    forall j | 0 <= j < i ensures log[j] != Closed {
      assert past[j] in past;
    }
  }
}
