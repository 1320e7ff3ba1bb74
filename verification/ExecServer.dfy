/** The exec server's connection object: handshake, admission, concurrent tasks and close. */
module ExecServer {
  import opened Basics
  import opened Framing
  import opened Sessions
  import OutputChannel

  /** What the event loop may do next; `data` is the encoded message of an emission, if it
      encodes at all. */
  datatype Step =
    | Receive(m: Message, uuid: string, data: Option<Bytes>)
    | Reject(data: Option<Bytes>)
    | Run(k: Key, data: Option<Bytes>)
    | Return(k: Key, reply: Option<Reply>, data: Option<Bytes>)
    | Notify(data: Option<Bytes>)
    | Write(e: OutputChannel.Event)
    | Disconnect
  {
    /** The message the step hands to the output, if any. */
    function Data(): (d: Option<Bytes>) { if Write? || Disconnect? then None else data }
  }

  ghost function Ended(s: State): (s': State) {
    if s.closed then s else Shut(s)
  }

  /** An envelope is dispatched, and a protocol failure ends the connection. */
  ghost predicate Heard(s: State, s': State, m: Message, uuid: string, methods: set<Method>, max: nat,
                        sent: Option<Bytes>)
  {
    if s.closed then s' == s
    else exists mid, ok :: Dispatched(s, mid, m, uuid, methods, max, sent, ok) && s' == if ok then mid else Ended(mid)
  }

  /** A line that does not decode is answered, and ends the connection if that fails. */
  ghost predicate TurnedAway(s: State, s': State, e: Event, taken: bool) {
    s' == if s.closed then s else if taken then Said(s, e, true) else Ended(Said(s, e, false))
  }

  ghost predicate Ran(s: State, s': State, k: Key, methods: set<Method>, sent: Option<Bytes>) {
    if k in s.pending && !s.pending[k].running
    then s.pending[k].serial < |s.fate| && Started(s, s', k, methods, sent) else s' == s
  }

  ghost predicate CameBack(s: State, s': State, k: Key, reply: Option<Reply>, sent: Option<Bytes>) {
    if k in s.pending && s.pending[k].running && (reply.None? ==> s.closed)
    then s.pending[k].serial < |s.fate| && Finished(s, s', k, reply, sent) else s' == s
  }

  /** A connection and its output at one moment. */
  datatype Moment = Moment(conn: State, out: OutputChannel.Moment)

  /** What one step of the event loop does. */
  ghost predicate Stepped(a: Moment, b: Moment, step: Step, methods: set<Method>, max: nat, room: nat) {
    var s, s' := a.conn, b.conn;
    var taken := OutputChannel.Fits(a.out, step.Data(), room);
    var sent := if taken then step.Data() else None;
    match step
    case Receive(m, uuid, _) => Heard(s, s', m, uuid, methods, max, sent)
    case Reject(data) => TurnedAway(s, s', Rejected(Encoded(data)), taken)
    case Run(k, _) => Ran(s, s', k, methods, sent)
    case Return(k, reply, _) => CameBack(s, s', k, reply, sent)
    case Notify(data) => s' == if s.closed || !s.initialized then s else Said(s, Noticed(Encoded(data)), taken)
    case Write(e) =>
      if e.Emit? then b == a else OutputChannel.Moves(a.out, b.out, e) && s' == s.(broken := b.out.failed)
    case Disconnect => s' == Ended(s)
  }

  function Encoded(data: Option<Bytes>): (p: Bytes) {
    if data.Some? then data.value else []
  }

  class Server {
    const max: nat // max_in_flight
    const methods: set<Method>
    const channel: OutputChannel.Channel
    var session: Option<string>
    var initialized: bool
    var closed: bool
    var pending: map<Key, Task>
    var ordinary: int
    var control: int
    ghost var log: seq<Event>
    ghost var fate: seq<Fate>

    ghost function View(): (s: State)
      reads this, channel
    {
      State(session, initialized, closed, channel.failed, pending, ordinary, control, log, fate)
    }

    /** The books agree with the story, and the channel was given the story's messages. */
    ghost predicate Inv(hand: int)
      reads this, channel
    {
      Good(View(), methods, max, hand) && channel.Valid() && channel.accepted == Emitted(log)
    }

    ghost predicate Valid()
      reads this, channel
    {
      Inv(-1)
    }

    constructor (declared: set<Method>, limit: nat, output: OutputChannel.Channel)
      requires limit >= 1 && output.Valid() && !output.failed && output.accepted == []
      ensures Valid() && methods == declared && max == limit && channel == output && log == [] && fate == []
    {
      max, methods, channel, session, initialized, closed := limit, declared, output, None, false, false;
      pending, ordinary, control, log, fate := map[], 0, 0, [], [];
    }

    ghost function Now(): (m: Moment)
      reads this, channel
    {
      Moment(View(), channel.Now())
    }

    /** What the channel would be given of a message: all of it, or nothing. */
    ghost function Sent(data: Option<Bytes>): (sent: Option<Bytes>)
      reads channel
    {
      if channel.Takes(data) then data else None
    }

    /** Give the answer of the request in hand to the output channel, which may refuse it. */
    method Emit(ghost n: nat, reply: Reply, data: Option<Bytes>) returns (ok: bool)
      requires n < |fate| && fate[n].Waiting? && Inv(n)
      requires reply == Result && Operation(fate[n].request) ==> Seen(log, OfCall(n))
      modifies channel, this`fate, this`log
      ensures Inv(n)
      ensures ok <==> old(channel.Takes(data))
      ensures View() == Told(old(View()), n, reply, old(Sent(data)))
    {
      hide Good, Seen, Emitted;
      ghost var s := View();
      ok := channel.Accept(data);
      if ok {
        AnswerGood(s, n, reply, data.value, methods, max);
        EmittedPush(log, Answered(n, fate[n].request, reply, data.value));
        ghost var s' := Answer(s, n, reply, data.value);
        fate, log := s'.fate, s'.log;
      } else {
        BreakGood(s, n, methods, max);
        fate := fate[n := Lost(fate[n].request)];
      }
    }

    /** A request is in hand as soon as it is read. */
    ghost method Arrive(r: Request) returns (n: nat)
      requires Valid() && !closed
      modifies this`fate, this`log
      ensures n == |old(fate)| && fate == old(fate) + [Waiting(r)] && log == old(log) + [Arrived(n, r)]
      ensures Inv(n) && forall k :: k in pending ==> pending[k].serial != n
    {
      hide Good, Emitted;
      n := |fate|;
      ArriveGood(View(), r, methods, max);
      EmittedPush(log, Arrived(n, r));
      fate, log := fate + [Waiting(r)], log + [Arrived(n, r)];
    }

    /** The answer to a request that never enters the table. */
    method AnswerNow(ghost n: nat, reply: Reply, data: Option<Bytes>) returns (ok: bool)
      requires n < |fate| && fate[n].Waiting? && Inv(n) && (reply == Result ==> !Operation(fate[n].request))
      requires forall k :: k in pending ==> pending[k].serial != n
      modifies channel, this`fate, this`log
      ensures Valid() && ok == old(channel.Takes(data))
      ensures View() == Told(old(View()), n, reply, old(Sent(data)))
    {
      hide Good, Seen, Emitted;
      ok := Emit(n, reply, data);
      SettledGood(View(), n, methods, max);
    }

    /** The part of a task after its answer: the `finally` block. */
    method Leave(k: Key)
      requires k in pending && pending[k].serial < |fate| && !fate[pending[k].serial].Waiting?
      requires Inv(pending[k].serial)
      modifies this`pending, this`ordinary, this`control
      ensures Valid() && View() == Release(old(View()), k)
    {
      hide Good, Emitted;
      ReleaseGood(View(), k, methods, max);
      var c := Control(pending[k].request);
      pending := pending - {k};
      if c {
        control := control - 1;
      } else {
        ordinary := ordinary - 1;
      }
    }

    /** Dispatch one envelope; a false result is a protocol failure and ends the connection.
        Each class of requests is turned away on its own count alone. */
    method Accept(m: Message, uuid: string, data: Option<Bytes>) returns (ok: bool)
      requires Valid()
      modifies this, channel
      ensures Valid() && old(log) <= log && closed == old(closed)
      ensures old(session).Some? ==> session == old(session)
      ensures Dispatched(old(View()), View(), m, uuid, methods, max, old(Sent(data)), ok)
    {
      hide Good, Seen, Emitted, Handshake, Due, Opening, Callable;
      if closed || m.Response? {
        return false;
      }
      if m.Notification? {
        if m.name != "initialized" || session.None? {
          return false;
        }
        MakeReadyGood(View(), methods, max);
        EmittedPush(log, Ready);
        initialized, log := true, log + [Ready];
        return true;
      }
      var r := m.request;
      if r.key in pending {
        return false;
      }
      if r.name.Initialize? || !initialized {
        ok := Shake(r, uuid, data);
        return;
      }
      if (if Control(r) then control else ordinary) >= max {
        ghost var n := Arrive(r);
        ok := AnswerNow(n, Error(-32000), data);
        return;
      }
      Enrol(r);
      return true;
    }

    /** A task is created for the request and counted in its class. */
    method Enrol(r: Request)
      requires Valid() && !closed && r.key !in pending && !r.name.Initialize? && HasRoom(View(), r, max)
      modifies this`pending, this`control, this`ordinary, this`fate, this`log
      ensures Valid() && View() == Admit(old(View()), r)
    {
      hide Good, Seen, Emitted;
      AdmitGood(View(), r, methods, max);
      EmittedPush(log, Arrived(|fate|, r));
      pending := pending[r.key := Task(|fate|, r, false, false)];
      if Control(r) {
        control := control + 1;
      } else {
        ordinary := ordinary + 1;
      }
      fate, log := fate + [Waiting(r)], log + [Arrived(|fate|, r)];
    }

    /** The handshake is answered in order, before anything else is read. */
    method Shake(r: Request, uuid: string, data: Option<Bytes>) returns (ok: bool)
      requires Valid() && !closed && (r.name.Initialize? || !initialized)
      modifies this`session, this`log, this`fate, channel
      ensures Valid() && ok == old(channel.Takes(data))
      ensures old(session).Some? ==> session == old(session)
      ensures old(log) <= log
      ensures Handshake(old(View()), View(), r, uuid, methods, old(Sent(data)))
    {
      hide Good, Seen, Emitted;
      ExamineIsDue(r, session.Some?, initialized, methods);
      ghost var n := Arrive(r);
      var v := Examine(r, session.Some?, initialized, methods);
      if v.Opens? {
        OpenGood(View(), uuid, methods, max, n);
        EmittedPush(log, Opened(uuid));
        session, log := Some(uuid), log + [Opened(uuid)];
      }
      ok := AnswerNow(n, if v.Replies? then v.reply else Result, data);
    }

    /** Answer a task's request and leave the table. */
    method Conclude(k: Key, reply: Reply, data: Option<Bytes>)
      requires Valid() && k in pending
      requires reply == Result && Operation(pending[k].request) ==> pending[k].running
      modifies this`fate, this`log, this`pending, this`ordinary, this`control, channel
      ensures Valid() && View() == Concluded(old(View()), k, reply, old(Sent(data)))
    {
      hide Good, Seen, Emitted;
      TaskGood(View(), k, methods, max);
      HandGood(View(), k, methods, max);
      var _ := Emit(pending[k].serial, reply, data);
      Leave(k);
    }

    /** The first step of a task: up to its backend call, or to its end without one. A task
        cancelled before this never runs, so its entry and its count stay. */
    method StartTask(k: Key, data: Option<Bytes>)
      requires Valid() && k in pending && !pending[k].running
      modifies this, channel
      ensures Valid() && (old(closed) ==> old(pending[k]).cancelled)
      ensures old(pending[k]).serial < |old(fate)| && Started(old(View()), View(), k, methods, old(Sent(data)))
    {
      hide Good, Seen, Emitted;
      var t := pending[k];
      ExamineIsDue(t.request, session.Some?, initialized, methods);
      TaskGood(View(), k, methods, max);
      if t.cancelled {
        return;
      }
      var v := Examine(t.request, session.Some?, initialized, methods);
      if v.Replies? {
        Conclude(k, v.reply, data);
      } else {
        BeginGood(View(), k, methods, max);
        EmittedPush(log, Called(t.serial, t.request, session.value));
        pending := pending[k := t.(running := true)];
        log := log + [Called(t.serial, t.request, session.value)];
      }
    }

    /** The backend call of a task ends: with a reply, or unwound by its cancellation. */
    method FinishTask(k: Key, reply: Option<Reply>, data: Option<Bytes>)
      requires Valid() && k in pending && pending[k].running
      requires reply.None? ==> closed
      modifies this, channel
      ensures Valid()
      ensures old(pending[k]).serial < |old(fate)| && Finished(old(View()), View(), k, reply, old(Sent(data)))
    {
      hide Good, Seen, Emitted;
      TaskGood(View(), k, methods, max);
      if reply.Some? {
        Conclude(k, reply.value, data);
      } else {
        ghost var n := pending[k].serial;
        TaskGood(View(), k, methods, max);
        HandGood(View(), k, methods, max);
        LoseGood(View(), n, methods, max);
        fate := fate[n := Lost(fate[n].request)];
        Leave(k);
      }
    }

    method Close()
      requires Valid()
      modifies this, channel
      ensures Valid() && closed
      ensures View() == Ended(old(View()))
    {
      hide Good, Emitted;
      if closed {
        return;
      }
      ShutGood(View(), methods, max);
      EmittedPush(log, Closed);
      closed := true;
      pending := map k | k in pending :: pending[k].(cancelled := true);
      log := log + [Closed];
    }

    /** A message that answers no request: a notification, or the answer to a bad line. */
    method Send(ghost e: Event, data: Option<Bytes>) returns (ok: bool)
      requires Valid() && Admits(log, e, methods) && (e.Noticed? || e.Rejected?)
               && e.payload == Encoded(data)
      modifies this`log, channel
      ensures Valid() && ok == old(channel.Takes(data))
      ensures View() == Said(old(View()), e, ok)
    {
      hide Good, Seen, Emitted, Admits;
      ghost var s := View();
      ok := channel.Accept(data);
      if ok {
        SendGood(s, e, methods, max);
        EmittedPush(log, e);
        log := log + [e];
      } else {
        JamGood(s, methods, max);
      }
    }

    /** A backend's notification goes out only on an initialized, open connection. */
    method NotifyPeer(data: Option<Bytes>)
      requires Valid()
      modifies this`log, channel
      ensures Valid() && old(log) <= log
      ensures View() == if closed || !initialized then old(View())
                        else Said(old(View()), Noticed(Encoded(data)), old(channel.Takes(data)))
    {
      hide Emitted;
      if !closed && initialized {
        ghost var e := Noticed(Encoded(data));
        var _ := Send(e, data);
      }
    }

    /** A line that does not decode is answered at once. */
    method RejectLine(data: Option<Bytes>) returns (ok: bool)
      requires Valid() && !closed
      modifies this`log, channel
      ensures Valid() && old(log) <= log && ok == old(channel.Takes(data))
      ensures View() == Said(old(View()), Rejected(Encoded(data)), ok)
    {
      hide Emitted;
      ghost var e := Rejected(Encoded(data));
      ok := Send(e, data);
    }

    /** The writer goes on, or fails. */
    method WriteMore(e: OutputChannel.Event)
      requires Valid() && !e.Emit?
      modifies channel
      ensures Valid() && OutputChannel.Moves(old(channel.Now()), channel.Now(), e)
      ensures old(channel.failed) ==> channel.failed
    {
      hide Good, Emitted;
      JamGood(View(), methods, max);
      channel.Progress(e);
    }

    method Hear(m: Message, uuid: string, data: Option<Bytes>)
      requires Valid()
      modifies this, channel
      ensures Valid() && old(log) <= log && (old(session).Some? ==> session == old(session)) && (old(closed) ==> closed)
      ensures Heard(old(View()), View(), m, uuid, methods, max, old(Sent(data)))
    {
      hide Good, Seen, Emitted, Dispatched;
      if closed { return; }
      ghost var s, sent := View(), Sent(data);
      var ok := Accept(m, uuid, data);
      ghost var mid := View();
      assert Dispatched(s, mid, m, uuid, methods, max, sent, ok);
      if !ok { Close(); }
    }

    method TurnAway(data: Option<Bytes>)
      requires Valid()
      modifies this, channel
      ensures Valid() && old(log) <= log && session == old(session) && (old(closed) ==> closed)
      ensures TurnedAway(old(View()), View(), Rejected(Encoded(data)), old(channel.Takes(data)))
    {
      hide Good, Seen, Emitted;
      if closed { return; }
      var ok := RejectLine(data);
      if !ok { Close(); }
    }

    method RunTask(k: Key, data: Option<Bytes>)
      requires Valid()
      modifies this, channel
      ensures Valid() && old(log) <= log && session == old(session) && closed == old(closed)
      ensures Ran(old(View()), View(), k, methods, old(Sent(data)))
    {
      hide Good, Seen, Emitted, Due, Callable;
      if k in pending && !pending[k].running { StartTask(k, data); }
    }

    method BackendReturns(k: Key, reply: Option<Reply>, data: Option<Bytes>)
      requires Valid()
      modifies this, channel
      ensures Valid() && old(log) <= log && session == old(session) && closed == old(closed)
      ensures CameBack(old(View()), View(), k, reply, old(Sent(data)))
    {
      hide Good, Seen, Emitted;
      if k in pending && pending[k].running && (reply.None? ==> closed) { FinishTask(k, reply, data); }
    }

    /** One step of the event loop; a protocol failure or the end of input closes. */
    method Perform(step: Step)
      requires Valid()
      modifies this, channel
      ensures Valid() && old(log) <= log
      ensures old(session).Some? ==> session == old(session)
      ensures old(closed) ==> closed
      ensures Stepped(old(Now()), Now(), step, methods, max, channel.max)
    {
      hide Good, Seen, Emitted, Heard, TurnedAway, Ran, CameBack;
      hide OutputChannel.Moves, OutputChannel.Fits;
      channel.TakesWhatFits(step.Data());
      match step
      case Receive(m, uuid, data) => Hear(m, uuid, data);
      case Reject(data) => TurnAway(data);
      case Run(k, data) => RunTask(k, data);
      case Return(k, reply, data) => BackendReturns(k, reply, data);
      case Notify(data) => NotifyPeer(data);
      case Write(e) => if !e.Emit? { WriteMore(e); }
      case Disconnect => Close();
    }

    /** Any interleaving of messages, task steps, backend returns and notifications with the
        writer and its failures: each request on a live connection is answered or in flight,
        and the peer has seen a prefix of the story's messages in order. */
    method Drive(schedule: seq<Step>) returns (ghost trace: seq<Moment>)
      requires Valid()
      modifies this, channel
      ensures Valid() && old(log) <= log
      ensures old(session).Some? ==> session == old(session)
      ensures old(closed) ==> closed
      ensures |trace| == |schedule| + 1 && trace[0] == old(Now()) && trace[|schedule|] == Now()
      ensures forall i :: 0 <= i < |schedule| ==>
                Stepped(trace[i], trace[i + 1], schedule[i], methods, max, channel.max)
      ensures !closed && !channel.failed ==> forall n :: 0 <= n < |fate| ==> Accounted(View(), n)
      ensures channel.peer <= Framed(Emitted(log))
    {
      hide Good, Seen, Emitted, Stepped;
      trace := [Now()];
      for i := 0 to |schedule|
        invariant Valid() && old(log) <= log
        invariant old(session).Some? ==> session == old(session)
        invariant old(closed) ==> closed
        invariant |trace| == i + 1 && trace[0] == old(Now()) && trace[i] == Now()
        invariant forall k :: 0 <= k < i ==>
                    Stepped(trace[k], trace[k + 1], schedule[k], methods, max, channel.max)
      {
        Perform(schedule[i]);
        trace := trace + [Now()];
      }
      AnsweredOrInFlight(View(), methods, max);
    }

    /** Once the writer has caught up, the lines the peer reads are exactly the answers and
        notifications of the story, in its order. */
    lemma PeerReadsTheStory()
      requires Valid() && channel.writer == OutputChannel.Idle && channel.queue == []
      requires forall p :: p in Emitted(log) ==> Plain(p)
      ensures Lines(channel.peer, 0) == Emitted(log)
    {
      hide Good, Emitted;
      channel.DrainedMeansReceived();
    }
  }
}
