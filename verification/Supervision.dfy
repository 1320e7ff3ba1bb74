/** The managed supervisor's event loop. Every answer of the kernel, the clock, the
    control channel and arriving signals is an input, pass by pass and in any combination;
    what the final report says about the run is not. */
module Supervision {
  import opened Basics

  /** How the leader ended, as both `waitid` and `waitpid` report it. */
  datatype Status = ExitCode(code: int) | KilledBy(signal: int) {
    function Code(): (c: int) { if ExitCode? then code else -1 }
    function Signal(): (s: int) { if ExitCode? then 0 else signal }
  }

  datatype Ending = NormalExit | Cancelled | TimedOut | OutputLimit | SetupError | BrokerError | CleanupError

  datatype Report = Report(ending: Ending, code: int, signal: int, complete: bool, started: bool,
                           stdoutBytes: nat, stderrBytes: nat)

  datatype Event = StartedEvent | ExitedEvent(code: int, signal: int) | ResultEvent(report: Report)

  /** What the supervisor was asked to run. */
  datatype Config = Config(limit: nat, processMode: bool, deadline: int)

  const SETUP_RECORD: nat := 8
  const CLEANUP_MS: int := 5000

  // ---------- the world outside ----------

  /** Time passes, and a termination request may arrive by signal or by command. */
  datatype Tick = Tick(passed: nat, request: bool)

  /** What waiting for the worker before its start finds, and how the calls that answer
      the stop fare. */
  datatype Stop = NoStop | Stopped(atStart: bool, atExec: bool, callsOk: bool, listening: bool, announced: bool)
  {
    predicate Fails() requires Stopped? { !(callsOk && listening && announced) }
  }

  datatype Attempt = Wrote(count: nat) | WouldBlock | WriteFailed

  /** One turn of the loop that writes a chunk. */
  datatype Piece = Piece(tick: Tick, commandsOk: bool, attempt: Attempt)

  /** One stream: not ready, a failed read, or bytes, none of them meaning end of file. */
  datatype Reading = NotReady | ReadFailed(retry: bool) | Got(data: seq<byte>, pieces: seq<Piece>)

  datatype Leader = Running | Ended(status: Status, announced: bool)

  /** Everything one pass of the loop learns from outside. */
  datatype Pass = Pass(head: Tick, commandsOk: bool, stop: Stop, starting: Tick, serving: Tick,
                       pollOk: bool, decisionOk: bool, stdout: Reading, stderr: Reading, setup: Reading,
                       leader: Leader, observing: Tick, leaderWaited: bool, noChildLeft: bool, landing: Tick)
  {
    function Stream(i: nat): (r: Reading) { if i == 0 then stdout else if i == 1 then stderr else setup }
  }

  ghost predicate PieceFails(p: Piece) {
    !p.commandsOk || p.attempt == WriteFailed || p.attempt == Wrote(0)
  }

  /** Something outside broke while a stream was read and forwarded. */
  ghost predicate ReadBreaks(r: Reading) {
    || r == ReadFailed(false)
    || (r.Got? && exists k :: 0 <= k < |r.pieces| && PieceFails(r.pieces[k]))
  }

  /** The start of the worker failed, or its setup record reported a failure. */
  ghost predicate SetupFails(p: Pass) {
    || (p.stop.Stopped? && p.stop.Fails())
    || (p.setup.Got? && p.setup.data != [])
  }

  /** A command, a wait, a decision, a stream or the announcement of the exit failed, or
      the setup record was too long. */
  ghost predicate BrokerFails(p: Pass) {
    || !p.commandsOk || !p.pollOk || !p.decisionOk
    || ReadBreaks(p.stdout) || ReadBreaks(p.stderr) || ReadBreaks(p.setup)
    || (p.setup.Got? && |p.setup.data| > 0)
    || (p.leader.Ended? && !p.leader.announced)
  }

  ghost predicate ReadRequests(r: Reading) {
    r.Got? && exists k :: 0 <= k < |r.pieces| && r.pieces[k].tick.request
  }

  /** A termination request arrived during the pass. */
  ghost predicate Requested(p: Pass) {
    || p.head.request || p.starting.request || p.serving.request || p.observing.request || p.landing.request
    || ReadRequests(p.stdout) || ReadRequests(p.stderr)
  }

  /** What goes wrong in a part of a pass goes wrong in the pass. */
  lemma PartsOf(p: Pass)
    ensures p.head.request || p.starting.request || p.serving.request || p.landing.request ==> Requested(p)
    ensures !p.commandsOk || !p.pollOk || !p.decisionOk ==> BrokerFails(p)
    ensures p.stop.Stopped? && p.stop.Fails() ==> SetupFails(p)
  {}

  // ---------- the loop's variables ----------

  /** What went wrong so far: setup, the broker's own work, an observed cancellation or
      deadline, too much output. */
  datatype Causes = Causes(setup: bool, broker: bool, stopped: bool, limit: bool) {
    predicate Any() { setup || broker || stopped || limit }
  }

  /** The worker and its children; `exitedSent` records that the exit was announced. */
  datatype Worker = Worker(traced: bool, started: bool, leaderObserved: bool, leaderReaped: bool, alive: bool,
                           status: Status, exitedSent: bool)

  /** The three streams; `received` records every byte read from the two output streams. */
  datatype Flow = Flow(eof: seq<bool>, bytes: seq<nat>, setupSize: nat,
                       forwarded: seq<seq<byte>>, received: seq<seq<byte>>)

  datatype Time = Time(clock: int, cancelled: bool, everCancelled: bool)

  /** The variables of the loop, the messages sent, and a record of what went wrong. */
  datatype State = State(worker: Worker, flow: Flow, time: Time, terminating: bool, cleanupEnd: int,
                         ending: Ending, sent: seq<Event>, causes: Causes)

  /** The variables as the loop is entered. */
  function Initial(now: int, setupFailed: bool): (s: State) {
    State(Worker(false, false, false, false, true, ExitCode(0), false),
          Flow([false, false, false], [0, 0], 0, [[], []], [[], []]), Time(now, false, false),
          setupFailed, if setupFailed then now + CLEANUP_MS else 0,
          if setupFailed then SetupError else NormalExit, [], Causes(setupFailed, false, false, false))
  }

  // ---------- what every step keeps ----------

  ghost predicate Shape(s: State) {
    && |s.flow.eof| == 3 && |s.flow.bytes| == 2 && |s.flow.forwarded| == 2 && |s.flow.received| == 2
    && s.flow.setupSize <= SETUP_RECORD
  }

  /** The messages sent so far: at most one start, at most one exit, in that order. */
  ghost function Lifecycle(s: State): (es: seq<Event>) {
    (if s.worker.started then [StartedEvent] else []) +
    (if s.worker.exitedSent then [ExitedEvent(s.worker.status.Code(), s.worker.status.Signal())] else [])
  }

  /** The counters are the bytes forwarded, within the budget. */
  ghost predicate Counted(c: Config, s: State)
    requires Shape(s)
  {
    && s.flow.bytes[0] == |s.flow.forwarded[0]| <= |s.flow.received[0]|
    && s.flow.bytes[1] == |s.flow.forwarded[1]| <= |s.flow.received[1]|
    && s.flow.bytes[0] + s.flow.bytes[1] <= c.limit
  }

  /** What holds whatever the ending says. */
  ghost predicate Base(c: Config, s: State) {
    && Shape(s) && Counted(c, s)
    && s.sent == Lifecycle(s)
    && (s.worker.exitedSent ==> s.worker.started && s.worker.leaderObserved)
    && (s.worker.leaderReaped ==> s.worker.leaderObserved) && (s.worker.leaderObserved ==> s.terminating)
    && (!s.worker.alive ==> s.worker.leaderReaped)
    && (s.time.cancelled ==> s.time.everCancelled)
    && (s.worker.started ==> s.worker.traced)
    && (s.causes.stopped ==> s.time.everCancelled || s.time.clock >= c.deadline)
    && (s.causes.limit ==> |s.flow.received[0]| + |s.flow.received[1]| > c.limit)
  }

  /** The ending is the normal one exactly when nothing went wrong, and otherwise names
      something that did. */
  ghost predicate Truthful(c: Config, s: State)
    requires Shape(s)
  {
    && (s.ending == NormalExit <==> !s.causes.Any())
    && match s.ending
       case NormalExit =>
         && s.flow.forwarded == s.flow.received
         && (s.terminating ==> s.worker.leaderObserved)
         && (s.worker.leaderObserved && c.processMode && s.worker.started ==> s.worker.exitedSent)
       case Cancelled => s.time.everCancelled
       case TimedOut => s.time.clock >= c.deadline
       case OutputLimit => s.causes.limit && s.flow.bytes[0] + s.flow.bytes[1] == c.limit
       case SetupError => s.causes.setup
       case BrokerError => s.causes.broker
       case CleanupError => false
  }

  ghost predicate Inv(c: Config, s: State) {
    Base(c, s) && Truthful(c, s)
  }

  /** A cleanup keeps its end, or has been given five seconds since `a`. */
  ghost predicate CleanupGiven(a: State, b: State) {
    || (a.terminating && b.cleanupEnd == a.cleanupEnd)
    || a.time.clock + 5000 <= b.cleanupEnd <= b.time.clock + 5000
  }

  /** What no step ever takes back. */
  ghost predicate Evolves(a: State, b: State) {
    && a.sent <= b.sent
    && Shape(a) && Shape(b)
    && a.flow.forwarded[0] <= b.flow.forwarded[0] && a.flow.forwarded[1] <= b.flow.forwarded[1]
    && a.flow.received[0] <= b.flow.received[0] && a.flow.received[1] <= b.flow.received[1]
    && (a.flow.eof[0] ==> b.flow.eof[0]) && (a.flow.eof[1] ==> b.flow.eof[1]) && (a.flow.eof[2] ==> b.flow.eof[2])
    && (a.worker.started ==> b.worker.started) && (a.worker.exitedSent ==> b.worker.exitedSent)
    && (a.terminating ==> b.terminating)
    && (a.worker.leaderObserved ==> b.worker.leaderObserved && b.worker.status == a.worker.status)
    && (a.worker.leaderReaped ==> b.worker.leaderReaped) && (!a.worker.alive ==> !b.worker.alive)
    && a.time.clock <= b.time.clock && (a.time.everCancelled ==> b.time.everCancelled)
    && (b.terminating ==> CleanupGiven(a, b))
    && (a.causes.setup ==> b.causes.setup) && (a.causes.broker ==> b.causes.broker)
    && (a.causes.stopped ==> b.causes.stopped) && (a.causes.limit ==> b.causes.limit)
  }

  lemma EvolvesOn(a: State, b: State, c: State)
    requires Evolves(a, b) && Evolves(b, c)
    ensures Evolves(a, c)
  {}

  /** Blame is never made up: what went wrong between `a` and `b` went wrong outside. */
  ghost predicate Blames(a: State, b: State, setup: bool, broker: bool, request: bool) {
    && (b.causes.setup ==> a.causes.setup || setup)
    && (b.causes.broker ==> a.causes.broker || broker)
    && (b.time.everCancelled ==> a.time.everCancelled || request)
  }

  /** Where a part of the loop body continues. */
  datatype Jump = Onward | ToStartupFailed | ToRuntimeFailed

  /** What a part of the loop body must leave for the place it continues at. */
  ghost predicate Lands(c: Config, s: State, j: Jump) {
    && Base(c, s)
    && match j
       case Onward => Truthful(c, s)
       case ToStartupFailed => s.causes.setup
       case ToRuntimeFailed => s.causes.Any() && (s.causes.broker || s.time.cancelled || s.time.clock >= c.deadline)
  }

  // ---------- one pass ----------

  function Later(now: State, tick: Tick): (s: State)
    ensures s.time.clock == now.time.clock + tick.passed && (s.time.cancelled <==> now.time.cancelled || tick.request)
  {
    now.(time := Time(now.time.clock + tick.passed, now.time.cancelled || tick.request,
                      now.time.everCancelled || tick.request))
  }

  lemma LaterKeeps(c: Config, s: State, tick: Tick)
    ensures Inv(c, s) ==> Inv(c, Later(s, tick)) && Evolves(s, Later(s, tick))
    ensures Base(c, s) ==> Base(c, Later(s, tick)) && Evolves(s, Later(s, tick))
    ensures Blames(s, Later(s, tick), false, false, tick.request)
  {}

  /** The command check and the deadline check at the top of the loop. */
  method CheckDeadline(c: Config, s: State, p: Pass) returns (s': State, j: Jump)
    requires Inv(c, s)
    ensures Evolves(s, s') && Lands(c, s', j)
    ensures s'.time.everCancelled ==> s.time.everCancelled || p.head.request
    ensures s'.time.clock == s.time.clock + p.head.passed && (s'.time.cancelled <==> s.time.cancelled || p.head.request)
    ensures j == if s.terminating || p.commandsOk then Onward else ToRuntimeFailed
    ensures s'.terminating <==> s.terminating || (p.commandsOk && (s'.time.cancelled || s'.time.clock >= c.deadline))
    ensures s'.causes == s.causes.(broker := s.causes.broker || j != Onward,
                                   stopped := s.causes.stopped || (s'.terminating && !s.terminating))
    ensures s.terminating ==> s'.ending == s.ending && s'.cleanupEnd == s.cleanupEnd
    ensures s'.terminating && !s.terminating ==>
              && s'.cleanupEnd == s'.time.clock + CLEANUP_MS
              && s'.ending == if s'.time.cancelled then Cancelled else TimedOut
    ensures s' == s.(time := s'.time, terminating := s'.terminating, ending := s'.ending, cleanupEnd := s'.cleanupEnd,
                     causes := s'.causes)
  {
    s' := Later(s, p.head);
    if s'.terminating { return s', Onward; }
    if !p.commandsOk { return s'.(causes := s'.causes.(broker := true)), ToRuntimeFailed; }
    if s'.time.cancelled || s'.time.clock >= c.deadline {
      s' := s'.(ending := if s'.time.cancelled then Cancelled else TimedOut, terminating := true,
                cleanupEnd := s'.time.clock + CLEANUP_MS, causes := s'.causes.(stopped := true));
    }
    return s', Onward;
  }

  /** The traced start of the worker: attach, then the exec stop that is announced. */
  method Startup(c: Config, s: State, p: Pass) returns (s': State, j: Jump)
    requires Inv(c, s)
    ensures Evolves(s, s') && Lands(c, s', j)
    ensures s'.causes == s.causes.(setup := s.causes.setup || j == ToStartupFailed)
    ensures s'.time == if Execs(s, p) && p.stop.callsOk then Later(s, p.starting).time else s.time
    ensures j == Onward || j == ToStartupFailed
    ensures j == ToStartupFailed <==> !s.worker.started && !s.terminating && p.stop.Stopped? &&
                                      (!p.stop.callsOk ||
                                       (!s.worker.traced && p.stop.atStart && !p.stop.listening) ||
                                       (s.worker.traced && p.stop.atExec && !p.stop.announced))
    ensures s'.worker.started <==> s.worker.started || (j == Onward && Execs(s, p))
    ensures s'.worker.traced <==> s.worker.traced || (Attaches(s, p) && p.stop.callsOk)
    ensures s'.sent == s.sent + if s'.worker.started && !s.worker.started then [StartedEvent] else []
    ensures s' == s.(time := s'.time, worker := s'.worker, sent := s'.sent, causes := s'.causes)
    ensures s'.worker == s.worker.(traced := s'.worker.traced, started := s'.worker.started)
  {
    assert s.worker.leaderObserved ==> s.terminating;
    hide Inv, Base, Truthful, Evolves, Lands;
    s', j := s, Onward;
    StartGoesOn(c, s);
    if s.worker.started || s.worker.leaderObserved || s.terminating || p.stop == NoStop { return; }
    if !s.worker.traced && p.stop.atStart {
      s', j := Attach(c, s, p.stop);
    } else if s.worker.traced && p.stop.atExec {
      s', j := Announce(c, s, p.stop, p.starting);
    } else if !p.stop.callsOk {
      StartFails(c, s, s.worker.traced);
      s', j := s.(causes := s.causes.(setup := true)), ToStartupFailed;
    }
  }

  /** The first stop: tracing is set up and the listener received. */
  method Attach(c: Config, s: State, stop: Stop) returns (s': State, j: Jump)
    requires Inv(c, s) && stop.Stopped?
    ensures Evolves(s, s') && Lands(c, s', j)
    ensures j == if stop.callsOk && stop.listening then Onward else ToStartupFailed
    ensures s' == s.(worker := s.worker.(traced := s.worker.traced || stop.callsOk), causes := s'.causes)
    ensures s'.causes == s.causes.(setup := s.causes.setup || j != Onward)
  {
    hide Inv, Base, Truthful, Evolves, Lands;
    StartFails(c, s, s.worker.traced);
    StartFails(c, s, true);
    StartGoesOn(c, s);
    s', j := s, ToStartupFailed;
    if !stop.callsOk { return s.(causes := s.causes.(setup := true)), j; }
    s' := s.(worker := s.worker.(traced := true));
    if !stop.listening { return s'.(causes := s.causes.(setup := true)), j; }
    j := Onward;
  }

  /** The stop in the started program: the worker runs on and its start is announced. */
  method Announce(c: Config, s: State, stop: Stop, tick: Tick) returns (s': State, j: Jump)
    requires Inv(c, s) && stop.Stopped? && s.worker.traced && !s.worker.started && !s.terminating
    ensures Evolves(s, s') && Lands(c, s', j)
    ensures j == if stop.callsOk && stop.announced then Onward else ToStartupFailed
    ensures s' == s.(time := s'.time, worker := s.worker.(started := j == Onward), sent := s'.sent,
                     causes := s'.causes)
    ensures s'.time == if stop.callsOk then Later(s, tick).time else s.time
    ensures s'.sent == if j == Onward then s.sent + [StartedEvent] else s.sent
    ensures s'.causes == s.causes.(setup := s.causes.setup || j != Onward)
  {
    hide Inv, Base, Truthful, Evolves, Lands;
    StartFails(c, s, s.worker.traced);
    s', j := s.(causes := s.causes.(setup := true)), ToStartupFailed;
    if !stop.callsOk { return; }
    LaterKeeps(c, s, tick);
    var later := Later(s, tick);
    StartFails(c, later, s.worker.traced);
    StartGoesOn(c, later);
    s' := later.(causes := s.causes.(setup := true));
    EvolvesOn(s, later, s');
    if !stop.announced { return; }
    s', j := later.(sent := s.sent + [StartedEvent], worker := s.worker.(started := true)), Onward;
    EvolvesOn(s, later, s');
  }

  lemma StartFails(c: Config, s: State, traced: bool)
    requires Inv(c, s) && (s.worker.traced ==> traced)
    ensures var failed := s.(causes := s.causes.(setup := true), worker := s.worker.(traced := traced));
            Lands(c, failed, ToStartupFailed) && Evolves(s, failed)
  {}

  lemma StartGoesOn(c: Config, s: State)
    requires Inv(c, s)
    ensures Lands(c, s, Onward) && Evolves(s, s)
    ensures var attached := s.(worker := s.worker.(traced := true));
            Lands(c, attached, Onward) && Evolves(s, attached)
    ensures var announced := s.(sent := s.sent + [StartedEvent], worker := s.worker.(started := true));
            s.worker.traced && !s.worker.started && !s.terminating ==>
              Lands(c, announced, Onward) && Evolves(s, announced)
  {}

  /** The worker stops for the first time, or stops in the program it was started for. */
  ghost predicate Attaches(s: State, p: Pass) {
    !s.worker.started && !s.terminating && !s.worker.traced && p.stop.Stopped? && p.stop.atStart
  }

  ghost predicate Execs(s: State, p: Pass) {
    !s.worker.started && !s.terminating && s.worker.traced && p.stop.Stopped? && p.stop.atExec
  }

  // ---------- forwarding ----------

  /** `now` is `s` after the first `n` bytes of a chunk read from stream `i` were
      forwarded; only that stream, the clock and a cancellation have moved. */
  ghost predicate Forwarding(s: State, now: State, i: nat, buffer: seq<byte>, n: nat)
    requires Shape(s) && i < 2
  {
    && n <= |buffer|
    && now == s.(flow := now.flow, time := now.time)
    && now.flow == s.flow.(received := s.flow.received[i := s.flow.received[i] + buffer],
                           forwarded := s.flow.forwarded[i := s.flow.forwarded[i] + buffer[..n]],
                           bytes := s.flow.bytes[i := s.flow.bytes[i] + n])
    && s.time.clock <= now.time.clock
    && (s.time.everCancelled ==> now.time.everCancelled) && (now.time.cancelled ==> now.time.everCancelled)
  }

  lemma ForwardingStart(c: Config, s: State, i: nat, buffer: seq<byte>)
    requires Inv(c, s) && i < 2
    ensures var read := s.(flow := s.flow.(received := s.flow.received[i := s.flow.received[i] + buffer]));
            Forwarding(s, read, i, buffer, 0)
  {
    assert s.flow.forwarded[i] + buffer[..0] == s.flow.forwarded[i];
  }

  function Written(now: State, i: nat, piece: seq<byte>): (s: State)
    requires i < 2 && |now.flow.forwarded| == 2 && |now.flow.bytes| == 2
    ensures s.time == now.time
  {
    now.(flow := now.flow.(forwarded := now.flow.forwarded[i := now.flow.forwarded[i] + piece],
                           bytes := now.flow.bytes[i := now.flow.bytes[i] + |piece|]))
  }

  lemma ForwardingWaits(s: State, now: State, i: nat, buffer: seq<byte>, n: nat, tick: Tick)
    requires Shape(s) && i < 2 && Forwarding(s, now, i, buffer, n)
    ensures Forwarding(s, Later(now, tick), i, buffer, n)
  {}

  lemma ForwardingMore(s: State, now: State, i: nat, buffer: seq<byte>, n: nat, sent: nat)
    requires Shape(s) && i < 2 && Forwarding(s, now, i, buffer, n) && n + sent <= |buffer|
    ensures |now.flow.forwarded| == 2 && |now.flow.bytes| == 2
    ensures Forwarding(s, Written(now, i, buffer[n..n + sent]), i, buffer, n + sent)
  {
    assert buffer[..n + sent] == buffer[..n] + buffer[n..n + sent];
    assert s.flow.forwarded[i] + buffer[..n] + buffer[n..n + sent] == s.flow.forwarded[i] + buffer[..n + sent];
  }

  /** An interrupted chunk leaves everything in order except a claim of normal exit. */
  lemma ForwardingStops(c: Config, s: State, now: State, i: nat, buffer: seq<byte>, n: nat)
    requires Inv(c, s) && i < 2 && Forwarding(s, now, i, buffer, n) && s.flow.bytes[0] + s.flow.bytes[1] + n <= c.limit
    ensures Base(c, now) && Evolves(s, now)
  {}

  /** A complete chunk keeps every claim. */
  lemma ForwardingEnds(c: Config, s: State, now: State, i: nat, buffer: seq<byte>)
    requires Inv(c, s) && i < 2 && Forwarding(s, now, i, buffer, |buffer|)
    requires s.flow.bytes[0] + s.flow.bytes[1] + |buffer| <= c.limit
    ensures Inv(c, now) && Evolves(s, now)
  {
    ForwardingStops(c, s, now, i, buffer, |buffer|);
    assert buffer[..|buffer|] == buffer;
    if s.ending == NormalExit { assert now.flow.forwarded == now.flow.received; }
  }

  function CutOff(now: State): (s: State) {
    now.(ending := OutputLimit, terminating := true, cleanupEnd := now.time.clock + CLEANUP_MS,
         causes := now.causes.(limit := true))
  }

  lemma ForwardingExceeds(c: Config, s: State, now: State, i: nat, buffer: seq<byte>, n: nat)
    requires Inv(c, s) && i < 2 && Forwarding(s, now, i, buffer, n) && s.flow.bytes[0] + s.flow.bytes[1] + n == c.limit
    requires n < |buffer|
    ensures Inv(c, CutOff(now)) && Evolves(s, CutOff(now))
  {
    ForwardingStops(c, s, now, i, buffer, n);
  }

  /** An interrupted chunk is blamed on what interrupted it. */
  function Interrupted(now: State, broken: bool): (s: State) {
    now.(causes := now.causes.(broker := now.causes.broker || broken, stopped := now.causes.stopped || !broken))
  }

  lemma InterruptedLands(c: Config, s: State, now: State, broken: bool)
    requires Base(c, now) && Evolves(s, now)
    requires broken || now.time.cancelled || now.time.clock >= c.deadline
    ensures Lands(c, Interrupted(now, broken), ToRuntimeFailed) && Evolves(s, Interrupted(now, broken))
  {}

  /** The budget left is never negative. */
  lemma Budget(c: Config, s: State)
    requires Inv(c, s)
    ensures Shape(s) && s.flow.bytes[0] + s.flow.bytes[1] <= c.limit
  {}

  datatype WriteEnd = Complete | Broken | Halted

  /** How many bytes the first `k` turns offered to write. */
  ghost function Taken(pieces: seq<Piece>, k: nat): (n: nat)
    requires k <= |pieces|
  {
    if k == 0 then 0 else
    Taken(pieces, k - 1) + match pieces[k - 1].attempt case Wrote(count) => count case _ => 0
  }

  ghost predicate Requests(pieces: seq<Piece>) {
    exists k :: 0 <= k < |pieces| && pieces[k].tick.request
  }

  /** The time after the first `k` turns. */
  ghost function Ticked(t: Time, pieces: seq<Piece>, k: nat): (t': Time)
    requires k <= |pieces|
  {
    if k == 0 then t else
    var before, tick := Ticked(t, pieces, k - 1), pieces[k - 1].tick;
    Time(before.clock + tick.passed, before.cancelled || tick.request, before.everCancelled || tick.request)
  }

  lemma TickedRequests(t: Time, pieces: seq<Piece>)
    ensures forall k :: 0 <= k <= |pieces| && Ticked(t, pieces, k).everCancelled ==> t.everCancelled || Requests(pieces)
  {
    forall k | 0 <= k <= |pieces| && Ticked(t, pieces, k).everCancelled
      ensures t.everCancelled || Requests(pieces)
    {
      TickedRequest(t, pieces, k);
    }
  }

  lemma {:induction false} TickedRequest(t: Time, pieces: seq<Piece>, k: nat)
    requires k <= |pieces| && Ticked(t, pieces, k).everCancelled
    ensures t.everCancelled || Requests(pieces)
  {
    if k > 0 && !pieces[k - 1].tick.request { TickedRequest(t, pieces, k - 1); }
  }

  /** The accepted part of a chunk is written piece by piece, with the cancellation and
      deadline checks before every write, until it is written or a turn fails or finds
      the run stopped. After the given turns a write takes all that is left. */
  method WritePieces(c: Config, s: State, i: nat, buffer: seq<byte>, accepted: nat, pieces: seq<Piece>)
    returns (s': State, end: WriteEnd, ghost n: nat, ghost used: nat)
    requires Inv(c, s) && i < 2 && accepted <= |buffer|
    ensures Shape(s) && n <= accepted && Forwarding(s, s', i, buffer, n) && used <= |pieces|
    ensures forall k :: 0 <= k < used ==> !PieceFails(pieces[k])
    ensures end == Complete ==> n == accepted && (used == |pieces| || Taken(pieces, used) >= accepted)
    ensures end == Complete && accepted > 0 ==> !s'.time.cancelled && s'.time.clock < c.deadline
    ensures end != Complete ==> n < accepted && n == Taken(pieces, used)
    ensures end == Broken ==> used < |pieces| && PieceFails(pieces[used])
    ensures end == Halted ==> s'.time.cancelled || s'.time.clock >= c.deadline
    ensures s'.time.everCancelled ==> s.time.everCancelled || Requests(pieces)
    ensures s'.time == Ticked(s.time, pieces, if end == Complete || used == |pieces| then used else used + 1)
  {
    hide Inv, Forwarding, Written;
    Budget(c, s);
    TickedRequests(s.time, pieces);
    s' := s.(flow := s.flow.(received := s.flow.received[i := s.flow.received[i] + buffer]));
    ForwardingStart(c, s, i, buffer);
    var offset, k := 0, 0;
    while offset < accepted
      invariant 0 <= offset <= accepted && 0 <= k <= |pieces| && Forwarding(s, s', i, buffer, offset)
      invariant forall q :: 0 <= q < k ==> !PieceFails(pieces[q])
      invariant offset < accepted ==> offset == Taken(pieces, k)
      invariant offset == accepted ==> k == |pieces| || Taken(pieces, k) >= accepted
      invariant 0 < offset == accepted ==> !s'.time.cancelled && s'.time.clock < c.deadline
      invariant s'.time == Ticked(s.time, pieces, k)
      decreases |pieces| - k, accepted - offset
    {
      var turn := if k < |pieces| then pieces[k] else Piece(Tick(0, false), true, Wrote(accepted - offset));
      s', offset, end := WriteTurn(c, s, s', i, buffer, offset, accepted, turn);
      if end != Complete { return s', end, offset, k; }
      if k < |pieces| { k := k + 1; }
    }
    end, n, used := Complete, offset, k;
  }

  /** How many of `room` bytes a turn writes. */
  ghost function Share(turn: Piece, room: nat): (n: nat) {
    match turn.attempt
    case Wrote(count) => if count < room then count else room
    case _ => 0
  }

  /** One turn: the checks, then one write call. */
  method WriteTurn(c: Config, ghost s: State, now: State, i: nat, buffer: seq<byte>, offset: nat, accepted: nat,
                   turn: Piece)
    returns (s': State, offset': nat, end: WriteEnd)
    requires Shape(s) && i < 2 && Forwarding(s, now, i, buffer, offset) && offset < accepted <= |buffer|
    ensures Forwarding(s, s', i, buffer, offset') && s'.time == Later(now, turn.tick).time
    ensures end == Broken ==> PieceFails(turn) && offset' == offset
    ensures end == Halted ==> (s'.time.cancelled || s'.time.clock >= c.deadline) && offset' == offset
    ensures end == Complete ==> !PieceFails(turn) && !s'.time.cancelled && s'.time.clock < c.deadline
    ensures end == Complete ==> offset' == offset + Share(turn, accepted - offset)
  {
    hide Forwarding, Written;
    ForwardingWaits(s, now, i, buffer, offset, turn.tick);
    s', offset', end := Later(now, turn.tick), offset, Broken;
    if !turn.commandsOk { return; }
    if s'.time.cancelled || s'.time.clock >= c.deadline { return s', offset, Halted; }
    match turn.attempt {
      case Wrote(count) =>
        if count == 0 { return; }
        var sent := if count < accepted - offset then count else accepted - offset;
        ForwardingMore(s, s', i, buffer, offset, sent);
        s' := Written(s', i, buffer[offset..offset + sent]);
        offset' := offset + sent;
      case WouldBlock =>
      case WriteFailed => return;
    }
    end := Complete;
  }

  /** What forwarding and reading may touch. */
  ghost predicate SameRun(s: State, s': State) {
    s' == s.(flow := s'.flow, time := s'.time, causes := s'.causes, ending := s'.ending,
             terminating := s'.terminating, cleanupEnd := s'.cleanupEnd)
  }

  /** Forwarding one chunk of output, as far as the budget allows. */
  method Forward(c: Config, s: State, i: nat, buffer: seq<byte>, pieces: seq<Piece>) returns (s': State, j: Jump)
    requires Inv(c, s) && i < 2
    ensures Evolves(s, s') && SameRun(s, s') && (j == Onward || j == ToRuntimeFailed) && Lands(c, s', j)
    ensures Shape(s) && s'.flow == s.flow.(received := s.flow.received[i := s.flow.received[i] + buffer],
                                           forwarded := s'.flow.forwarded, bytes := s'.flow.bytes)
    ensures s'.causes.setup == s.causes.setup
    ensures s'.causes.broker ==> s.causes.broker || exists k :: 0 <= k < |pieces| && PieceFails(pieces[k])
    ensures s'.time.everCancelled ==> s.time.everCancelled || Requests(pieces)
    ensures var room := c.limit - s.flow.bytes[0] - s.flow.bytes[1];
            j == Onward ==>
              && s'.flow.forwarded == s.flow.forwarded[i := s.flow.forwarded[i] +
                                                            if |buffer| <= room then buffer else buffer[..room]]
              && (if |buffer| <= room then s' == s.(flow := s'.flow, time := s'.time)
                  else s'.ending == OutputLimit && s'.terminating && s'.causes == s.causes.(limit := true))
  {
    hide Inv, Evolves, Lands, Base;
    Budget(c, s);
    var remaining := c.limit - s.flow.bytes[0] - s.flow.bytes[1];
    var accepted := if |buffer| < remaining then |buffer| else remaining;
    ghost var n, used;
    var end;
    s', end, n, used := WritePieces(c, s, i, buffer, accepted, pieces);
    ForwardingStops(c, s, s', i, buffer, n);
    if end != Complete {
      InterruptedLands(c, s, s', end == Broken);
      return Interrupted(s', end == Broken), ToRuntimeFailed;
    } else if accepted < |buffer| {
      ForwardingExceeds(c, s, s', i, buffer, accepted);
      InvLands(c, CutOff(s'));
      return CutOff(s'), Onward;
    } else {
      ForwardingEnds(c, s, s', i, buffer);
      assert buffer[..|buffer|] == buffer;
      InvLands(c, s');
      return s', Onward;
    }
  }

  lemma InvLands(c: Config, s: State)
    ensures Inv(c, s) <==> Lands(c, s, Onward)
    ensures Inv(c, s) ==> Shape(s) && Evolves(s, s)
  {}

  /** One descriptor: end of file, a piece of the setup record, or output. */
  method ReadStream(c: Config, s: State, i: nat, r: Reading) returns (s': State, j: Jump)
    requires Inv(c, s) && i < 3
    ensures Evolves(s, s') && SameRun(s, s') && Lands(c, s', j) && Shape(s)
    ensures s.flow.eof[i] || r == NotReady ==> s' == s && j == Onward
    ensures !s.flow.eof[i] && r.ReadFailed? ==> s'.flow == s.flow && j == if r.retry then Onward else ToRuntimeFailed
    ensures s'.flow.eof == if r.Got? && r.data == [] then s.flow.eof[i := true] else s.flow.eof
    ensures s'.flow.received == if i < 2 && !s.flow.eof[i] && r.Got?
                                then s.flow.received[i := s.flow.received[i] + r.data] else s.flow.received
    ensures i < 2 ==> s'.flow.setupSize == s.flow.setupSize && j != ToStartupFailed
    ensures i == 2 && j == Onward ==> s'.flow.setupSize == s.flow.setupSize + if s.flow.eof[i] then 0 else |Arrived(r)|
    ensures i == 2 && !s.flow.eof[i] && r.Got? && r.data != [] ==>
              var size := s.flow.setupSize + |r.data|;
              && j == (if size > SETUP_RECORD then ToRuntimeFailed
                       else if size == SETUP_RECORD then ToStartupFailed else Onward)
              && s'.flow.setupSize == if size > SETUP_RECORD then s.flow.setupSize else size
    ensures s'.causes.setup ==> s.causes.setup || (i == 2 && r.Got? && r.data != [])
    ensures s'.causes.broker ==> s.causes.broker || ReadBreaks(r) || (i == 2 && r.Got? && r.data != [])
    ensures s'.time.everCancelled ==> s.time.everCancelled || (i < 2 && ReadRequests(r))
  {
    hide Inv, Evolves, Lands, PieceFails;
    ReadSteps(c, s, i);
    s', j := s, Onward;
    if s.flow.eof[i] { return; }
    match r {
      case NotReady =>
      case ReadFailed(retry) =>
        if !retry { return s.(causes := s.causes.(broker := true)), ToRuntimeFailed; }
      case Got(data, pieces) =>
        assert i < 2 ==> s.flow.received[i] + [] == s.flow.received[i];
        if data == [] { return s.(flow := s.flow.(eof := s.flow.eof[i := true])), Onward; }
        if i < 2 {
          s', j := Forward(c, s, i, data, pieces);
        } else {
          s', j := Collect(c, s, |data|);
        }
    }
  }

  lemma ReadSteps(c: Config, s: State, i: nat)
    requires Inv(c, s) && i < 3
    ensures var failed := s.(causes := s.causes.(broker := true));
            Lands(c, failed, ToRuntimeFailed) && Evolves(s, failed)
    ensures var closed := s.(flow := s.flow.(eof := s.flow.eof[i := true]));
            Lands(c, closed, Onward) && Evolves(s, closed)
    ensures Lands(c, s, Onward) && Evolves(s, s) && Shape(s)
  {}

  /** A piece of the setup record, which is complete, incomplete or too long. */
  method Collect(c: Config, s: State, count: nat) returns (s': State, j: Jump)
    requires Inv(c, s)
    ensures Evolves(s, s') && Lands(c, s', j)
    ensures var size := s.flow.setupSize + count;
            && j == (if size > 8 then ToRuntimeFailed
                     else if size == 8 then ToStartupFailed else Onward)
            && s' == s.(flow := s.flow.(setupSize := if size > 8 then s.flow.setupSize else size),
                        causes := s.causes.(broker := s.causes.broker || j == ToRuntimeFailed,
                                            setup := s.causes.setup || j == ToStartupFailed))
  {
    hide Inv, Evolves, Lands;
    CollectSteps(c, s, count);
    s', j := s, Onward;
    if count > SETUP_RECORD - s.flow.setupSize {
      return s.(causes := s.causes.(broker := true)), ToRuntimeFailed;
    }
    s' := s.(flow := s.flow.(setupSize := s.flow.setupSize + count));
    if s'.flow.setupSize == SETUP_RECORD {
      s', j := s'.(causes := s.causes.(setup := true)), ToStartupFailed;
    }
  }

  lemma CollectSteps(c: Config, s: State, count: nat)
    requires Inv(c, s)
    ensures var failed := s.(causes := s.causes.(broker := true));
            Lands(c, failed, ToRuntimeFailed) && Evolves(s, failed)
    ensures var more := s.(flow := s.flow.(setupSize := s.flow.setupSize + count));
            s.flow.setupSize + count <= SETUP_RECORD ==>
              && Lands(c, more, Onward) && Evolves(s, more)
              && Lands(c, more.(causes := s.causes.(setup := true)), ToStartupFailed)
              && Evolves(s, more.(causes := s.causes.(setup := true)))
  {}

  /** The leader has ended: everything else is killed and the exit announced, even
      after a cancellation. */
  method ObserveLeader(c: Config, s: State, p: Pass) returns (s': State)
    requires Inv(c, s)
    ensures Inv(c, s') && Evolves(s, s')
    ensures s.worker.leaderObserved || p.leader == Running ==> s' == s
    ensures !s.worker.leaderObserved && p.leader.Ended? ==>
              var announce := c.processMode && s.worker.started;
              && s'.terminating && s'.flow == s.flow
              && s'.worker == s.worker.(leaderObserved := true, status := p.leader.status,
                                        exitedSent := announce && p.leader.announced)
              && s'.cleanupEnd == (if s.terminating then s.cleanupEnd else s'.time.clock + CLEANUP_MS)
              && s'.causes == s.causes.(broker := s.causes.broker || (announce && !p.leader.announced))
              && s'.ending == (if announce && !p.leader.announced then BrokerError else s.ending)
              && s'.time == Later(s, p.observing).time
  {
    LaterKeeps(c, s, p.observing);
    InvLands(c, s);
    s' := Later(s, p.observing);
    assert s.worker.leaderObserved ==> s.terminating;
    hide Inv, Evolves, Base, Truthful;
    if s.worker.leaderObserved || p.leader == Running { return s; }
    var status := p.leader.status;
    s' := s'.(worker := s'.worker.(leaderObserved := true, status := status),
              cleanupEnd := if s'.terminating then s'.cleanupEnd else s'.time.clock + CLEANUP_MS,
              terminating := true);
    ExitSeen(c, Later(s, p.observing), s');
    if c.processMode && s'.worker.started {
      if p.leader.announced {
        s' := s'.(sent := s'.sent + [ExitedEvent(status.Code(), status.Signal())],
                  worker := s'.worker.(exitedSent := true));
      } else {
        s' := s'.(ending := BrokerError, causes := s'.causes.(broker := true));
      }
    }
    EvolvesOn(s, Later(s, p.observing), s');
  }

  lemma ExitSeen(c: Config, s: State, t: State)
    requires Inv(c, s) && !s.worker.leaderObserved && t.terminating
    requires t.cleanupEnd == if s.terminating then s.cleanupEnd else s.time.clock + CLEANUP_MS
    requires t == s.(worker := s.worker.(leaderObserved := true, status := t.worker.status),
                     cleanupEnd := t.cleanupEnd, terminating := true)
    ensures !t.worker.exitedSent
    ensures if c.processMode && s.worker.started then
              var status := t.worker.status;
              var told := t.(sent := t.sent + [ExitedEvent(status.Code(), status.Signal())],
                             worker := t.worker.(exitedSent := true));
              var untold := t.(ending := BrokerError, causes := t.causes.(broker := true));
              Inv(c, told) && Evolves(s, told) && Inv(c, untold) && Evolves(s, untold)
            else
              Inv(c, t) && Evolves(s, t)
  {}

  /** Reaping: the leader first, then every other child until none is left. */
  method Reap(c: Config, s: State, leaderWaited: bool, noChildLeft: bool) returns (s': State)
    requires Inv(c, s)
    ensures Inv(c, s') && Evolves(s, s')
    ensures s'.worker.leaderReaped <==> s.worker.leaderReaped || (s.worker.leaderObserved && leaderWaited)
    ensures s'.worker.alive <==> s.worker.alive && !(s'.worker.leaderReaped && noChildLeft)
    ensures s' == s.(worker := s.worker.(leaderReaped := s'.worker.leaderReaped, alive := s'.worker.alive))
  {
    assert (s.worker.leaderReaped ==> s.worker.leaderObserved) && (!s.worker.alive ==> s.worker.leaderReaped);
    hide Inv, Evolves;
    s' := s;
    if s.worker.leaderObserved && !s.worker.leaderReaped && leaderWaited {
      s' := s'.(worker := s'.worker.(leaderReaped := true));
    }
    if s'.worker.leaderReaped && noChildLeft { s' := s'.(worker := s'.worker.(alive := false)); }
    Reaped(c, s, s');
  }

  lemma Reaped(c: Config, s: State, t: State)
    requires Inv(c, s) && t == s.(worker := s.worker.(leaderReaped := t.worker.leaderReaped, alive := t.worker.alive))
    requires s.worker.leaderReaped ==> t.worker.leaderReaped
    requires t.worker.leaderReaped ==> s.worker.leaderObserved
    requires t.worker.alive ==> s.worker.alive
    requires !t.worker.alive ==> t.worker.leaderReaped
    ensures Inv(c, t) && Evolves(s, t)
  {}

  /** What a reading delivers. */
  ghost function Arrived(r: Reading): (data: seq<byte>) { if r.Got? then r.data else [] }

  /** Stream `i` has taken exactly what the reading gave. */
  ghost predicate StreamServed(f: Flow, g: Flow, i: nat, r: Reading)
    requires i < 3 && |f.eof| == |g.eof| == 3 && |f.received| == |g.received| == 2
  {
    && (g.eof[i] <==> f.eof[i] || (r.Got? && r.data == []))
    && (i < 2 ==> g.received[i] == f.received[i] + if f.eof[i] then [] else Arrived(r))
    && (i == 2 ==> g.setupSize == f.setupSize + if f.eof[i] then 0 else |Arrived(r)|)
  }

  ghost predicate StreamIdle(f: Flow, g: Flow, i: nat)
    requires i < 3 && |f.eof| == |g.eof| == 3 && |f.received| == |g.received| == 2
  {
    && g.eof[i] == f.eof[i] && (i < 2 ==> g.received[i] == f.received[i])
    && (i == 2 ==> g.setupSize == f.setupSize)
  }

  /** Polling, an open decision, and the three streams. */
  method ReadAll(c: Config, s: State, p: Pass) returns (s': State, j: Jump)
    requires Inv(c, s)
    ensures Evolves(s, s') && Lands(c, s', j) && SameRun(s, s')
    ensures Blames(s, s', SetupFails(p), BrokerFails(p), Requested(p))
    ensures !p.pollOk || (!s.terminating && !p.decisionOk) ==> j == ToRuntimeFailed
    ensures Shape(s) && Shape(s')
    ensures j == Onward ==> forall i :: 0 <= i < 3 ==> StreamServed(s.flow, s'.flow, i, p.Stream(i))
    ensures s'.time.clock >= s.time.clock + p.serving.passed && (p.serving.request ==> s'.time.everCancelled)
  {
    hide Inv, Evolves, Lands, StreamServed, StreamIdle, SetupFails, BrokerFails, Requested;
    PartsOf(p);
    LaterKeeps(c, s, p.serving);
    s', j := Later(s, p.serving), Onward;
    InvLands(c, s);
    InvLands(c, s');
    PollFails(c, s, p.serving);
    if !p.pollOk || (!s.terminating && !p.decisionOk) {
      return s'.(causes := s'.causes.(broker := true)), ToRuntimeFailed;
    }
    assert forall k :: 0 <= k < 3 ==> StreamIdle(s.flow, s'.flow, k) by { Idles(s.flow); }
    for i := 0 to 3
      invariant j == Onward && Inv(c, s') && Evolves(s, s') && Shape(s') && SameRun(s, s')
      invariant Blames(s, s', SetupFails(p), BrokerFails(p), Requested(p))
      invariant forall k :: 0 <= k < i ==> StreamServed(s.flow, s'.flow, k, p.Stream(k))
      invariant forall k :: i <= k < 3 ==> StreamIdle(s.flow, s'.flow, k)
      invariant s'.time.clock >= s.time.clock + p.serving.passed && (p.serving.request ==> s'.time.everCancelled)
    {
      ghost var a := s';
      s', j := ReadStream(c, s', i, p.Stream(i));
      EvolvesOn(s, a, s');
      InvLands(c, s');
      ReadingBlames(s, a, s', p, i);
      LandsShape(c, s', j);
      TimeGoesOn(a, s');
      if j != Onward { return; }
      ServedNext(s.flow, a.flow, s'.flow, i, p);
    }
    InvLands(c, s');
  }

  lemma TimeGoesOn(a: State, b: State)
    requires Evolves(a, b)
    ensures a.time.clock <= b.time.clock && (a.time.everCancelled ==> b.time.everCancelled)
  {}

  lemma Idles(f: Flow)
    requires |f.eof| == 3 && |f.received| == 2
    ensures forall k :: 0 <= k < 3 ==> StreamIdle(f, f, k)
  {}

  lemma PollFails(c: Config, s: State, tick: Tick)
    requires Inv(c, s)
    ensures var failed := Later(s, tick).(causes := s.causes.(broker := true));
            Lands(c, failed, ToRuntimeFailed) && Evolves(s, failed)
  {}

  lemma LandsShape(c: Config, s: State, j: Jump)
    requires Lands(c, s, j)
    ensures Shape(s)
  {}

  lemma ReadingBlames(s: State, a: State, b: State, p: Pass, i: nat)
    requires i < 3 && Blames(s, a, SetupFails(p), BrokerFails(p), Requested(p))
    requires b.causes.setup ==> a.causes.setup || (i == 2 && p.setup.Got? && p.setup.data != [])
    requires b.causes.broker ==>
               a.causes.broker || ReadBreaks(p.Stream(i)) || (i == 2 && p.setup.Got? && p.setup.data != [])
    requires b.time.everCancelled ==> a.time.everCancelled || (i < 2 && ReadRequests(p.Stream(i)))
    ensures Blames(s, b, SetupFails(p), BrokerFails(p), Requested(p))
  {
    hide ReadBreaks, ReadRequests;
  }

  lemma ServedNext(f: Flow, a: Flow, g: Flow, i: nat, p: Pass)
    requires i < 3 && |f.eof| == |a.eof| == 3 && |f.received| == |a.received| == 2
    requires forall k :: 0 <= k < i ==> StreamServed(f, a, k, p.Stream(k))
    requires forall k :: i <= k < 3 ==> StreamIdle(f, a, k)
    requires g.eof == if p.Stream(i).Got? && p.Stream(i).data == [] then a.eof[i := true] else a.eof
    requires g.received == if i < 2 && !a.eof[i] && p.Stream(i).Got?
                           then a.received[i := a.received[i] + p.Stream(i).data] else a.received
    requires g.setupSize == a.setupSize + if i < 2 || a.eof[i] then 0 else |Arrived(p.Stream(i))|
    ensures forall k :: 0 <= k <= i ==> StreamServed(f, g, k, p.Stream(k))
    ensures forall k :: i < k < 3 ==> StreamIdle(f, g, k)
  {
    forall k | 0 <= k < 3 ensures if k <= i then StreamServed(f, g, k, p.Stream(k)) else StreamIdle(f, g, k) {
      assert if k < i then StreamServed(f, a, k, p.Stream(k)) else StreamIdle(f, a, k);
      assert k < 2 ==> f.received[k] + [] == f.received[k];
    }
  }

  /** Every answer of the pass has had its effect. */
  ghost predicate Served(s: State, s': State, p: Pass)
    requires Shape(s) && Shape(s')
  {
    && (forall i :: 0 <= i < 3 ==> StreamServed(s.flow, s'.flow, i, p.Stream(i)))
    && (s'.worker.leaderObserved <==> s.worker.leaderObserved || p.leader.Ended?)
    && (!s.worker.leaderObserved && p.leader.Ended? ==> s'.worker.status == p.leader.status)
    && (s'.worker.leaderReaped <==> s.worker.leaderReaped || (s'.worker.leaderObserved && p.leaderWaited))
    && (s'.worker.alive <==> s.worker.alive && !(s'.worker.leaderReaped && p.noChildLeft))
  }

  /** Everything after the start: poll, decide, read, observe, reap. */
  method Serve(c: Config, s: State, p: Pass) returns (s': State, j: Jump)
    requires Inv(c, s)
    ensures Evolves(s, s') && Lands(c, s', j) && Shape(s) && Shape(s')
    ensures Blames(s, s', SetupFails(p), BrokerFails(p), Requested(p))
    ensures !p.pollOk || (!s.terminating && !p.decisionOk) ==> j == ToRuntimeFailed
    ensures j == Onward ==> Served(s, s', p)
    ensures s'.worker.started == s.worker.started && s'.worker.traced == s.worker.traced
  {
    hide Inv, Evolves, Lands, Base, Truthful, StreamServed, ReadBreaks, ReadRequests, SetupFails;
    s', j := ReadAll(c, s, p);
    if j != Onward { return; }
    InvLands(c, s');
    ghost var a := s';
    s' := ObserveLeader(c, s', p);
    InvLands(c, s');
    EvolvesOn(s, a, s');
    ghost var b := s';
    s' := Reap(c, s', p.leaderWaited, p.noChildLeft);
    InvLands(c, s');
    EvolvesOn(s, b, s');
  }

  method StartupFailed(c: Config, s: State, tick: Tick) returns (s': State)
    requires Lands(c, s, ToStartupFailed)
    ensures Inv(c, s') && Evolves(s, s')
    ensures s' == Later(s, tick).(ending := SetupError, terminating := true, cleanupEnd := s'.time.clock + CLEANUP_MS)
  {
    s' := Later(s, tick);
    s' := s'.(ending := SetupError, terminating := true, cleanupEnd := s'.time.clock + CLEANUP_MS);
  }

  method RuntimeFailed(c: Config, s: State, tick: Tick) returns (s': State)
    requires Lands(c, s, ToRuntimeFailed)
    ensures Inv(c, s') && Evolves(s, s')
    ensures s' == Later(s, tick).(ending := s'.ending, terminating := true, cleanupEnd := s'.time.clock + CLEANUP_MS)
    ensures s'.ending == Cancelled <==> s'.time.cancelled
    ensures s'.ending == TimedOut <==> !s'.time.cancelled && s'.time.clock >= c.deadline
    ensures s'.ending == BrokerError <==> !s'.time.cancelled && s'.time.clock < c.deadline
  {
    s' := Later(s, tick);
    var ending := if s'.time.cancelled then Cancelled
                  else if s'.time.clock >= c.deadline then TimedOut else BrokerError;
    s' := s'.(ending := ending, terminating := true, cleanupEnd := s'.time.clock + CLEANUP_MS);
  }

  /** The two labels at the end of the loop body. */
  method Land(c: Config, s: State, j: Jump, tick: Tick) returns (s': State)
    requires Lands(c, s, j)
    ensures Inv(c, s') && Evolves(s, s')
    ensures j == Onward ==> s' == s
    ensures j != Onward ==> s.causes.Any()
    ensures j == ToStartupFailed ==> s'.ending == SetupError
    ensures j == ToRuntimeFailed ==> s'.ending in {Cancelled, TimedOut, BrokerError}
    ensures s'.causes == s.causes && s'.worker == s.worker && s'.flow == s.flow
    ensures s'.time.everCancelled ==> s.time.everCancelled || tick.request
  {
    match j {
      case Onward => s' := s;
      case ToStartupFailed => s' := StartupFailed(c, s, tick);
      case ToRuntimeFailed => s' := RuntimeFailed(c, s, tick);
    }
  }

  /** A running worker whose run is cancelled, past its deadline or without commands when
      the pass begins. */
  ghost predicate Overdue(c: Config, s: State, p: Pass) {
    && !s.terminating
    && (!p.commandsOk || s.time.cancelled || p.head.request || s.time.clock + p.head.passed >= c.deadline)
  }

  /** The two checks and the start of the worker, up to the look at the cleanup's end. */
  method Begin(c: Config, s: State, p: Pass) returns (s': State, now: int, j: Jump)
    requires Inv(c, s)
    ensures Evolves(s, s') && Lands(c, s', j) && Blames(s, s', SetupFails(p), BrokerFails(p), Requested(p))
    ensures now == s.time.clock + p.head.passed && s'.flow == s.flow
    ensures s'.terminating && now >= s'.cleanupEnd <==> s.terminating && now >= s.cleanupEnd
    ensures s.terminating ==> j == Onward && s'.time.clock == now && s'.cleanupEnd == s.cleanupEnd
    ensures s'.worker.traced ==> s.worker.traced || Attaches(s, p)
    ensures s'.worker.started ==> s.worker.started || Execs(s, p)
    ensures Overdue(c, s, p) ==> s'.causes.Any()
    ensures !s'.causes.Any() ==>
              s'.worker == s.worker.(started := s.worker.started || Execs(s, p),
                                     traced := s.worker.traced || Attaches(s, p))
  {
    hide Inv, Evolves, Lands, SetupFails, BrokerFails, Requested;
    PartsOf(p);
    s', j := CheckDeadline(c, s, p);
    now := s'.time.clock;
    if j != Onward { return; }
    var a := s';
    InvLands(c, a);
    s', j := Startup(c, a, p);
    EvolvesOn(s, a, s');
  }

  /** The pass up to the look at the cleanup's end; `over` when it ends at a label already. */
  method Open(c: Config, s: State, p: Pass) returns (s': State, now: int, over: bool)
    requires Inv(c, s)
    ensures Inv(c, s') && Evolves(s, s') && Blames(s, s', SetupFails(p), BrokerFails(p), Requested(p))
    ensures now == s.time.clock + p.head.passed && s'.flow == s.flow
    ensures !over ==> (s'.terminating && now >= s'.cleanupEnd <==> s.terminating && now >= s.cleanupEnd)
    ensures s.terminating ==> !over && s'.time.clock == now && s'.cleanupEnd == s.cleanupEnd
    ensures over || Overdue(c, s, p) ==> s'.causes.Any()
    ensures Launches(s, s', p)
  {
    hide Inv, Evolves, Lands, Base, Truthful, SetupFails, BrokerFails, Requested, Overdue, Execs, Attaches;
    PartsOf(p);
    var b, j;
    b, now, j := Begin(c, s, p);
    s' := Land(c, b, j, p.landing);
    EvolvesOn(s, b, s');
    over := j != Onward;
  }

  /** What a pass does to the start of the worker. */
  ghost predicate Launches(s: State, s': State, p: Pass) {
    && (s'.worker.traced ==> s.worker.traced || Attaches(s, p))
    && (s'.worker.started ==> s.worker.started || Execs(s, p))
    && (!s'.causes.Any() ==>
          s'.worker == s.worker.(started := s.worker.started || Execs(s, p),
                                 traced := s.worker.traced || Attaches(s, p)))
  }

  /** One pass of the loop; `stop` is the break on an expired cleanup. */
  method Iterate(c: Config, s: State, p: Pass) returns (s': State, stop: bool)
    requires Inv(c, s)
    ensures Inv(c, s') && Evolves(s, s') && Shape(s) && Shape(s')
    ensures Blames(s, s', SetupFails(p), BrokerFails(p), Requested(p))
    ensures stop <==> s.terminating && s.time.clock + p.head.passed >= s.cleanupEnd
    ensures stop ==> s'.terminating && s'.time.clock >= s'.cleanupEnd
    ensures Overdue(c, s, p) ==> s'.causes.Any()
    ensures s'.worker.traced ==> s.worker.traced || Attaches(s, p)
    ensures s'.worker.started ==> s.worker.started || Execs(s, p)
    ensures !stop && !s'.causes.Any() ==>
              && Served(s, s', p)
              && (s'.worker.started <==> s.worker.started || Execs(s, p))
              && (s'.worker.traced <==> s.worker.traced || Attaches(s, p))
  {
    hide Inv, Evolves, Served, SetupFails, BrokerFails, Requested, Overdue, Execs, Attaches;
    var now, over;
    s', now, over := Open(c, s, p);
    InvLands(c, s);
    InvLands(c, s');
    stop := !over && s'.terminating && now >= s'.cleanupEnd;
    if over || stop { return; }
    var b := s';
    s' := Rest(c, b, p);
    CausesStay(b, s');
    EvolvesOn(s, b, s');
    if !s'.causes.Any() { ServedFrom(s, b, s', p); }
  }

  /** The pass from the poll to its end. */
  method Rest(c: Config, s: State, p: Pass) returns (s': State)
    requires Inv(c, s)
    ensures Inv(c, s') && Evolves(s, s') && Shape(s) && Shape(s')
    ensures Blames(s, s', SetupFails(p), BrokerFails(p), Requested(p))
    ensures !p.pollOk || (!s.terminating && !p.decisionOk) ==> s'.causes.Any()
    ensures !s'.causes.Any() ==> Served(s, s', p)
    ensures s'.worker.started == s.worker.started && s'.worker.traced == s.worker.traced
  {
    hide Inv, Evolves, Lands, Base, Truthful, Served, SetupFails, BrokerFails, Requested;
    PartsOf(p);
    var d, j := Serve(c, s, p);
    s' := Land(c, d, j, p.landing);
    InvLands(c, s');
    EvolvesOn(s, d, s');
  }

  /** Serving starts from what the start of the worker left. */
  lemma ServedFrom(s: State, b: State, d: State, p: Pass)
    requires Shape(s) && Shape(b) && Shape(d) && Served(b, d, p) && b.flow == s.flow
    requires b.worker == s.worker.(started := b.worker.started, traced := b.worker.traced)
    ensures Served(s, d, p)
  {
    hide StreamServed;
  }

  lemma CausesStay(a: State, b: State)
    requires Evolves(a, b)
    ensures !b.causes.Any() ==> !a.causes.Any()
  {}

  // ---------- the report ----------

  /** What the report says of a run that ended in `s`, `expired` telling whether the
      cleanup ran out of time. */
  ghost predicate Honest(c: Config, s: State, expired: bool, r: Report)
    requires Shape(s)
  {
    && r.stdoutBytes == |s.flow.forwarded[0]| && r.stderrBytes == |s.flow.forwarded[1]|
    && r.stdoutBytes + r.stderrBytes <= c.limit
    && (r.complete <==> !s.worker.alive && s.worker.leaderReaped) && r.started == s.worker.started
    && (s.worker.leaderReaped ==> r.code == s.worker.status.Code() && r.signal == s.worker.status.Signal())
    && (!s.worker.leaderReaped ==> r.code == -1 && r.signal == 0)
    && (r.ending == CleanupError <==> !r.complete || expired)
    && (r.ending == NormalExit <==> r.complete && !expired && s.worker.started && !s.causes.Any())
    && (r.ending == NormalExit ==>
          && s.flow.eof == [true, true, true] && s.flow.forwarded == s.flow.received
          && (c.processMode ==> s.worker.exitedSent))
    && (r.ending == SetupError ==> s.causes.setup || (!s.worker.started && !s.causes.Any()))
    && (r.ending == BrokerError ==> s.causes.broker)
    && (r.ending == OutputLimit ==> s.causes.limit && r.stdoutBytes + r.stderrBytes == c.limit)
    && (r.ending == Cancelled ==> s.time.everCancelled && s.causes.Any())
    && (r.ending == TimedOut ==> s.time.clock >= c.deadline && s.causes.Any())
  }

  function Conclude(s: State, expired: bool): (r: Report)
    requires Shape(s)
  {
    var outcome := if expired then CleanupError else s.ending;
    var complete := !s.worker.alive && s.worker.leaderReaped;
    var ending := if !complete then CleanupError else outcome;
    var settled := if !s.worker.started && ending == NormalExit then SetupError else ending;
    Report(settled, if s.worker.leaderReaped then s.worker.status.Code() else -1,
           if s.worker.leaderReaped then s.worker.status.Signal() else 0,
           complete, s.worker.started, s.flow.bytes[0], s.flow.bytes[1])
  }

  lemma ConcludeIsHonest(c: Config, s: State, expired: bool)
    requires Inv(c, s) && (expired || (!s.worker.alive && s.flow.eof == [true, true, true]))
    ensures Honest(c, s, expired, Conclude(s, expired))
  {}

  /** What the first `n` passes deliver on stream `i`, up to its end. */
  ghost predicate EndedBy(script: seq<Pass>, n: nat, i: nat)
    requires n <= |script|
  {
    exists k :: 0 <= k < n && script[k].Stream(i).Got? && script[k].Stream(i).data == []
  }

  ghost function Delivered(script: seq<Pass>, n: nat, i: nat): (data: seq<byte>)
    requires n <= |script|
  {
    if n == 0 then [] else
    Delivered(script, n - 1, i) + if EndedBy(script, n - 1, i) then [] else Arrived(script[n - 1].Stream(i))
  }

  /** The streams hold what the passes so far delivered. */
  ghost predicate Kept(s: State, script: seq<Pass>, n: nat)
    requires Shape(s) && n <= |script|
  {
    && (forall i :: 0 <= i < 3 ==> (s.flow.eof[i] <==> EndedBy(script, n, i)))
    && (forall i :: 0 <= i < 2 ==> s.flow.received[i] == Delivered(script, n, i))
    && s.flow.setupSize == |Delivered(script, n, 2)|
  }

  lemma KeptOn(s: State, s': State, script: seq<Pass>, n: nat)
    requires Shape(s) && Shape(s') && n < |script| && Kept(s, script, n)
    requires forall i :: 0 <= i < 3 ==> StreamServed(s.flow, s'.flow, i, script[n].Stream(i))
    ensures Kept(s', script, n + 1)
  {
    forall i | 0 <= i < 3 ensures s'.flow.eof[i] <==> EndedBy(script, n + 1, i) {
      assert StreamServed(s.flow, s'.flow, i, script[n].Stream(i));
    }
    forall i | 0 <= i < 2 ensures s'.flow.received[i] == Delivered(script, n + 1, i) {
      assert StreamServed(s.flow, s'.flow, i, script[n].Stream(i));
    }
    assert StreamServed(s.flow, s'.flow, 2, script[n].Stream(2));
  }

  /** Blame over a whole run: what is recorded as gone wrong did go wrong in some pass. */
  ghost predicate Explained(c: Config, s: State, setupFailed: bool, script: seq<Pass>, n: nat)
    requires Shape(s) && n <= |script|
  {
    && (s.causes.setup ==> setupFailed || exists k :: 0 <= k < n && SetupFails(script[k]))
    && (s.causes.broker ==> exists k :: 0 <= k < n && BrokerFails(script[k]))
    && (s.time.everCancelled ==> exists k :: 0 <= k < n && Requested(script[k]))
    && (s.causes.stopped ==> s.time.everCancelled || s.time.clock >= c.deadline)
    && (s.causes.limit ==> |s.flow.received[0]| + |s.flow.received[1]| > c.limit)
    && (setupFailed ==> s.causes.setup)
    && (s.worker.traced ==> exists k :: 0 <= k < n && StopsAt(script[k], false))
    && (s.worker.started ==> exists k :: 0 <= k < n && StopsAt(script[k], true))
  }

  /** The worker was seen to stop for the first time, or in its program. */
  ghost predicate StopsAt(p: Pass, exec: bool) {
    p.stop.Stopped? && if exec then p.stop.atExec else p.stop.atStart
  }

  /** A cleanup has the time it was given since the run began. */
  ghost predicate Timed(now: int, s: State) {
    now <= s.time.clock && (s.terminating ==> now + 5000 <= s.cleanupEnd <= s.time.clock + 5000)
  }

  lemma TimedOn(now: int, s: State, s': State)
    requires Timed(now, s) && Evolves(s, s')
    ensures Timed(now, s')
  {}

  lemma ExplainedOn(c: Config, s: State, s': State, setupFailed: bool, script: seq<Pass>, n: nat)
    requires Shape(s) && n < |script| && Explained(c, s, setupFailed, script, n)
    requires Inv(c, s') && Evolves(s, s')
    requires Blames(s, s', SetupFails(script[n]), BrokerFails(script[n]), Requested(script[n]))
    requires s'.worker.traced ==> s.worker.traced || Attaches(s, script[n])
    requires s'.worker.started ==> s.worker.started || Execs(s, script[n])
    ensures Shape(s') && Explained(c, s', setupFailed, script, n + 1)
  {
    hide SetupFails, BrokerFails, Requested;
  }

  /** `mg_supervise` for the passes of a script: either the loop is still running when
      they are used up, or its report goes out as the last message. The report is honest,
      nothing is blamed that did not happen, and in a run in which nothing went wrong
      every byte the worker wrote has been kept. */
  method Supervise(c: Config, now: int, setupFailed: bool, script: seq<Pass>, delivered: bool)
    returns (s: State, expired: bool, n: nat, r: Option<Report>)
    ensures Shape(s) && s.flow.bytes[0] + s.flow.bytes[1] <= c.limit && n <= |script|
    ensures Explained(c, s, setupFailed, script, n)
    ensures Timed(now, s) && (expired ==> s.terminating && s.time.clock >= s.cleanupEnd)
    ensures !expired && !s.causes.Any() ==> Kept(s, script, n)
    ensures var over := expired || (!s.worker.alive && s.flow.eof == [true, true, true]);
            (over || n == |script|) && (r.Some? <==> over && delivered)
    ensures r.None? ==> s.sent == Lifecycle(s)
    ensures r.Some? ==> Honest(c, s, expired, r.value) && s.sent == Lifecycle(s) + [ResultEvent(r.value)]
    ensures s.worker.exitedSent ==> s.worker.started
  {
    hide Inv, Evolves, Explained, Kept, SetupFails, BrokerFails, Requested, Served, Honest;
    s, expired, n, r := Initial(now, setupFailed), false, 0, None;
    AtEntry(c, now, setupFailed, script);
    while !expired && (s.worker.alive || !s.flow.eof[0] || !s.flow.eof[1] || !s.flow.eof[2])
      invariant Inv(c, s) && Shape(s) && n <= |script|
      invariant Explained(c, s, setupFailed, script, n)
      invariant Timed(now, s) && (expired ==> s.terminating && s.time.clock >= s.cleanupEnd)
      invariant !expired && !s.causes.Any() ==> Kept(s, script, n)
      decreases |script| - n
    {
      if n == |script| { break; }
      ghost var a := s;
      s, expired := Iterate(c, s, script[n]);
      ExplainedOn(c, a, s, setupFailed, script, n);
      TimedOn(now, a, s);
      KeptUnlessBlamed(a, s, script, n, expired);
      n := n + 1;
    }
    InvSays(c, s);
    var over := expired || (!s.worker.alive && s.flow.eof[0] && s.flow.eof[1] && s.flow.eof[2]);
    assert !over || expired || s.flow.eof == [true, true, true];
    if !over || !delivered { return; }
    ConcludeIsHonest(c, s, expired);
    var report := Conclude(s, expired);
    ghost var last := s;
    s := s.(sent := s.sent + [ResultEvent(report)]);
    MessageAside(c, last, s, setupFailed, script, n, expired, report);
    r := Some(report);
  }

  lemma AtEntry(c: Config, now: int, setupFailed: bool, script: seq<Pass>)
    ensures var s := Initial(now, setupFailed);
            Inv(c, s) && Shape(s) && Explained(c, s, setupFailed, script, 0) && Kept(s, script, 0)
  {}

  lemma InvSays(c: Config, s: State)
    requires Inv(c, s)
    ensures Shape(s) && s.flow.bytes[0] + s.flow.bytes[1] <= c.limit && s.sent == Lifecycle(s)
    ensures s.worker.exitedSent ==> s.worker.started
  {}

  /** Sending the report changes nothing else. */
  lemma MessageAside(c: Config, s: State, t: State, setupFailed: bool, script: seq<Pass>, n: nat, expired: bool,
                     report: Report)
    requires Shape(s) && t == s.(sent := t.sent) && n <= |script|
    ensures Shape(t) && Lifecycle(t) == Lifecycle(s)
    ensures Explained(c, t, setupFailed, script, n) == Explained(c, s, setupFailed, script, n)
    ensures Kept(t, script, n) == Kept(s, script, n)
    ensures Honest(c, t, expired, report) == Honest(c, s, expired, report)
  {
    hide SetupFails, BrokerFails, Requested;
  }

  /** A run in which nothing outside failed, no request arrived, the deadline was not
      reached and the output fits is reported as a normal exit exactly when the worker
      started and everything was reaped. */
  lemma CleanRun(c: Config, s: State, setupFailed: bool, script: seq<Pass>, n: nat, r: Report)
    requires Shape(s) && n <= |script| && Explained(c, s, setupFailed, script, n) && Honest(c, s, false, r)
    requires !setupFailed && s.time.clock < c.deadline && |s.flow.received[0]| + |s.flow.received[1]| <= c.limit
    requires forall k :: 0 <= k < n ==> !SetupFails(script[k]) && !BrokerFails(script[k]) && !Requested(script[k])
    ensures r.ending == NormalExit <==> r.started && r.complete
  {
    hide SetupFails, BrokerFails, Requested;
    assert !s.causes.setup && !s.causes.broker && !s.causes.stopped && !s.causes.limit;
  }

  lemma KeptUnlessBlamed(s: State, s': State, script: seq<Pass>, n: nat, stop: bool)
    requires Shape(s) && Shape(s') && n < |script| && Evolves(s, s')
    requires !s.causes.Any() ==> Kept(s, script, n)
    requires !stop && !s'.causes.Any() ==> Served(s, s', script[n])
    ensures !stop && !s'.causes.Any() ==> Kept(s', script, n + 1)
  {
    if !stop && !s'.causes.Any() { KeptOn(s, s', script, n); }
  }
}
