/** The output side of the stdio transport: a byte-budgeted queue, one writer, and a peer
    that sees a prefix of what was accepted whatever the writer and its pipe do. */
module OutputChannel {
  import opened Basics
  import opened Framing

  const CAPACITY := 128

  /** The writer waits, has a frame at the pipe (`sent` bytes through), was cancelled while
      its thread still holds a frame, broke on a pipe error, or stopped while waiting. */
  datatype Writer =
    | Idle
    | Writing(frame: Bytes, sent: nat)
    | Detached(frame: Bytes, sent: nat)
    | Broken(frame: Bytes, sent: nat)
    | Stopped
  {
    predicate Valid() {
      (Writing? || Detached? || Broken?) ==> sent <= |frame|
    }

    /** What the writer holds and the peer has not seen. */
    function Unsent(): (s: Bytes)
      requires Valid()
    {
      if Idle? || Stopped? then [] else frame[sent..]
    }

    function Advanced(n: nat): (w: Writer) {
      match this
      case Writing(f, k) => Writing(f, k + n)
      case Detached(f, k) => Detached(f, k + n)
      case _ => this
    }

    function Charged(): (n: nat) {
      if Writing? then |frame| else 0
    }
  }

  function Concat(frames: seq<Bytes>): (s: Bytes) {
    if frames == [] then [] else frames[0] + Concat(frames[1..])
  }

  lemma {:induction false} ConcatPush(frames: seq<Bytes>, f: Bytes)
    ensures Concat(frames + [f]) == Concat(frames) + f
  {
    if frames != [] {
      assert (frames + [f])[1..] == frames[1..] + [f];
      ConcatPush(frames[1..], f);
    }
  }

  lemma {:induction false} FramedPush(ps: seq<Bytes>, p: Bytes)
    ensures Framed(ps + [p]) == Framed(ps) + (p + [LF])
  {
    if ps == [] {
      assert Framed([p]) == p + [LF] + Framed([]);
    } else {
      assert (ps + [p])[1..] == ps[1..] + [p];
      FramedPush(ps[1..], p);
    }
  }

  lemma Advance(peer: Bytes, w: Writer, n: nat, rest: Bytes)
    requires w.Valid() && (w.Writing? || w.Detached?) && n <= |w.frame| - w.sent
    ensures n <= |w.Unsent()| && w.Advanced(n).Valid()
    ensures peer + w.Unsent()[..n] + w.Advanced(n).Unsent() + rest == peer + w.Unsent() + rest
  {
    assert w.Unsent() == w.Unsent()[..n] + w.Advanced(n).Unsent();
    assert peer + w.Unsent()[..n] + w.Advanced(n).Unsent() == peer + w.Unsent();
  }

  /** What can happen next: an emission (`None` for a message that does not encode), or
      progress, failure and cancellation of the writer. */
  datatype Event = Emit(data: Option<Bytes>) | Take | Deliver(n: nat) | Flush | Break | Cancel

  /** The channel's fields at one moment; what is outstanding follows from them. */
  datatype Moment = Moment(failed: bool, queue: seq<Bytes>, writer: Writer, peer: Bytes, accepted: seq<Bytes>)

  /** What one step of the writer or of its pipe does. */
  ghost predicate Moves(a: Moment, b: Moment, e: Event) {
    var w := a.writer;
    match e
    case Emit(_) => false
    case Take =>
      b == if w.Idle? && a.queue != [] then a.(writer := Writing(a.queue[0], 0), queue := a.queue[1..]) else a
    case Deliver(n) =>
      if (w.Writing? || w.Detached?) && n + w.sent <= |w.frame|
      then b == a.(writer := w.Advanced(n), peer := a.peer + w.frame[w.sent..w.sent + n]) else b == a
    case Flush => b == if w.Writing? && w.sent == |w.frame| then a.(writer := Idle) else a
    case Break => b == if w.Writing? then a.(writer := Broken(w.frame, w.sent), failed := true) else a
    case Cancel =>
      b == if w.Writing? then a.(writer := Detached(w.frame, w.sent)) else if w.Idle? then a.(writer := Stopped) else a
  }

  /** What an emission does. */
  ghost predicate Enters(a: Moment, b: Moment, data: Option<Bytes>, taken: bool) {
    if taken then data.Some? && b == a.(queue := a.queue + [data.value + [LF]], accepted := a.accepted + [data.value])
    else b == a.(failed := true)
  }

  /** A message fits beside everything that is outstanding. */
  ghost predicate Fits(a: Moment, data: Option<Bytes>, max: nat) {
    && !a.failed && data.Some? && |a.queue| < CAPACITY
    && |Concat(a.queue)| + a.writer.Charged() + |data.value| <= max
  }

  ghost predicate Happens(a: Moment, b: Moment, e: Event, max: nat) {
    if e.Emit? then Enters(a, b, e.data, Fits(a, e.data, max)) else Moves(a, b, e)
  }

  /** What no step takes back. */
  lemma HappensOnly(a: Moment, b: Moment, e: Event, max: nat)
    requires Happens(a, b, e, max)
    ensures a.accepted <= b.accepted && a.peer <= b.peer && (a.failed ==> b.failed && b.accepted == a.accepted)
  {}

  class Channel {
    const max: nat // max_message_bytes
    var failed: bool
    var queue: seq<Bytes>
    var outstanding: int
    var writer: Writer
    var peer: Bytes
    ghost var accepted: seq<Bytes>

    ghost predicate Valid()
      reads this
    {
      && writer.Valid()
      && outstanding == |Concat(queue)| + writer.Charged()
      && outstanding <= max + 1
      && |queue| <= CAPACITY
      && Framed(accepted) == peer + writer.Unsent() + Concat(queue)
    }

    ghost function Now(): (m: Moment)
      reads this
    {
      Moment(failed, queue, writer, peer, accepted)
    }

    constructor (limit: nat)
      ensures Valid() && max == limit && !failed && accepted == [] && peer == []
    {
      max, failed, queue, outstanding, writer, peer, accepted := limit, false, [], 0, Idle, [], [];
    }

    predicate Takes(data: Option<Bytes>)
      reads this
    {
      !failed && data.Some? && outstanding + |data.value| <= max && |queue| < CAPACITY
    }

    lemma TakesWhatFits(data: Option<Bytes>)
      requires Valid()
      ensures Takes(data) <==> Fits(Now(), data, max)
    {}

    /** Accepts a message that fits beside everything outstanding; any refusal fails the
        channel for good and leaves the rest alone. */
    method Accept(data: Option<Bytes>) returns (ok: bool)
      requires Valid()
      modifies this
      ensures Valid()
      ensures ok <==> old(Takes(data))
      ensures Enters(old(Now()), Now(), data, ok) && ok == Fits(old(Now()), data, max)
    {
      hide Concat, Framed;
      if failed || data.None? || |data.value| > max {
        failed := true;
        return false;
      }
      var frame := data.value + [LF];
      if outstanding + |frame| > max + 1 || |queue| >= CAPACITY {
        failed := true;
        return false;
      }
      ConcatPush(queue, frame);
      FramedPush(accepted, data.value);
      queue := queue + [frame];
      outstanding := outstanding + |frame|;
      accepted := accepted + [data.value];
      return true;
    }

    method TakeFrame()
      requires Valid() && writer.Idle? && queue != []
      modifies this`queue, this`writer
      ensures Valid()
      ensures writer == Writing(old(queue)[0], 0) && queue == old(queue)[1..]
    {
      writer := Writing(queue[0], 0);
      queue := queue[1..];
    }

    /** One write call moved some bytes: of the writer, or of the thread it left behind. */
    method DeliverBytes(n: nat)
      requires Valid() && (writer.Writing? || writer.Detached?) && n <= |writer.frame| - writer.sent
      modifies this`writer, this`peer
      ensures Valid()
      ensures peer == old(peer) + old(writer).Unsent()[..n] && writer == old(writer).Advanced(n)
    {
      hide Framed, Concat;
      Advance(peer, writer, n, Concat(queue));
      peer := peer + writer.Unsent()[..n];
      writer := writer.Advanced(n);
    }

    /** The frame is through and flushed. */
    method FinishFrame()
      requires Valid() && writer.Writing? && writer.sent == |writer.frame|
      modifies this`writer, this`outstanding
      ensures Valid() && writer == Idle
    {
      outstanding := outstanding - |writer.frame|;
      writer := Idle;
    }

    /** A write or flush raised: the frame is given up and the channel fails. */
    method BreakWriter()
      requires Valid() && writer.Writing?
      modifies this`writer, this`outstanding, this`failed
      ensures Valid() && failed && writer == Broken(old(writer.frame), old(writer.sent))
    {
      outstanding := outstanding - |writer.frame|;
      writer := Broken(writer.frame, writer.sent);
      failed := true;
    }

    /** Cancellation frees the budget at once, but not a thread blocked in the pipe. */
    method CancelWriter()
      requires Valid() && (writer.Idle? || writer.Writing?)
      modifies this`writer, this`outstanding
      ensures Valid()
      ensures writer == if old(writer).Writing? then Detached(old(writer).frame, old(writer).sent) else Stopped
    {
      if writer.Writing? {
        outstanding := outstanding - |writer.frame|;
        writer := Detached(writer.frame, writer.sent);
      } else {
        writer := Stopped;
      }
    }

    /** One step of the writer or of its pipe. */
    method Progress(e: Event)
      requires Valid() && !e.Emit?
      modifies this
      ensures Valid() && Moves(old(Now()), Now(), e)
    {
      match e
      case Take => if writer.Idle? && queue != [] { TakeFrame(); }
      case Deliver(n) =>
        if (writer.Writing? || writer.Detached?) && n <= |writer.frame| - writer.sent { DeliverBytes(n); }
      case Flush => if writer.Writing? && writer.sent == |writer.frame| { FinishFrame(); }
      case Break => if writer.Writing? { BreakWriter(); }
      case Cancel => if writer.Idle? || writer.Writing? { CancelWriter(); }
    }

    /** Any interleaving of emissions with the writer's progress and failures. */
    method Drive(schedule: seq<Event>) returns (ghost trace: seq<Moment>)
      requires Valid()
      modifies this
      ensures Valid()
      ensures |trace| == |schedule| + 1 && trace[0] == old(Now()) && trace[|schedule|] == Now()
      ensures forall i :: 0 <= i < |schedule| ==> Happens(trace[i], trace[i + 1], schedule[i], max)
      ensures old(failed) ==> failed && accepted == old(accepted)
      ensures old(accepted) <= accepted && old(peer) <= peer <= Framed(accepted)
      ensures outstanding <= max + 1 && |queue| <= 128
    {
      hide Enters, Fits, Moves, Framed, Concat;
      trace := [Now()];
      for i := 0 to |schedule|
        invariant Valid()
        invariant |trace| == i + 1 && trace[0] == old(Now()) && trace[i] == Now()
        invariant forall k :: 0 <= k < i ==> Happens(trace[k], trace[k + 1], schedule[k], max)
        invariant old(failed) ==> failed && accepted == old(accepted)
        invariant old(accepted) <= accepted && old(peer) <= peer
      {
        if schedule[i].Emit? {
          var _ := Accept(schedule[i].data);
        } else {
          Progress(schedule[i]);
        }
        HappensOnly(trace[i], Now(), schedule[i], max);
        trace := trace + [Now()];
      }
    }

    /** Once the writer has caught up, the peer's line reader has exactly the accepted messages. */
    lemma DrainedMeansReceived()
      requires Valid() && writer == Idle && queue == []
      requires forall p :: p in accepted ==> Plain(p)
      ensures Lines(peer, 0) == accepted && outstanding == 0
    {
      SplitInvertsFraming(accepted);
      assert peer + [] + [] == peer;
    }
  }
}
