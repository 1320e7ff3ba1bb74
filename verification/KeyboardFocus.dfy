/** Who owns the on-screen keyboard: focus signals from many pages, one native worker. */
module KeyboardFocus {
  import opened Basics

  type Target = string
  type Context = int
  datatype Source = Source(target: Target, context: Context)
  datatype Reason = Pointer | Focus | Blur | WindowFocus | WindowBlur | Resume | Hidden | Attach
  datatype Intent = Intent(visible: bool, reason: Reason)

  /** The owner and the intents that wait, at one moment. */
  datatype Look = Look(owner: Option<Source>, queue: seq<Intent>)

  /** What a focus signal does; a hide counts from the owner, or from a pointer anywhere. */
  ghost function Signalled(k: Look, source: Source, visible: bool, reason: Reason): (k': Look) {
    if visible then Look(Some(source), k.queue + [Intent(true, reason)])
    else if k.owner == Some(source) || reason == Pointer then Look(None, k.queue + [Intent(false, reason)])
    else k
  }

  /** What the end of a source does. */
  ghost function Dropped(k: Look, mine: bool): (k': Look) {
    if mine then Look(None, k.queue + [Intent(false, Hidden)]) else k
  }

  class Keyboard {
    var owner: Option<Source>
    var queue: seq<Intent>
    var handed: seq<bool> // what the native side has been given
    var busy: bool

    /** The latest intent, waiting or handed over, says whether somebody owns the keyboard. */
    predicate Valid()
      reads this
    {
      if queue != [] then queue[|queue| - 1].visible == owner.Some?
      else if handed != [] then handed[|handed| - 1] == owner.Some?
      else owner.None?
    }

    ghost function Now(): (k: Look)
      reads this
    {
      Look(owner, queue)
    }

    constructor ()
      ensures Valid() && owner == None && queue == [] && handed == [] && !busy
    {
      owner, queue, handed, busy := None, [], [], false;
    }

    /** A focus signal; a hide counts from the owner, or from a pointer anywhere. */
    method Signal(source: Source, visible: bool, reason: Reason)
      requires Valid()
      modifies this`owner, this`queue
      ensures Valid() && Now() == Signalled(old(Now()), source, visible, reason)
    {
      if visible {
        owner := Some(source);
      } else if Some(source) != owner && reason != Pointer {
        return;
      } else {
        owner := None;
      }
      queue := queue + [Intent(visible, reason)];
    }

    method Forget(source: Source)
      requires Valid()
      modifies this`owner, this`queue
      ensures Valid() && Now() == Dropped(old(Now()), old(owner) == Some(source))
    {
      if Some(source) == owner {
        Signal(source, false, Hidden);
      }
    }

    /** The worker drains the backlog and hands over its latest intent. */
    method Take()
      requires Valid() && !busy && queue != []
      modifies this`queue, this`handed, this`busy
      ensures Valid() && busy && queue == []
      ensures handed == old(handed) + [old(queue)[|old(queue)| - 1].visible]
    {
      var intent := queue[0];
      queue := queue[1..];
      while queue != []
        invariant if queue == [] then intent == old(queue)[|old(queue)| - 1]
                  else queue[|queue| - 1] == old(queue)[|old(queue)| - 1]
        decreases |queue|
        modifies this`queue
      {
        intent := queue[0];
        queue := queue[1..];
      }
      handed, busy := handed + [intent.visible], true;
    }

    method Finish()
      requires Valid() && busy
      modifies this`busy
      ensures Valid() && !busy
    {
      busy := false;
    }
  }

  // ---------- pages ----------

  datatype Event =
    | Created(context: Context, usable: bool)
    | Destroyed(context: Context)
    | Cleared
    | Called(context: Context, visible: bool, reason: Reason, sequence: int)
    | Ignored

  ghost predicate Increasing(s: seq<int>) {
    (s != [] ==> s[0] > 0) && forall i, j :: 0 <= i < j < |s| ==> s[i] < s[j]
  }

  /** A page's live contexts and the last signal of each, at one moment. */
  datatype PageLook = PageLook(contexts: set<Context>, sequences: map<Context, int>)

  ghost function Last(p: PageLook, c: Context): (n: int) {
    if c in p.sequences then p.sequences[c] else 0
  }

  ghost predicate OnPage(k: Look, t: Target) {
    k.owner.Some? && k.owner.value.target == t
  }

  /** What an event does to its page and to the keyboard: contexts come and go, and a signal
      counts if it is from a live context and newer than the last one. */
  ghost predicate Handled(t: Target, p: PageLook, k: Look, p': PageLook, k': Look, e: Event) {
    match e
    case Created(c, usable) => k' == k && p' == if usable then p.(contexts := p.contexts + {c}) else p
    case Destroyed(c) =>
      p' == PageLook(p.contexts - {c}, p.sequences - {c}) && k' == Dropped(k, k.owner == Some(Source(t, c)))
    case Cleared => p' == PageLook({}, map[]) && k' == Dropped(k, OnPage(k, t))
    case Ignored => p' == p && k' == k
    case Called(c, visible, reason, sequence) =>
      if c in p.contexts && Last(p, c) < sequence
      then p' == p.(sequences := p.sequences[c := sequence]) && k' == Signalled(k, Source(t, c), visible, reason)
      else p' == p && k' == k
  }

  class Page {
    const target: Target
    const keyboard: Keyboard
    var contexts: set<Context>
    var sequences: map<Context, int>
    ghost var accepted: map<Context, seq<int>> // what each live context got through

    ghost predicate Valid()
      reads this
    {
      && accepted.Keys == contexts && sequences.Keys <= contexts
      && (forall c :: c in accepted ==> Increasing(accepted[c]))
      && (forall c :: c in accepted ==>
            var s := accepted[c];
            if c in sequences then s != [] && sequences[c] == s[|s| - 1] else s == [])
    }

    ghost function Now(): (p: PageLook)
      reads this
    {
      PageLook(contexts, sequences)
    }

    /** An owner on this page is one of its live contexts. */
    predicate Owns()
      reads this, keyboard
    {
      keyboard.owner.Some? && keyboard.owner.value.target == target ==> keyboard.owner.value.context in contexts
    }

    constructor (t: Target, k: Keyboard)
      ensures Valid() && target == t && keyboard == k && Now() == PageLook({}, map[])
    {
      target, keyboard, contexts, sequences, accepted := t, k, {}, map[], map[];
    }

    method Forget(c: Context)
      requires Valid() && Owns() && keyboard.Valid()
      modifies this, keyboard`owner, keyboard`queue
      ensures Valid() && Owns() && keyboard.Valid()
      ensures Handled(target, old(Now()), old(keyboard.Now()), Now(), keyboard.Now(), Destroyed(c))
      ensures accepted == old(accepted) - {c}
    {
      contexts := contexts - {c};
      sequences := sequences - {c};
      accepted := accepted - {c};
      keyboard.Forget(Source(target, c));
    }

    /** The page goes, or all its contexts do. */
    method ForgetAll()
      requires Valid() && Owns() && keyboard.Valid()
      modifies this, keyboard`owner, keyboard`queue
      ensures Valid() && Owns() && keyboard.Valid()
      ensures Handled(target, old(Now()), old(keyboard.Now()), Now(), keyboard.Now(), Cleared)
      ensures var owner := old(keyboard.owner);
              keyboard.owner == if owner.Some? && owner.value.target == target then None else owner
    {
      var live := contexts;
      while live != {}
        invariant contexts == live && Valid() && Owns() && keyboard.Valid()
        invariant keyboard.Now() == old(keyboard.Now()) ||
                  (OnPage(old(keyboard.Now()), target) && keyboard.Now() == Dropped(old(keyboard.Now()), true))
        decreases |live|
      {
        Inhabited(live);
        var c :| c in live;
        Forget(c);
        live := live - {c};
      }
    }

    /** A signal from a live context, newer than the last one it got through. */
    method Receive(c: Context, visible: bool, reason: Reason, sequence: int)
      requires Valid() && Owns() && keyboard.Valid()
      modifies this`sequences, this`accepted, keyboard`owner, keyboard`queue
      ensures Valid() && Owns() && keyboard.Valid()
      ensures Handled(target, old(Now()), old(keyboard.Now()), Now(), keyboard.Now(),
                      Called(c, visible, reason, sequence))
      ensures if c in contexts && Last(old(Now()), c) < sequence
              then accepted == old(accepted)[c := old(accepted)[c] + [sequence]]
              else accepted == old(accepted)
    {
      hide Increasing;
      if c !in contexts {
        return;
      }
      if sequence <= (if c in sequences then sequences[c] else 0) {
        return;
      }
      Record(c, sequence);
      keyboard.Signal(Source(target, c), visible, reason);
    }

    method Record(c: Context, sequence: int)
      requires Valid() && c in contexts && (if c in sequences then sequences[c] else 0) < sequence
      modifies this`sequences, this`accepted
      ensures Valid() && accepted == old(accepted)[c := old(accepted)[c] + [sequence]]
      ensures sequences == old(sequences)[c := sequence]
    {
      IncreasingPush(accepted[c], sequence);
      hide Increasing;
      accepted := accepted[c := accepted[c] + [sequence]];
      sequences := sequences[c := sequence];
    }

    method Handle(e: Event)
      requires Valid() && Owns() && keyboard.Valid()
      modifies this, keyboard`owner, keyboard`queue
      ensures Valid() && Owns() && keyboard.Valid()
      ensures Handled(target, old(Now()), old(keyboard.Now()), Now(), keyboard.Now(), e)
      ensures keyboard.owner == old(keyboard.owner) || keyboard.owner == None
              || (e.Called? && e.visible && keyboard.owner == Some(Source(target, e.context)))
    {
      hide Increasing;
      match e
      case Created(c, usable) =>
        if usable {
          NothingIncreases();
          contexts := contexts + {c};
          accepted := accepted[c := if c in accepted then accepted[c] else []];
        }
      case Destroyed(c) => Forget(c);
      case Cleared => ForgetAll();
      case Ignored =>
      case Called(c, visible, reason, sequence) => Receive(c, visible, reason, sequence);
    }
  }

  lemma Inhabited(s: set<Context>)
    ensures s == {} || exists c :: c in s
  {
    if forall c :: c !in s { assert s == {}; }
  }

  lemma NothingIncreases()
    ensures Increasing([])
  {}

  lemma IncreasingPush(s: seq<int>, x: int)
    requires Increasing(s) && (if s == [] then 0 else s[|s| - 1]) < x
    ensures Increasing(s + [x])
  {}

  // ---------- all pages together ----------

  datatype Move = Join(t: Target) | Deliver(t: Target, e: Event) | Leave(t: Target) | Apply | Applied

  /** All pages, the keyboard and the native side at one moment. */
  datatype Scene = Scene(pages: map<Target, PageLook>, keyboard: Look, handed: seq<bool>, busy: bool)

  /** What one move does; a move that is not possible does nothing. */
  ghost predicate Moves(a: Scene, b: Scene, m: Move) {
    match m
    case Join(t) => b == if t in a.pages then a else a.(pages := a.pages[t := PageLook({}, map[])])
    case Deliver(t, e) =>
      if t in a.pages
      then t in b.pages && Handled(t, a.pages[t], a.keyboard, b.pages[t], b.keyboard, e) &&
           b == a.(pages := a.pages[t := b.pages[t]], keyboard := b.keyboard)
      else b == a
    case Leave(t) =>
      b == if t in a.pages
           then a.(pages := a.pages - {t}, keyboard := Dropped(a.keyboard, OnPage(a.keyboard, t))) else a
    case Apply =>
      var q := a.keyboard.queue;
      b == if !a.busy && q != []
           then a.(keyboard := a.keyboard.(queue := []), handed := a.handed + [q[|q| - 1].visible], busy := true) else a
    case Applied => b == a.(busy := false)
  }

  lemma DeliverMoves(a: Scene, b: Scene, t: Target, e: Event)
    requires t in a.pages && t in b.pages && Handled(t, a.pages[t], a.keyboard, b.pages[t], b.keyboard, e)
    requires b.pages == a.pages[t := b.pages[t]] && b.handed == a.handed && b.busy == a.busy
    ensures Moves(a, b, Deliver(t, e))
  {
    hide Handled;
  }

  lemma JoinMoves(a: Scene, b: Scene, t: Target)
    requires t !in a.pages && b == a.(pages := a.pages[t := PageLook({}, map[])])
    ensures Moves(a, b, Join(t))
  {}

  lemma LeaveMoves(a: Scene, b: Scene, t: Target)
    requires t in a.pages && b.pages == a.pages - {t} && b.handed == a.handed && b.busy == a.busy
    requires b.keyboard == Dropped(a.keyboard, OnPage(a.keyboard, t))
    ensures Moves(a, b, Leave(t))
  {}

  class Bridge {
    const keyboard: Keyboard
    var pages: map<Target, Page>

    /** The keyboard is nobody's, or belongs to a live context of an attached page. */
    ghost predicate Valid()
      reads this, keyboard, pages.Values
    {
      && keyboard.Valid()
      && (forall t :: t in pages ==> pages[t].target == t && pages[t].keyboard == keyboard && pages[t].Valid())
      && (keyboard.owner.Some? ==> keyboard.owner.value.target in pages
                                   && keyboard.owner.value.context in pages[keyboard.owner.value.target].contexts)
    }

    ghost function Now(): (s: Scene)
      reads this, keyboard, pages.Values
    {
      Scene(map t | t in pages :: pages[t].Now(), keyboard.Now(), keyboard.handed, keyboard.busy)
    }

    constructor ()
      ensures Valid() && fresh(keyboard) && pages == map[]
    {
      keyboard := new Keyboard();
      pages := map[];
    }

    /** One event of one page leaves every other page as it was. */
    method DeliverTo(t: Target, e: Event)
      requires Valid() && t in pages
      modifies pages[t], keyboard`owner, keyboard`queue
      ensures Valid() && pages == old(pages)
      ensures Moves(old(Now()), Now(), Deliver(t, e))
    {
      hide Handled, Moves, Page.Valid, Keyboard.Valid;
      ghost var before := Now();
      Apart(t);
      pages[t].Handle(e);
      assert forall u :: u in pages && u != t ==> pages[u].Now() == before.pages[u];
      assert Now().pages == before.pages[t := pages[t].Now()];
      DeliverMoves(before, Now(), t, e);
    }

    lemma Apart(t: Target)
      requires Valid() && t in pages
      ensures pages[t].Owns() && forall u :: u in pages && u != t ==> pages[u] != pages[t]
    {
      hide Increasing;
    }

    method JoinPage(t: Target)
      requires Valid() && t !in pages
      modifies this`pages
      ensures Valid() && t in pages && fresh(pages[t]) && pages == old(pages)[t := pages[t]]
      ensures Moves(old(Now()), Now(), Join(t))
    {
      hide Moves, Page.Valid, Keyboard.Valid;
      ghost var before := Now();
      var p := new Page(t, keyboard);
      pages := pages[t := p];
      assert Now().pages == before.pages[t := PageLook({}, map[])];
      JoinMoves(before, Now(), t);
    }

    /** The cleanup of a page that disconnects. */
    method LeavePage(t: Target)
      requires Valid() && t in pages
      modifies this`pages, pages[t], keyboard`owner, keyboard`queue
      ensures Valid() && pages == old(pages) - {t}
      ensures Moves(old(Now()), Now(), Leave(t))
    {
      hide Moves, Page.Valid, Keyboard.Valid;
      ghost var before := Now();
      Apart(t);
      pages[t].ForgetAll();
      assert forall u :: u in pages && u != t ==> pages[u].Now() == before.pages[u];
      pages := pages - {t};
      assert Now().pages == before.pages - {t};
      LeaveMoves(before, Now(), t);
    }

    /** One move, if it is possible. */
    method Step(m: Move)
      requires Valid()
      modifies this, keyboard, pages.Values
      ensures Valid() && Moves(old(Now()), Now(), m)
      ensures forall t :: t in pages ==> pages[t] in old(pages.Values) || fresh(pages[t])
    {
      hide Handled, Page.Valid;
      match m
      case Join(t) => if t !in pages { JoinPage(t); }
      case Deliver(t, e) => if t in pages { DeliverTo(t, e); }
      case Leave(t) => if t in pages { LeavePage(t); }
      case Apply => if !keyboard.busy && keyboard.queue != [] { keyboard.Take(); }
      case Applied => if keyboard.busy { keyboard.Finish(); }
    }

    /** Any interleaving of pages coming, signalling and going with the worker: at rest after
        anything was accepted, the native side shows whether there is an owner. */
    method Drive(moves: seq<Move>) returns (ghost trace: seq<Scene>)
      requires Valid()
      modifies this, keyboard, pages.Values
      ensures Valid()
      ensures |trace| == |moves| + 1 && trace[0] == old(Now()) && trace[|moves|] == Now()
      ensures forall i :: 0 <= i < |moves| ==> Moves(trace[i], trace[i + 1], moves[i])
      ensures keyboard.queue == [] && keyboard.handed != [] ==>
                (keyboard.handed[|keyboard.handed| - 1] <==> keyboard.owner.Some?)
    {
      hide Moves;
      trace := [Now()];
      for i := 0 to |moves|
        invariant Valid()
        invariant forall t :: t in pages ==> pages[t] in old(pages.Values) || fresh(pages[t])
        invariant |trace| == i + 1 && trace[0] == old(Now()) && trace[i] == Now()
        invariant forall k :: 0 <= k < i ==> Moves(trace[k], trace[k + 1], moves[k])
      {
        Step(moves[i]);
        trace := trace + [Now()];
      }
    }
  }
}
