/** A classic-BPF interpreter for the instructions the seccomp filters use, and the
    composition of code segments with relative forward jumps. */
module Bpf {
  type Word = bv32

  datatype Field = Nr | Arch | Arg(index: nat)

  datatype Instr =
    | Load(field: Field)                        // BPF_LD | BPF_W | BPF_ABS
    | And(k: Word)                              // BPF_ALU | BPF_AND | BPF_K
    | JumpEq(k: Word, yes: nat, no: nat)        // BPF_JMP | BPF_JEQ | BPF_K
    | JumpSet(k: Word, yes: nat, no: nat)       // BPF_JMP | BPF_JSET | BPF_K
    | Return(action: Word)                      // BPF_RET | BPF_K

  type Program = seq<Instr>

  /** `struct seccomp_data`; of each 64-bit argument the filters read the low word. */
  datatype Data = Data(nr: Word, arch: Word, args: seq<Word>)

  function Read(d: Data, f: Field): (w: Word) {
    match f
    case Nr => d.nr
    case Arch => d.arch
    case Arg(i) => if i < |d.args| then d.args[i] else 0
  }

  /** How running a segment ends: with an action, past its last instruction, or by a
      jump that leaves the program. */
  datatype End = Done(action: Word) | Fell(acc: Word) | Lost

  /** One instruction: halt, or go on `skip` instructions further with a new accumulator. */
  datatype Next = Halt(action: Word) | Go(skip: nat, acc: Word)

  function Step(i: Instr, acc: Word, d: Data): (n: Next) {
    match i
    case Load(f) => Go(0, Read(d, f))
    case And(k) => Go(0, acc & k)
    case JumpEq(k, yes, no) => Go(if acc == k then yes else no, acc)
    case JumpSet(k, yes, no) => Go(if acc & k != 0 then yes else no, acc)
    case Return(a) => Halt(a)
  }

  function Run(p: Program, pc: nat, acc: Word, d: Data): (e: End)
    decreases |p| - pc
  {
    if pc > |p| then Lost
    else if pc == |p| then Fell(acc)
    else match Step(p[pc], acc, d)
      case Halt(a) => Done(a)
      case Go(skip, x) => Run(p, pc + 1 + skip, x, d)
  }

  /** No jump goes past the end of the segment. */
  ghost predicate Closed(p: Program) {
    forall i :: 0 <= i < |p| ==> ClosedAt(p, i)
  }

  ghost predicate ClosedAt(p: Program, i: nat)
    requires i < |p|
  {
    match p[i]
    case JumpEq(_, yes, no) => i + 1 + yes <= |p| && i + 1 + no <= |p|
    case JumpSet(_, yes, no) => i + 1 + yes <= |p| && i + 1 + no <= |p|
    case _ => true
  }

  /** Running two segments in a row: the second sees what the first left. */
  lemma {:induction false} RunConcat(p: Program, q: Program, pc: nat, acc: Word, d: Data)
    requires Closed(p) && pc <= |p|
    ensures Run(p + q, pc, acc, d) == match Run(p, pc, acc, d)
                                      case Done(a) => Done(a)
                                      case Fell(x) => Run(q, 0, x, d)
                                      case Lost => Lost
    ensures Run(p, pc, acc, d) != Lost
    decreases |p| - pc
  {
    if pc == |p| {
      RunOffset(p, q, 0, acc, d);
    } else {
      assert (p + q)[pc] == p[pc] && ClosedAt(p, pc);
      match Step(p[pc], acc, d)
      case Halt(a) =>
      case Go(skip, x) => RunConcat(p, q, pc + 1 + skip, x, d);
    }
  }

  /** Jumps are relative, so code runs the same behind any prefix. */
  lemma {:induction false} RunOffset(p: Program, q: Program, k: nat, acc: Word, d: Data)
    requires k <= |q|
    ensures Run(p + q, |p| + k, acc, d) == Run(q, k, acc, d)
    decreases |q| - k
  {
    if k < |q| {
      assert (p + q)[|p| + k] == q[k];
      match Step(q[k], acc, d)
      case Halt(a) =>
      case Go(skip, x) => if k + 1 + skip <= |q| { RunOffset(p, q, k + 1 + skip, x, d); }
    }
  }

  lemma ClosedConcat(p: Program, q: Program)
    requires Closed(p) && Closed(q)
    ensures Closed(p + q)
  {
    forall i | 0 <= i < |p + q| ensures ClosedAt(p + q, i) {
      if i < |p| { assert ClosedAt(p, i); } else { assert ClosedAt(q, i - |p|); }
    }
  }

  /** What follows a segment that ended in `e`. */
  function Resume(e: End, q: Program, d: Data): (r: End) {
    if e.Fell? then Run(q, 0, e.acc, d) else e
  }

  lemma Compose(p: Program, q: Program, acc: Word, d: Data)
    requires Closed(p) && Closed(q)
    ensures Closed(p + q)
    ensures Run(p + q, 0, acc, d) == Resume(Run(p, 0, acc, d), q, d)
  {
    ClosedConcat(p, q);
    RunConcat(p, q, 0, acc, d);
  }

  /** A block of the tables for one syscall, jumped over for every other. */
  function Only(nr: Word, body: Program): (p: Program) {
    [JumpEq(nr, 0, |body|)] + body
  }

  lemma OnlyMeaning(nr: Word, body: Program, acc: Word, d: Data)
    requires Closed(body)
    ensures Closed(Only(nr, body))
    ensures Run(Only(nr, body), 0, acc, d) == if acc == nr then Run(body, 0, acc, d) else Fell(acc)
  {
    var head := [JumpEq(nr, 0, |body|)];
    assert ClosedAt(head + body, 0);
    forall i | 0 < i < |head + body| ensures ClosedAt(head + body, i) {
      assert ClosedAt(body, i - 1);
    }
    RunOffset(head, body, 0, acc, d);
    RunOffset(head, body, |body|, acc, d);
  }

  // ---------- chains ----------

  datatype Rule = Rule(nr: Word, action: Word)

  /** A macro of the tables: compare the accumulator, return on a match. */
  function Test(r: Rule): (p: Program) {
    [JumpEq(r.nr, 0, 1), Return(r.action)]
  }

  function Chain(rules: seq<Rule>): (p: Program) {
    if rules == [] then [] else Test(rules[0]) + Chain(rules[1..])
  }

  lemma {:induction false} ChainLength(rules: seq<Rule>)
    ensures |Chain(rules)| == 2 * |rules|
  {
    if rules != [] { ChainLength(rules[1..]); }
  }

  /** The action of the first rule for this number. */
  function FirstMatch(rules: seq<Rule>, nr: Word): (e: End) {
    if rules == [] then Fell(nr) else if rules[0].nr == nr then Done(rules[0].action) else FirstMatch(rules[1..], nr)
  }

  lemma {:induction false} ChainMeaning(rules: seq<Rule>, acc: Word, d: Data)
    ensures Closed(Chain(rules)) && Run(Chain(rules), 0, acc, d) == FirstMatch(rules, acc)
  {
    if rules != [] {
      var head, tail := Test(rules[0]), Chain(rules[1..]);
      ChainMeaning(rules[1..], acc, d);
      Compose(head, tail, acc, d);
    }
  }

  function Allow(numbers: seq<Word>, action: Word): (rules: seq<Rule>) {
    seq(|numbers|, i requires 0 <= i < |numbers| => Rule(numbers[i], action))
  }

  /** A chain with one action is membership in its list. */
  lemma {:induction false} AllowIsMembership(numbers: seq<Word>, action: Word, nr: Word)
    ensures FirstMatch(Allow(numbers, action), nr) == if nr in numbers then Done(action) else Fell(nr)
  {
    if numbers != [] {
      AllowIsMembership(numbers[1..], action, nr);
      assert Allow(numbers, action)[1..] == Allow(numbers[1..], action);
      assert numbers == [numbers[0]] + numbers[1..];
    }
  }
}
