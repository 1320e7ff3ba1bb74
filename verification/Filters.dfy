/** The two seccomp tables, instruction by instruction, and what they decide. The
    syscall numbers are parameters: the meaning holds for every architecture. */
module Filters {
  import opened Basics
  import opened Bpf

  const KILL: Word := 0x8000_0000
  const ALLOW: Word := 0x7fff_0000
  const NOTIFY: Word := 0x7fc0_0000
  const REFUSE: Word := 0x0005_0001 // SECCOMP_RET_ERRNO | EPERM

  const TCGETS: Word := 0x5401
  const TIOCGWINSZ: Word := 0x5413
  const FIONREAD: Word := 0x541b
  const FIONBIO: Word := 0x5421
  const AF_UNIX: Word := 1
  const SOCK_STREAM: Word := 1
  const SOCK_SEQPACKET: Word := 5
  const SOCK_NONBLOCK: Word := 0x800
  const SOCK_CLOEXEC: Word := 0x8_0000
  const SOCK_KIND: Word := 0xfff7_f7ff // ~(SOCK_CLOEXEC | SOCK_NONBLOCK)
  const O_ACCMODE: Word := 3
  const O_CREAT: Word := 0x40
  const O_TRUNC: Word := 0x200
  const O_APPEND: Word := 0x400
  const O_TMPFILE_ONLY: Word := 0x40_0000 // O_TMPFILE & ~O_DIRECTORY
  const WRITING: Word := 0x0040_0643 // all of these

  /** What one architecture calls the syscalls; two of them need not exist. */
  datatype Numbers = Numbers(arch: Word, ioctl: Word, socketpair: Word, prlimit64: Word, fchmodat: Word,
                             chmod: Option<Word>, openat: Word, open: Option<Word>, allowed: seq<Word>)

  // ---------- the table of the Codex probe ----------

  function ArchGuard(arch: Word): (p: Program) {
    [Load(Arch), JumpEq(arch, 1, 0), Return(KILL), Load(Nr)]
  }

  function IoctlPart(nr: Word): (p: Program) {
    var requests := [TCGETS, FIONREAD, FIONBIO, TIOCGWINSZ];
    Only(nr, [Load(Arg(1))] + (Chain(Allow(requests, ALLOW)) + [Return(NOTIFY), Load(Nr)]))
  }

  function FamilyCheck(): (p: Program) {
    [Load(Arg(0)), JumpEq(AF_UNIX, 1, 0), Return(NOTIFY)]
  }

  function TypeCheck(): (p: Program) {
    [Load(Arg(1)), And(SOCK_KIND)] + KindCheck()
  }

  function KindCheck(): (p: Program) {
    [JumpEq(SOCK_STREAM, 2, 0), JumpEq(SOCK_SEQPACKET, 1, 0), Return(NOTIFY)]
  }

  /** Allow the call when an argument is zero. */
  function ZeroCheck(argument: nat): (p: Program) {
    [Load(Arg(argument)), JumpEq(0, 0, 1), Return(ALLOW), Return(NOTIFY), Load(Nr)]
  }

  function SocketpairPart(nr: Word): (p: Program) {
    Only(nr, FamilyCheck() + (TypeCheck() + ZeroCheck(2)))
  }

  function PrlimitPart(nr: Word): (p: Program) {
    Only(nr, ZeroCheck(0))
  }

  function OpenPart(nr: Word, flags: nat, otherwise: Word): (p: Program) {
    Only(nr, FlagCheck(flags, otherwise)) + [Load(Nr)]
  }

  /** Allow a call that opens for reading only. */
  function FlagCheck(flags: nat, otherwise: Word): (p: Program) {
    [Load(Arg(flags)), And(WRITING), JumpEq(0, 0, 1), Return(ALLOW), Return(otherwise)]
  }

  function ChmodRules(n: Numbers): (rules: seq<Rule>) {
    [Rule(n.fchmodat, NOTIFY)] + (if n.chmod.Some? then [Rule(n.chmod.value, NOTIFY)] else [])
  }

  function OpenParts(n: Numbers): (p: Program) {
    OpenPart(n.openat, 2, NOTIFY) + (if n.open.Some? then OpenPart(n.open.value, 1, REFUSE) else [])
  }

  /** `notification_filter` of the probe. */
  function ProbeFilter(n: Numbers): (p: Program) {
    ArchGuard(n.arch) + (IoctlPart(n.ioctl) + (SocketpairPart(n.socketpair) + (PrlimitPart(n.prlimit64) +
      (Chain(ChmodRules(n)) + (OpenParts(n) + (Chain(Allow(n.allowed, ALLOW)) + [Return(NOTIFY)]))))))
  }

  predicate QueriesTerminal(d: Data) {
    Read(d, Arg(1)) in {TCGETS, FIONREAD, FIONBIO, TIOCGWINSZ}
  }

  predicate LocalPair(d: Data) {
    Read(d, Arg(0)) == AF_UNIX && IsStreamOrPacket(Read(d, Arg(1)) & SOCK_KIND) && Read(d, Arg(2)) == 0
  }

  predicate IsStreamOrPacket(kind: Word) {
    kind == SOCK_STREAM || kind == SOCK_SEQPACKET
  }

  predicate ReadsOnly(d: Data, flags: nat) {
    Read(d, Arg(flags)) & WRITING == 0
  }

  /** What an open for reading only must not ask for, flag by flag. */
  lemma ReadsOnlyMeans(flags: Word)
    ensures flags & WRITING == 0 <==>
              && flags & O_ACCMODE == 0 // O_RDONLY
              && flags & O_CREAT == 0 && flags & O_TRUNC == 0 && flags & O_APPEND == 0
              && flags & O_TMPFILE_ONLY == 0
  {}

  /** A socket kind is the two kinds with or without the two flags, and no other word. */
  lemma KindMeans(kind: Word)
    ensures IsStreamOrPacket(kind & SOCK_KIND) <==>
              exists base, flags :: StreamOrPacketWith(kind, base, flags)
  {
    var base, flags := kind & SOCK_KIND, kind & (SOCK_CLOEXEC | SOCK_NONBLOCK);
    if IsStreamOrPacket(base) {
      KindSplits(kind);
      assert StreamOrPacketWith(kind, base, flags);
    }
    forall base, flags | StreamOrPacketWith(kind, base, flags) ensures IsStreamOrPacket(kind & SOCK_KIND) {
      KindJoins(base, flags);
    }
  }

  ghost predicate StreamOrPacketWith(kind: Word, base: Word, flags: Word) {
    && (base == SOCK_STREAM || base == SOCK_SEQPACKET) && kind == base | flags
    && (flags == 0 || flags == SOCK_CLOEXEC || flags == SOCK_NONBLOCK || flags == SOCK_CLOEXEC | SOCK_NONBLOCK)
  }

  lemma KindSplits(kind: Word)
    ensures kind == (kind & SOCK_KIND) | (kind & (SOCK_CLOEXEC | SOCK_NONBLOCK))
    ensures var f := kind & (SOCK_CLOEXEC | SOCK_NONBLOCK);
            f == 0 || f == SOCK_CLOEXEC || f == SOCK_NONBLOCK || f == SOCK_CLOEXEC | SOCK_NONBLOCK
  {}

  lemma KindJoins(base: Word, flags: Word)
    requires base == SOCK_STREAM || base == SOCK_SEQPACKET
    requires flags == 0 || flags == SOCK_CLOEXEC || flags == SOCK_NONBLOCK || flags == SOCK_CLOEXEC | SOCK_NONBLOCK
    ensures (base | flags) & SOCK_KIND == base
  {}

  /** The same policy as a table of cases. */
  function ProbeDecision(n: Numbers, d: Data): (action: Word) {
    if d.arch != n.arch then KILL
    else if d.nr == n.ioctl then
      if QueriesTerminal(d) then ALLOW else NOTIFY
    else if d.nr == n.socketpair then
      if LocalPair(d) then ALLOW else NOTIFY
    else if d.nr == n.prlimit64 then
      if Read(d, Arg(0)) == 0 then ALLOW else NOTIFY
    else if d.nr == n.fchmodat || Some(d.nr) == n.chmod then NOTIFY
    else if d.nr == n.openat then
      if ReadsOnly(d, 2) then ALLOW else NOTIFY
    else if Some(d.nr) == n.open then
      if ReadsOnly(d, 1) then ALLOW else REFUSE
    else if d.nr in n.allowed then ALLOW
    else NOTIFY
  }

  /** The jump over each block is the hand-counted one. */
  lemma HandCountedJumps(nr: Word, flags: nat, otherwise: Word)
    ensures IoctlPart(nr)[0] == JumpEq(nr, 0, 11) && |IoctlPart(nr)| == 12
    ensures SocketpairPart(nr)[0] == JumpEq(nr, 0, 13) && |SocketpairPart(nr)| == 14
    ensures PrlimitPart(nr)[0] == JumpEq(nr, 0, 5) && |PrlimitPart(nr)| == 6
    ensures OpenPart(nr, flags, otherwise)[0] == JumpEq(nr, 0, 5) && |OpenPart(nr, flags, otherwise)| == 7
  {
    ChainLength(Allow([TCGETS, FIONREAD, FIONBIO, TIOCGWINSZ], ALLOW));
  }

  // ---------- what each part means ----------

  lemma GuardMeaning(arch: Word, acc: Word, d: Data)
    ensures Closed(ArchGuard(arch))
    ensures Run(ArchGuard(arch), 0, acc, d) == if d.arch == arch then Fell(d.nr) else Done(KILL)
  {
    var p := ArchGuard(arch);
    assert Run(p, 2, d.arch, d) == Done(KILL);
    assert Run(p, 4, d.nr, d) == Fell(d.nr);
    assert Run(p, 3, d.arch, d) == Fell(d.nr);
    assert Run(p, 1, d.arch, d) == if d.arch == arch then Fell(d.nr) else Done(KILL);
  }

  lemma IoctlMeaning(nr: Word, d: Data)
    ensures Closed(IoctlPart(nr))
    ensures Run(IoctlPart(nr), 0, d.nr, d) ==
              if d.nr != nr then Fell(d.nr)
              else if QueriesTerminal(d) then Done(ALLOW) else Done(NOTIFY)
  {
    var requests, x := [TCGETS, FIONREAD, FIONBIO, TIOCGWINSZ], Read(d, Arg(1));
    var load, rules, rest := [Load(Arg(1))], Allow(requests, ALLOW), [Return(NOTIFY), Load(Nr)];
    assert x in requests <==> x in {TCGETS, FIONREAD, FIONBIO, TIOCGWINSZ};
    assert Run(load, 0, d.nr, d) == Fell(x);
    assert Run(rest, 0, x, d) == Done(NOTIFY);
    ChainMeaning(rules, x, d);
    AllowIsMembership(requests, ALLOW, x);
    Compose(Chain(rules), rest, x, d);
    Compose(load, Chain(rules) + rest, d.nr, d);
    OnlyMeaning(nr, load + (Chain(rules) + rest), d.nr, d);
  }

  lemma FamilyMeaning(acc: Word, d: Data)
    ensures Closed(FamilyCheck())
    ensures Run(FamilyCheck(), 0, acc, d) == if Read(d, Arg(0)) == AF_UNIX then Fell(AF_UNIX) else Done(NOTIFY)
  {
    var p, x := FamilyCheck(), Read(d, Arg(0));
    assert Run(p, 1, x, d) == if x == AF_UNIX then Fell(x) else Done(NOTIFY);
  }

  lemma KindMeaning(kind: Word, d: Data)
    ensures Closed(KindCheck())
    ensures Run(KindCheck(), 0, kind, d) == if IsStreamOrPacket(kind) then Fell(kind) else Done(NOTIFY)
  {
    assert Run(KindCheck(), 1, kind, d) == if kind == SOCK_SEQPACKET then Fell(kind) else Done(NOTIFY);
  }

  lemma TypeMeaning(acc: Word, d: Data)
    ensures Closed(TypeCheck())
    ensures var kind := Read(d, Arg(1)) & SOCK_KIND;
            Run(TypeCheck(), 0, acc, d) == if IsStreamOrPacket(kind) then Fell(kind) else Done(NOTIFY)
  {
    var mask := [Load(Arg(1)), And(SOCK_KIND)];
    KindMeaning(Read(d, Arg(1)) & SOCK_KIND, d);
    hide IsStreamOrPacket, KindCheck;
    assert Run(mask, 1, Read(d, Arg(1)), d) == Fell(Read(d, Arg(1)) & SOCK_KIND);
    Compose(mask, KindCheck(), acc, d);
  }

  lemma ZeroMeaning(argument: nat, acc: Word, d: Data)
    ensures Closed(ZeroCheck(argument))
    ensures Run(ZeroCheck(argument), 0, acc, d) == if Read(d, Arg(argument)) == 0 then Done(ALLOW) else Done(NOTIFY)
  {
    var p, x := ZeroCheck(argument), Read(d, Arg(argument));
    assert Run(p, 1, x, d) == if x == 0 then Done(ALLOW) else Done(NOTIFY);
  }

  lemma SocketpairMeaning(nr: Word, d: Data)
    ensures Closed(SocketpairPart(nr))
    ensures Run(SocketpairPart(nr), 0, d.nr, d) ==
              if d.nr != nr then Fell(d.nr)
              else if LocalPair(d) then Done(ALLOW) else Done(NOTIFY)
  {
    FamilyMeaning(d.nr, d);
    TypeMeaning(AF_UNIX, d);
    ZeroMeaning(2, Read(d, Arg(1)) & SOCK_KIND, d);
    hide FamilyCheck, TypeCheck, ZeroCheck, Run, Closed, IsStreamOrPacket;
    Compose(TypeCheck(), ZeroCheck(2), AF_UNIX, d);
    Compose(FamilyCheck(), TypeCheck() + ZeroCheck(2), d.nr, d);
    OnlyMeaning(nr, FamilyCheck() + (TypeCheck() + ZeroCheck(2)), d.nr, d);
  }

  lemma PrlimitMeaning(nr: Word, d: Data)
    ensures Closed(PrlimitPart(nr))
    ensures Run(PrlimitPart(nr), 0, d.nr, d) ==
              if d.nr != nr then Fell(d.nr) else if Read(d, Arg(0)) == 0 then Done(ALLOW) else Done(NOTIFY)
  {
    ZeroMeaning(0, d.nr, d);
    OnlyMeaning(nr, ZeroCheck(0), d.nr, d);
  }

  lemma FlagMeaning(flags: nat, otherwise: Word, acc: Word, d: Data)
    ensures Closed(FlagCheck(flags, otherwise))
    ensures Run(FlagCheck(flags, otherwise), 0, acc, d) ==
              if ReadsOnly(d, flags) then Done(ALLOW) else Done(otherwise)
  {
    var p, x := FlagCheck(flags, otherwise), Read(d, Arg(flags)) & WRITING;
    assert Run(p, 2, x, d) == if x == 0 then Done(ALLOW) else Done(otherwise);
    assert Run(p, 1, Read(d, Arg(flags)), d) == Run(p, 2, x, d);
  }

  lemma OpenMeaning(nr: Word, flags: nat, otherwise: Word, d: Data)
    ensures Closed(OpenPart(nr, flags, otherwise))
    ensures Run(OpenPart(nr, flags, otherwise), 0, d.nr, d) ==
              if d.nr != nr then Fell(d.nr)
              else if ReadsOnly(d, flags) then Done(ALLOW) else Done(otherwise)
  {
    FlagMeaning(flags, otherwise, d.nr, d);
    OnlyMeaning(nr, FlagCheck(flags, otherwise), d.nr, d);
    Compose(Only(nr, FlagCheck(flags, otherwise)), [Load(Nr)], d.nr, d);
  }

  lemma ChmodMeaning(n: Numbers, d: Data)
    ensures Closed(Chain(ChmodRules(n)))
    ensures Run(Chain(ChmodRules(n)), 0, d.nr, d) ==
              if d.nr == n.fchmodat || Some(d.nr) == n.chmod then Done(NOTIFY) else Fell(d.nr)
  {
    ChainMeaning(ChmodRules(n), d.nr, d);
    var second := if n.chmod.Some? then [Rule(n.chmod.value, NOTIFY)] else [];
    assert ChmodRules(n)[1..] == second;
    assert FirstMatch(second, d.nr) == if Some(d.nr) == n.chmod then Done(NOTIFY) else Fell(d.nr);
  }

  lemma OpenPartsMeaning(n: Numbers, d: Data)
    ensures Closed(OpenParts(n))
    ensures Run(OpenParts(n), 0, d.nr, d) ==
              if d.nr == n.openat then
                if ReadsOnly(d, 2) then Done(ALLOW) else Done(NOTIFY)
              else if Some(d.nr) == n.open then
                if ReadsOnly(d, 1) then Done(ALLOW) else Done(REFUSE)
              else Fell(d.nr)
  {
    var at := OpenPart(n.openat, 2, NOTIFY);
    OpenMeaning(n.openat, 2, NOTIFY, d);
    if n.open.Some? {
      OpenMeaning(n.open.value, 1, REFUSE, d);
      Compose(at, OpenPart(n.open.value, 1, REFUSE), d.nr, d);
    } else {
      assert at + [] == at;
    }
  }

  lemma AllowedMeaning(allowed: seq<Word>, d: Data)
    ensures var p := Chain(Allow(allowed, ALLOW)) + [Return(NOTIFY)];
            Closed(p) && Run(p, 0, d.nr, d) == if d.nr in allowed then Done(ALLOW) else Done(NOTIFY)
  {
    var chain, rest := Chain(Allow(allowed, ALLOW)), [Return(NOTIFY)];
    ChainMeaning(Allow(allowed, ALLOW), d.nr, d);
    AllowIsMembership(allowed, ALLOW, d.nr);
    assert Closed(rest) && Run(rest, 0, d.nr, d) == Done(NOTIFY);
    Compose(chain, rest, d.nr, d);
  }

  /** The table decides exactly what the cases say, for every call on every architecture. */
  lemma ProbeFilterMeaning(n: Numbers, acc: Word, d: Data)
    ensures Run(ProbeFilter(n), 0, acc, d) == Done(ProbeDecision(n, d))
  {
    hide Run, Closed, ArchGuard, IoctlPart, SocketpairPart, PrlimitPart, ChmodRules, OpenParts, Chain, Allow;
    var last := Chain(Allow(n.allowed, ALLOW)) + [Return(NOTIFY)];
    AllowedMeaning(n.allowed, d);
    OpenPartsMeaning(n, d);
    Compose(OpenParts(n), last, d.nr, d);
    var opens := OpenParts(n) + last;
    ChmodMeaning(n, d);
    Compose(Chain(ChmodRules(n)), opens, d.nr, d);
    var chmods := Chain(ChmodRules(n)) + opens;
    PrlimitMeaning(n.prlimit64, d);
    Compose(PrlimitPart(n.prlimit64), chmods, d.nr, d);
    var limits := PrlimitPart(n.prlimit64) + chmods;
    SocketpairMeaning(n.socketpair, d);
    Compose(SocketpairPart(n.socketpair), limits, d.nr, d);
    var sockets := SocketpairPart(n.socketpair) + limits;
    IoctlMeaning(n.ioctl, d);
    Compose(IoctlPart(n.ioctl), sockets, d.nr, d);
    GuardMeaning(n.arch, acc, d);
    Compose(ArchGuard(n.arch), IoctlPart(n.ioctl) + sockets, acc, d);
  }

  // ---------- the table of the managed runner ----------

  const X32: Word := 0x4000_0000

  /** The second table; `x86` adds the guard against the x32 numbering. */
  function ManagedFilter(arch: Word, x86: bool, acquire: seq<Word>, deny: seq<Word>): (p: Program) {
    ArchGuard(arch) + (X32Guard(x86) +
      (Chain(Allow(acquire, NOTIFY)) + (Chain(Allow(deny, REFUSE)) + [Return(ALLOW)])))
  }

  function X32Guard(x86: bool): (p: Program) {
    if x86 then [JumpSet(X32, 0, 1), Return(KILL)] else []
  }

  function ManagedDecision(arch: Word, x86: bool, acquire: seq<Word>, deny: seq<Word>, d: Data): (action: Word) {
    if d.arch != arch || (x86 && d.nr & X32 != 0) then KILL
    else if d.nr in acquire then NOTIFY
    else if d.nr in deny then REFUSE
    else ALLOW
  }

  lemma X32Meaning(x86: bool, d: Data)
    ensures Closed(X32Guard(x86))
    ensures Run(X32Guard(x86), 0, d.nr, d) == if x86 && d.nr & X32 != 0 then Done(KILL) else Fell(d.nr)
  {}

  /** Opens reach the supervisor, the listed path operations fail, the rest is left to the
      filter below; a foreign architecture or numbering never gets that far. */
  lemma ManagedFilterMeaning(arch: Word, x86: bool, acquire: seq<Word>, deny: seq<Word>, acc: Word, d: Data)
    ensures Run(ManagedFilter(arch, x86, acquire, deny), 0, acc, d) ==
              Done(ManagedDecision(arch, x86, acquire, deny, d))
  {
    var opens, refusals, last := Chain(Allow(acquire, NOTIFY)), Chain(Allow(deny, REFUSE)), [Return(ALLOW)];
    assert Closed(last) && Run(last, 0, d.nr, d) == Done(ALLOW);
    hide Run, Closed, ArchGuard, X32Guard, Chain, Allow;
    ChainMeaning(Allow(deny, REFUSE), d.nr, d);
    AllowIsMembership(deny, REFUSE, d.nr);
    Compose(refusals, last, d.nr, d);
    ChainMeaning(Allow(acquire, NOTIFY), d.nr, d);
    AllowIsMembership(acquire, NOTIFY, d.nr);
    Compose(opens, refusals + last, d.nr, d);
    X32Meaning(x86, d);
    Compose(X32Guard(x86), opens + (refusals + last), d.nr, d);
    GuardMeaning(arch, acc, d);
    Compose(ArchGuard(arch), X32Guard(x86) + (opens + (refusals + last)), acc, d);
  }
}
