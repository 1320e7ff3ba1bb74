/** The tree plan a caller sends to the native file helper: nine NUL-terminated
    fields per object, strictly sorted by path. */
module Plans {
  import opened Basics
  import opened Paths

  type Text = Bytes

  const MAX_DATA: nat := 16 * 1024 * 1024
  const MAX_DEPTH: nat := 64
  const MAX_ENTRIES: nat := 100000
  const TWO_63: int := 0x8000_0000_0000_0000
  const TWO_64: nat := 0x1_0000_0000_0000_0000

  datatype Entry = Entry(path: Path, device: nat, inode: nat, mode: nat, size: nat,
                         mtime: int, mns: nat, ctime: int, cns: nat)

  // ---------- mode bits ----------

  function Format(mode: nat): (f: nat) { mode / 4096 % 16 }
  predicate IsDir(mode: nat) { Format(mode) == 4 }
  predicate IsReg(mode: nat) { Format(mode) == 8 }
  function Permissions(mode: nat): (p: nat) { mode % 512 }
  /** Set-user-ID, set-group-ID or sticky: `mode & 07000`. */
  predicate HasSpecialBits(mode: nat) { mode / 512 % 8 != 0 }

  // ---------- decimal fields ----------

  predicate IsDigit(b: byte) { 48 <= b <= 57 }

  ghost predicate AllDigits(t: Text) { forall i :: 0 <= i < |t| ==> IsDigit(t[i]) }

  ghost function Value(t: Text): (n: nat)
    requires AllDigits(t)
  {
    if t == [] then 0 else 10 * Value(t[..|t| - 1]) + (t[|t| - 1] as int - 48)
  }

  ghost function Unsigned(t: Text): (r: Option<nat>) {
    if t != [] && AllDigits(t) && Value(t) < TWO_64 then Some(Value(t)) else None
  }

  ghost function Signed(t: Text): (r: Option<int>) {
    if t != [] && t[0] == 45 then
      if t[1..] != [] && AllDigits(t[1..]) && Value(t[1..]) <= TWO_63 then Some(0 - Value(t[1..]) as int) else None
    else if t != [] && AllDigits(t) && Value(t) < TWO_63 then Some(Value(t)) else None
  }

  /** `decimal`: digits only, and within 64 bits. */
  method Decimal(t: Text) returns (r: Option<nat>)
    ensures r == Unsigned(t)
  {
    var n := DigitsOnly(t);
    if n.None? || t == [] || n.value >= TWO_64 { return None; }
    return n;
  }

  method SignedDecimal(t: Text) returns (r: Option<int>)
    ensures r == Signed(t)
  {
    if t == [] { return None; }
    var negative := t[0] == 45;
    var digits := if negative then t[1..] else t;
    if digits == [] { return None; }
    var n := DigitsOnly(digits);
    if n.None? || (if negative then n.value > TWO_63 else n.value >= TWO_63) { return None; }
    return Some(if negative then -n.value else n.value);
  }

  method DigitsOnly(t: Text) returns (r: Option<nat>)
    ensures r == if AllDigits(t) then Some(Value(t)) else None
  {
    var n := 0;
    for i := 0 to |t|
      invariant AllDigits(t[..i]) && n == Value(t[..i])
    {
      if !IsDigit(t[i]) { return None; }
      assert t[..i + 1][..i] == t[..i];
      n := 10 * n + (t[i] as int - 48);
    }
    assert t[..|t|] == t;
    return Some(n);
  }

  // ---------- fields and records ----------

  /** Index of the first NUL at or after `k`, or the length (`memchr`). */
  function NulFrom(data: Text, k: nat): (z: nat)
    requires k <= |data|
    ensures k <= z <= |data| && (forall i :: k <= i < z ==> data[i] != 0) && (z < |data| ==> data[z] == 0)
    decreases |data| - k
  {
    if k == |data| || data[k] == 0 then k else NulFrom(data, k + 1)
  }

  /** The NUL-terminated fields of a buffer from position `k` on; none when the last
      one is unterminated. */
  function Split(data: Text, k: nat): (r: Option<seq<Text>>)
    requires k <= |data|
    decreases |data| - k
  {
    if k == |data| then Some([]) else
    var z := NulFrom(data, k);
    if z == |data| then None else Prepend([data[k..z]], Split(data, z + 1))
  }

  function Prepend(fs: seq<Text>, r: Option<seq<Text>>): (o: Option<seq<Text>>) {
    if r.None? then None else Some(fs + r.value)
  }

  function Join(fs: seq<Text>): (data: Text) {
    if fs == [] then [] else fs[0] + [0] + Join(fs[1..])
  }

  /** One record: what each field must say for the entry to be accepted. */
  ghost predicate Record(f: seq<Text>, e: Entry)
    requires |f| == 9
  {
    && f[0] == e.path && PathOk(e.path)
    && Unsigned(f[1]) == Some(e.device) && Unsigned(f[2]) == Some(e.inode)
    && Unsigned(f[3]) == Some(e.mode) && Unsigned(f[4]) == Some(e.size)
    && Signed(f[5]) == Some(e.mtime) && Unsigned(f[6]) == Some(e.mns)
    && Signed(f[7]) == Some(e.ctime) && Unsigned(f[8]) == Some(e.cns)
    && RangesOk(e)
  }

  ghost predicate PathOk(p: Path) { ValidRelative(p) || p == ROOT }

  ghost predicate RangesOk(e: Entry) {
    && e.mode < 0x1_0000_0000 && e.mns < 1_000_000_000 && e.cns < 1_000_000_000
    && (IsDir(e.mode) || IsReg(e.mode))
  }

  lemma RecordUnique(f: seq<Text>, e: Entry, e': Entry)
    requires |f| == 9 && Record(f, e) && Record(f, e')
    ensures e == e'
  {}

  /** `plan` lists exactly the records of the fields, nine at a time. */
  ghost predicate Records(fs: seq<Text>, plan: seq<Entry>) {
    |fs| == 9 * |plan| && forall i :: 0 <= i < |plan| ==> Record(fs[9 * i..9 * i + 9], plan[i])
  }

  ghost predicate Sorted(plan: seq<Entry>) {
    forall i, j {:trigger Less(plan[i].path, plan[j].path)} :: 0 <= i < j < |plan| ==> Less(plan[i].path, plan[j].path)
  }

  ghost function PathsOf(plan: seq<Entry>): (s: set<Path>) {
    set i | 0 <= i < |plan| :: plan[i].path
  }

  ghost predicate EntriesOk(plan: seq<Entry>) {
    forall i {:trigger RangesOk(plan[i])} :: 0 <= i < |plan| ==> PathOk(plan[i].path) && RangesOk(plan[i])
  }

  /** A plan the helper is willing to compare with the workspace. */
  ghost predicate PlanOk(plan: seq<Entry>) {
    Sorted(plan) && EntriesOk(plan) && ROOT in PathsOf(plan) && |plan| <= MAX_ENTRIES + 1
  }

  /** `data` is the wire form of `plan`. */
  ghost predicate Encodes(data: Text, plan: seq<Entry>) {
    Split(data, 0).Some? && Records(Split(data, 0).value, plan)
  }

  // ---------- binary search ----------

  /** `find_node`: binary search on a sorted plan finds exactly what a linear
      search finds. */
  method FindNode(plan: seq<Entry>, path: Path) returns (r: Option<nat>)
    requires Sorted(plan)
    ensures r.Some? <==> path in PathsOf(plan)
    ensures r.Some? ==> r.value < |plan| && plan[r.value].path == path
  {
    var lo, hi := 0, |plan|;
    while lo < hi
      invariant 0 <= lo <= hi <= |plan|
      invariant forall i :: 0 <= i < lo ==> Less(plan[i].path, path)
      invariant forall i :: hi <= i < |plan| ==> Less(path, plan[i].path)
    {
      var mid := lo + (hi - lo) / 2;
      LessTotal(path, plan[mid].path);
      if path == plan[mid].path { return Some(mid); }
      if Less(path, plan[mid].path) {
        forall i | mid < i < |plan| ensures Less(path, plan[i].path) {
          LessTransitive(path, plan[mid].path, plan[i].path);
        }
        hi := mid;
      } else {
        forall i | 0 <= i < mid ensures Less(plan[i].path, path) {
          LessTransitive(plan[i].path, plan[mid].path, path);
        }
        lo := mid + 1;
      }
    }
    LessIrreflexive(path);
    return None;
  }

  // ---------- reading a plan ----------

  /** `read_plan`: succeeds exactly on the wire form of an acceptable plan of the
      announced length, and returns that plan. */
  method ReadPlan(lengthText: Text, input: Text) returns (r: Option<seq<Entry>>)
    ensures r.Some? ==> PlanOk(r.value) && Encodes(input, r.value)
                        && Unsigned(lengthText) == Some(|input|) && 0 < |input| <= MAX_DATA
    ensures r.None? ==> !(Unsigned(lengthText) == Some(|input|) && 0 < |input| <= MAX_DATA)
                        || forall plan :: Encodes(input, plan) ==> !PlanOk(plan)
  {
    var length := Decimal(lengthText);
    if length.None? || length.value == 0 || length.value > MAX_DATA { return None; }
    // Short input, and any byte after the announced length, are both refused.
    if |input| != length.value { return None; }
    var plan: seq<Entry> := [];
    var cursor := 0;
    ghost var fields: seq<Text> := [];
    PrependNone(Split(input, 0));
    while cursor < |input|
      invariant cursor <= |input|
      invariant SplitAt(input, fields, cursor)
      invariant Records(fields, plan) && Sorted(plan) && EntriesOk(plan) && |plan| <= MAX_ENTRIES + 1
    {
      if |plan| == MAX_ENTRIES + 1 {
        SplitRest(input, fields, cursor);
        return None;
      }
      var parts, next := NineFields(input, cursor);
      if |parts| < 9 {
        RefusedShort(input, fields, cursor, parts, next, plan);
        return None;
      }
      var entry := ParseRecord(parts);
      if entry.None? || (plan != [] && !Less(plan[|plan| - 1].path, entry.value.path)) {
        RefusedRecord(input, fields, cursor, parts, next, plan);
        return None;
      }
      RecordsAppend(fields, parts, plan, entry.value);
      SortedAppend(plan, entry.value);
      SplitAtAppend(input, fields, cursor, parts, next);
      fields := fields + parts;
      plan := plan + [entry.value];
      cursor := next;
    }
    SplitAtEnd(input, fields);
    var root := FindNode(plan, ROOT);
    if root.None? {
      forall other | Encodes(input, other) ensures other == plan { RecordsUnique(fields, plan, other); }
      return None;
    }
    return Some(plan);
  }

  /** The fields before `cursor` are `fields`, whatever follows. */
  ghost predicate SplitAt(input: Text, fields: seq<Text>, cursor: nat)
    requires cursor <= |input|
  {
    Split(input, 0) == Prepend(fields, Split(input, cursor))
  }

  /** Nine calls of `field`; fewer parts when one of them found no terminator. */
  method NineFields(input: Text, start: nat) returns (parts: seq<Text>, next: nat)
    requires start <= |input|
    ensures start <= next <= |input| && |parts| <= 9
    ensures Split(input, start) == Prepend(parts, Split(input, next))
    ensures |parts| == 9 ==> next > start
    ensures |parts| < 9 ==> next == |input| || Split(input, next).None?
  {
    parts, next := [], start;
    PrependNone(Split(input, start));
    for i := 0 to 9
      invariant start <= next <= |input| && |parts| == i && (i > 0 ==> next > start)
      invariant Split(input, start) == Prepend(parts, Split(input, next))
    {
      var value, after := Field(input, next);
      if value.None? { return; }
      PrependOne(parts, value.value, Split(input, after));
      parts, next := parts + [value.value], after;
    }
  }

  /** `field`: the bytes up to the next NUL, and the position after it. */
  method Field(input: Text, cursor: nat) returns (r: Option<Text>, next: nat)
    requires cursor <= |input|
    ensures r.Some? ==> cursor < next <= |input| && Split(input, cursor) == Prepend([r.value], Split(input, next))
    ensures r.None? ==> next == cursor && (cursor == |input| || Split(input, cursor).None?)
  {
    if cursor >= |input| { return None, cursor; }
    var zero := NulFrom(input, cursor);
    if zero == |input| { return None, cursor; }
    return Some(input[cursor..zero]), zero + 1;
  }

  lemma PrependNone(r: Option<seq<Text>>)
    ensures Prepend([], r) == r
  {
    if r.Some? { assert [] + r.value == r.value; }
  }

  lemma PrependOne(parts: seq<Text>, t: Text, r: Option<seq<Text>>)
    ensures Prepend(parts, Prepend([t], r)) == Prepend(parts + [t], r)
  {
    if r.Some? { assert parts + ([t] + r.value) == parts + [t] + r.value; }
  }

  method ParseRecord(f: seq<Text>) returns (r: Option<Entry>)
    requires |f| == 9
    ensures r.Some? ==> Record(f, r.value)
    ensures r.None? ==> forall e :: !Record(f, e)
  {
    var pathOk := CheckRelative(f[0]);
    if !pathOk && f[0] != ROOT { return None; }
    var device := Decimal(f[1]);
    var inode := Decimal(f[2]);
    var mode := Decimal(f[3]);
    var size := Decimal(f[4]);
    var mtime := SignedDecimal(f[5]);
    var mns := Decimal(f[6]);
    var ctime := SignedDecimal(f[7]);
    var cns := Decimal(f[8]);
    if device.None? || inode.None? || mode.None? || size.None? || mtime.None? || mns.None? || ctime.None? || cns.None? {
      return None;
    }
    var e := Entry(f[0], device.value, inode.value, mode.value, size.value,
                   mtime.value, mns.value, ctime.value, cns.value);
    if e.mode > 0xffff_ffff || e.mns >= 1_000_000_000 || e.cns >= 1_000_000_000 { return None; }
    if !IsDir(e.mode) && !IsReg(e.mode) { return None; }
    return Some(e);
  }

  /** `valid_relative`: a scan over the slashes. */
  method CheckRelative(path: Path) returns (ok: bool)
    ensures ok <==> ValidRelative(path)
  {
    if path == [] || path[0] == SLASH || |path| >= PATH_MAX {
      if Canonical(path) { CanonicalNonempty(path); }
      return false;
    }
    var p := 0;
    while true
      invariant p <= |path| && (Canonical(path) <==> CanonicalFrom(path, p))
      decreases |path| - p
    {
      var end := SlashFrom(path, p);
      CanonicalSplit(path, p);
      if !GoodName(path[p..end]) { return false; }
      if end == |path| { return true; }
      p := end + 1;
    }
  }

  // ---------- why a refusal is right ----------

  lemma SplitRest(input: Text, fields: seq<Text>, cursor: nat)
    requires cursor < |input| && SplitAt(input, fields, cursor)
    ensures Split(input, 0).Some? ==> |Split(input, 0).value| > |fields|
  {}

  lemma SplitAtEnd(input: Text, fields: seq<Text>)
    requires SplitAt(input, fields, |input|)
    ensures Split(input, 0) == Some(fields)
  {
    assert fields + [] == fields;
  }

  lemma SplitAtAppend(input: Text, fields: seq<Text>, cursor: nat, parts: seq<Text>, next: nat)
    requires cursor <= next <= |input| && SplitAt(input, fields, cursor)
    requires Split(input, cursor) == Prepend(parts, Split(input, next))
    ensures SplitAt(input, fields + parts, next)
  {
    if Split(input, next).Some? {
      var rest := Split(input, next).value;
      assert fields + (parts + rest) == fields + parts + rest;
    }
  }

  lemma RecordsAppend(fields: seq<Text>, parts: seq<Text>, plan: seq<Entry>, e: Entry)
    requires Records(fields, plan) && |parts| == 9 && Record(parts, e)
    ensures Records(fields + parts, plan + [e])
  {
    var fs, es := fields + parts, plan + [e];
    forall i | 0 <= i < |es| ensures Record(fs[9 * i..9 * i + 9], es[i]) {
      if i < |plan| { assert fs[9 * i..9 * i + 9] == fields[9 * i..9 * i + 9]; }
      else { assert fs[9 * i..9 * i + 9] == parts; }
    }
  }

  lemma SortedAppend(plan: seq<Entry>, e: Entry)
    requires Sorted(plan) && (plan == [] || Less(plan[|plan| - 1].path, e.path))
    ensures Sorted(plan + [e])
  {
    forall i | 0 <= i < |plan| ensures Less(plan[i].path, e.path) {
      if i < |plan| - 1 { LessTransitive(plan[i].path, plan[|plan| - 1].path, e.path); }
    }
  }

  lemma {:induction false} RecordsUnique(fields: seq<Text>, plan: seq<Entry>, other: seq<Entry>)
    requires Records(fields, plan) && Records(fields, other)
    ensures plan == other
  {
    forall i | 0 <= i < |plan| ensures plan[i] == other[i] {
      RecordUnique(fields[9 * i..9 * i + 9], plan[i], other[i]);
    }
  }

  lemma RefusedShort(input: Text, fields: seq<Text>, cursor: nat, parts: seq<Text>, next: nat, plan: seq<Entry>)
    requires cursor < |input| && cursor <= next <= |input| && SplitAt(input, fields, cursor) && |parts| < 9
    requires Records(fields, plan)
    requires Split(input, cursor) == Prepend(parts, Split(input, next))
    requires next == |input| || Split(input, next).None?
    ensures forall other :: !Encodes(input, other)
  {
    SplitAtAppend(input, fields, cursor, parts, next);
    SplitRest(input, fields, cursor);
    if next == |input| { SplitAtEnd(input, fields + parts); }
    forall other ensures !Encodes(input, other) {
      if Split(input, 0).Some? { NotNine(Split(input, 0).value, other); }
    }
  }

  lemma NotNine(fs: seq<Text>, other: seq<Entry>)
    requires |fs| % 9 != 0
    ensures !Records(fs, other)
  {}

  lemma RefusedOrder(fields: seq<Text>, parts: seq<Text>, rest: seq<Text>, plan: seq<Entry>, other: seq<Entry>)
    requires Records(fields, plan) && |parts| == 9 && Records(fields + parts + rest, other)
    requires forall e :: Record(parts, e) ==> plan != [] && !Less(plan[|plan| - 1].path, e.path)
    ensures !Sorted(other)
  {
    var fs, n := fields + parts + rest, |plan|;
    assert n < |other|;
    assert fs[9 * n..9 * n + 9] == parts;
    assert Record(parts, other[n]);
    var m := n - 1;
    assert fs[9 * m..9 * m + 9] == fields[9 * m..9 * m + 9];
    RecordUnique(fields[9 * m..9 * m + 9], plan[m], other[m]);
    assert !Less(plan[m].path, other[n].path);
  }

  lemma RefusedRecord(input: Text, fields: seq<Text>, cursor: nat, parts: seq<Text>, next: nat, plan: seq<Entry>)
    requires cursor <= next <= |input| && SplitAt(input, fields, cursor) && |parts| == 9
    requires Records(fields, plan)
    requires Split(input, cursor) == Prepend(parts, Split(input, next))
    requires forall e :: Record(parts, e) ==> plan != [] && !Less(plan[|plan| - 1].path, e.path)
    ensures forall other :: Encodes(input, other) ==> !PlanOk(other)
  {
    SplitAtAppend(input, fields, cursor, parts, next);
    forall other | Encodes(input, other) ensures !Sorted(other) {
      RefusedOrder(fields, parts, Split(input, next).value, plan, other);
    }
  }

  // ---------- the wire form of a plan is read back unchanged ----------

  ghost function Digits(n: nat): (t: Text) {
    if n < 10 then [(48 + n) as byte] else Digits(n / 10) + [(48 + n % 10) as byte]
  }

  ghost function SignedDigits(n: int): (t: Text) {
    if n < 0 then [45] + Digits(-n) else Digits(n)
  }

  ghost function RecordText(e: Entry): (f: seq<Text>)
    ensures |f| == 9
  {
    [e.path, Digits(e.device), Digits(e.inode), Digits(e.mode), Digits(e.size),
     SignedDigits(e.mtime), Digits(e.mns), SignedDigits(e.ctime), Digits(e.cns)]
  }

  ghost function PlanFields(plan: seq<Entry>): (fs: seq<Text>) {
    if plan == [] then [] else RecordText(plan[0]) + PlanFields(plan[1..])
  }

  ghost function EncodePlan(plan: seq<Entry>): (data: Text) {
    Join(PlanFields(plan))
  }

  /** Every number the source's C types can hold. */
  ghost predicate Representable(e: Entry) {
    && e.device < TWO_64 && e.inode < TWO_64 && e.size < TWO_64
    && -TWO_63 <= e.mtime < TWO_63 && -TWO_63 <= e.ctime < TWO_63
  }

  ghost predicate NulFree(t: Text) { forall i :: 0 <= i < |t| ==> t[i] != 0 }

  lemma {:induction false} DigitsValue(n: nat)
    ensures Digits(n) != [] && AllDigits(Digits(n)) && Value(Digits(n)) == n && NulFree(Digits(n))
  {
    if n >= 10 {
      DigitsValue(n / 10);
      var t := Digits(n);
      assert t[..|t| - 1] == Digits(n / 10);
    }
  }

  lemma SignedDigitsValue(n: int)
    requires -TWO_63 <= n < TWO_63
    ensures Signed(SignedDigits(n)) == Some(n) && NulFree(SignedDigits(n))
  {
    DigitsValue(if n < 0 then -n else n);
    if n < 0 { assert SignedDigits(n)[1..] == Digits(-n); }
  }

  lemma RecordOfText(e: Entry)
    requires PathOk(e.path) && RangesOk(e) && Representable(e)
    ensures Record(RecordText(e), e)
    ensures NulFree(e.path) ==> forall i :: 0 <= i < 9 ==> NulFree(RecordText(e)[i])
  {
    DigitsValue(e.device); DigitsValue(e.inode); DigitsValue(e.mode); DigitsValue(e.size);
    DigitsValue(e.mns); DigitsValue(e.cns);
    SignedDigitsValue(e.mtime); SignedDigitsValue(e.ctime);
  }

  lemma FirstField(pre: Text, f: Text, rest: Text)
    requires NulFree(f)
    ensures var data := pre + f + [0] + rest;
            NulFrom(data, |pre|) == |pre| + |f| < |data| && data[|pre|..|pre| + |f|] == f
  {
    var data, z := pre + f + [0] + rest, |pre| + |f|;
    assert data[z] == 0 && forall i :: |pre| <= i < z ==> data[i] == f[i - |pre|];
  }

  lemma SplitStep(pre: Text, f: Text, rest: Text)
    requires NulFree(f)
    ensures Split(pre + (f + [0] + rest), |pre|) == Prepend([f], Split(pre + f + [0] + rest, |pre + f + [0]|))
  {
    JoinAssoc(pre, f, rest);
    FirstField(pre, f, rest);
    SplitOnce(pre + f + [0] + rest, |pre|, |pre| + |f|);
  }

  lemma {:induction false} SplitOfJoin(pre: Text, fs: seq<Text>)
    requires forall i :: 0 <= i < |fs| ==> NulFree(fs[i])
    ensures Split(pre + Join(fs), |pre|) == Some(fs)
    decreases |fs|
  {
    if fs == [] {
      assert |pre + Join(fs)| == |pre|;
    } else {
      hide Split, NulFree;
      SplitStep(pre, fs[0], Join(fs[1..]));
      SplitOfJoin(pre + fs[0] + [0], fs[1..]);
      assert [fs[0]] + fs[1..] == fs;
    }
  }

  lemma SplitOnce(data: Text, k: nat, z: nat)
    requires k <= z < |data| && NulFrom(data, k) == z
    ensures Split(data, k) == Prepend([data[k..z]], Split(data, z + 1))
  {}

  lemma JoinAssoc(pre: Text, f: Text, rest: Text)
    ensures pre + (f + [0] + rest) == pre + f + [0] + rest
  {}

  lemma RecordsPrepend(f: seq<Text>, rest: seq<Text>, e: Entry, plan: seq<Entry>)
    requires |f| == 9 && Record(f, e) && Records(rest, plan)
    ensures Records(f + rest, [e] + plan)
  {
    var fs, es := f + rest, [e] + plan;
    forall i | 0 <= i < |es| ensures Record(fs[9 * i..9 * i + 9], es[i]) {
      if i == 0 {
        assert fs[0..9] == f;
      } else {
        var m := i - 1;
        assert es[i] == plan[m] && fs[9 * m + 9..9 * m + 18] == rest[9 * m..9 * m + 9];
      }
    }
  }

  lemma {:induction false} RecordsOfPlan(plan: seq<Entry>)
    requires EntriesOk(plan) && forall i :: 0 <= i < |plan| ==> Representable(plan[i]) && NulFree(plan[i].path)
    ensures Records(PlanFields(plan), plan)
    ensures forall i :: 0 <= i < |PlanFields(plan)| ==> NulFree(PlanFields(plan)[i])
  {
    if plan != [] {
      var rest := plan[1..];
      assert RangesOk(plan[0]);
      forall i | 0 <= i < |rest| ensures PathOk(rest[i].path) && RangesOk(rest[i]) {
        assert rest[i] == plan[i + 1] && RangesOk(plan[i + 1]);
      }
      RecordsOfPlan(rest);
      RecordOfText(plan[0]);
      RecordsPrepend(RecordText(plan[0]), PlanFields(plan[1..]), plan[0], plan[1..]);
      assert [plan[0]] + plan[1..] == plan;
    }
  }

  /** Round trip: the wire form of every acceptable plan encodes that plan and no other. */
  lemma PlanRoundTrip(plan: seq<Entry>, other: seq<Entry>)
    requires EntriesOk(plan) && forall i :: 0 <= i < |plan| ==> Representable(plan[i]) && NulFree(plan[i].path)
    ensures Encodes(EncodePlan(plan), other) <==> other == plan
  {
    RecordsOfPlan(plan);
    SplitOfJoin([], PlanFields(plan));
    assert [] + Join(PlanFields(plan)) == EncodePlan(plan);
    if Encodes(EncodePlan(plan), other) { RecordsUnique(PlanFields(plan), plan, other); }
  }
}
