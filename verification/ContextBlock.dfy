/** The managed block in an AGENTS file: merging it in, and what merging leaves alone. */
module ContextBlock {
  import opened Basics

  const LT: byte := 60 // '<'
  const LIMIT := 32768

  /** The begin and end markers. */
  datatype Marks = Marks(begin: Bytes, end: Bytes)

  /** What the laws need of the markers: `<` opens each and occurs nowhere else in it, no
      line feed occurs, and neither is a prefix of the other. */
  ghost predicate Sharp(m: Marks) {
    && Pointed(m.begin) && Pointed(m.end)
    && exists k :: 0 <= k < |m.begin| && k < |m.end| && m.begin[k] != m.end[k]
  }

  predicate Pointed(m: Bytes) {
    m != [] && m[0] == LT && forall i :: 0 < i < |m| ==> m[i] != LT && m[i] != LF
  }

  function Ascii(s: string): (b: Bytes)
    requires forall i :: 0 <= i < |s| ==> s[i] as int < 256
    ensures |b| == |s| && forall i :: 0 <= i < |s| ==> b[i] as int == s[i] as int
  {
    seq(|s|, i requires 0 <= i < |s| => s[i] as int as byte)
  }

  const MARKS: Marks :=
    Marks(Ascii("<!-- foldgpt:environment:v1 begin -->"), Ascii("<!-- foldgpt:environment:v1 end -->"))

  lemma MarksAreSharp()
    ensures Sharp(MARKS)
  {
    var begin, end := "<!-- foldgpt:environment:v1 begin -->", "<!-- foldgpt:environment:v1 end -->";
    assert forall i :: 0 < i < |begin| ==> begin[i] != '<' && begin[i] != '\n';
    assert forall i :: 0 < i < |end| ==> end[i] != '<' && end[i] != '\n';
    assert MARKS.begin[28] != MARKS.end[28];
  }

  // ---------- finding markers ----------

  /** `count`: occurrences from `k` on, each searched behind the one before. */
  function Count(s: Bytes, m: Bytes, k: nat): (n: nat)
    requires m != []
    decreases |s| - k
  {
    if k + |m| > |s| then 0
    else if Occurs(s, m, k) then 1 + Count(s, m, k + |m|)
    else Count(s, m, k + 1)
  }

  /** `index`: the first occurrence from `k` on, the length when there is none. */
  function Index(s: Bytes, m: Bytes, k: nat): (p: nat)
    requires m != [] && k <= |s|
    ensures k <= p <= |s| && (p < |s| ==> Occurs(s, m, p))
    decreases |s| - k
  {
    if k + |m| > |s| then |s| else if Occurs(s, m, k) then k else Index(s, m, k + 1)
  }

  ghost predicate Free(s: Bytes, m: Bytes) {
    forall p {:trigger Occurs(s, m, p)} :: !Occurs(s, m, p)
  }

  ghost predicate Unique(s: Bytes, m: Bytes, p: nat) {
    Occurs(s, m, p) && forall q {:trigger Occurs(s, m, q)} :: Occurs(s, m, q) ==> q == p
  }

  lemma OnlyAtStart(s: Bytes, m: Bytes, p: nat)
    requires Pointed(m) && Occurs(s, m, p)
    ensures forall j :: p <= j < p + |m| ==> s[j] != LF && (s[j] == LT <==> j == p)
  {
    forall j | p <= j < p + |m| ensures s[j] != LF && (s[j] == LT <==> j == p) {
      assert s[j] == m[j - p];
    }
  }

  /** A marker starts with `<`, and no other marker starts inside it. */
  lemma NoOverlap(s: Bytes, m: Bytes, n: Bytes, p: nat, q: nat)
    requires Pointed(m) && Pointed(n) && Occurs(s, m, p) && Occurs(s, n, q) && p < q
    ensures p + |m| <= q
  {
    OnlyAtStart(s, n, q);
    OnlyAtStart(s, m, p);
  }

  lemma {:induction false} CountZero(s: Bytes, m: Bytes, k: nat)
    requires m != []
    ensures Count(s, m, k) == 0 <==> forall p {:trigger Occurs(s, m, p)} :: k <= p ==> !Occurs(s, m, p)
    decreases |s| - k
  {
    if k + |m| <= |s| && !Occurs(s, m, k) {
      CountZero(s, m, k + 1);
    }
  }

  lemma {:induction false} CountOne(s: Bytes, m: Bytes, k: nat)
    requires Pointed(m) && k <= |s|
    ensures Count(s, m, k) == 1 <==>
              && Occurs(s, m, Index(s, m, k))
              && forall q {:trigger Occurs(s, m, q)} :: k <= q && Occurs(s, m, q) ==> q == Index(s, m, k)
    decreases |s| - k
  {
    if k + |m| <= |s| {
      if Occurs(s, m, k) {
        CountZero(s, m, k + |m|);
        forall q | k < q && Occurs(s, m, q) ensures k + |m| <= q { NoOverlap(s, m, m, k, q); }
      } else {
        CountOne(s, m, k + 1);
      }
    }
  }

  // ---------- merging ----------

  predicate Ends(s: Bytes, b: byte) {
    s != [] && s[|s| - 1] == b
  }

  /** Whether there is exactly one block to replace, or none, and where it lies: `merge`
      without the block. */
  datatype Place = Ambiguous | Around(head: Bytes, tail: Bytes)

  function Locate(m: Marks, s: Bytes): (p: Place)
    requires m.begin != [] && m.end != []
  {
    var n := Count(s, m.begin, 0);
    if n != Count(s, m.end, 0) || n > 1 then Ambiguous
    else if n == 0 then Around(if s == [] || Ends(s, LF) then s else s + [LF], [])
    else
      var start, end := Index(s, m.begin, 0), Index(s, m.end, 0) + |m.end|;
      if end <= start || end > |s| || (start > 0 && s[start - 1] != LF) || (end < |s| && s[end] != LF) then Ambiguous
      else Around(s[..start], s[if end < |s| then end + 1 else end..])
  }

  function Merge(m: Marks, s: Bytes, block: Bytes): (r: Option<Bytes>)
    requires m.begin != [] && m.end != []
  {
    match Locate(m, s)
    case Ambiguous => None
    case Around(head, tail) => if |head + block + tail| > LIMIT then None else Some(head + block + tail)
  }

  /** A block as rendered: the markers around a body without markers, and a line feed. */
  ghost predicate Rendered(m: Marks, block: Bytes, body: Bytes) {
    block == m.begin + body + m.end + [LF] && Free(body, m.begin) && Free(body, m.end)
  }

  /** What surrounds a block: no markers, and whole lines before it. */
  ghost predicate Surrounds(m: Marks, head: Bytes, tail: Bytes) {
    && Free(head, m.begin) && Free(head, m.end) && Free(tail, m.begin) && Free(tail, m.end)
    && (head == [] || Ends(head, LF))
  }

  lemma OccursPart(s: Bytes, m: Bytes, p: nat, lo: nat, hi: nat)
    requires lo <= p && p + |m| <= hi <= |s|
    ensures Occurs(s, m, p) <==> Occurs(s[lo..hi], m, p - lo)
  {
    var t := s[lo..hi];
    assert forall i {:trigger m[i]} :: 0 <= i < |m| ==> t[p - lo + i] == s[p + i];
  }

  /** What `merge` finds around the block never holds a marker. */
  lemma LocateSurrounds(m: Marks, s: Bytes)
    requires Sharp(m)
    ensures var p := Locate(m, s); p.Around? ==> Surrounds(m, p.head, p.tail)
  {
    CountZero(s, m.begin, 0);
    CountZero(s, m.end, 0);
    CountOne(s, m.begin, 0);
    CountOne(s, m.end, 0);
    EmptyFree(m.begin);
    EmptyFree(m.end);
    hide Count, Occurs;
    if Locate(m, s).Around? && Count(s, m.begin, 0) == 0 {
      LinePreserves(s, m.begin);
      LinePreserves(s, m.end);
    } else if Locate(m, s).Around? {
      OutsideFree(m, s, Index(s, m.begin, 0), Index(s, m.end, 0));
    }
  }

  lemma OutsideFree(m: Marks, s: Bytes, start: nat, stop: nat)
    requires Sharp(m) && Unique(s, m.begin, start) && Unique(s, m.end, stop) && start < stop + |m.end| <= |s|
    ensures Free(s[..start], m.begin) && Free(s[..start], m.end)
    ensures forall rest :: stop + |m.end| <= rest <= |s| ==> Free(s[rest..], m.begin) && Free(s[rest..], m.end)
  {
    PartFree(s, m.begin, start, 0, start);
    PartFree(s, m.end, stop, 0, start);
    forall rest | stop + |m.end| <= rest <= |s| ensures Free(s[rest..], m.begin) && Free(s[rest..], m.end) {
      assert s[rest..] == s[rest..|s|];
      PartFree(s, m.begin, start, rest, |s|);
      PartFree(s, m.end, stop, rest, |s|);
    }
  }

  lemma EmptyFree(m: Bytes)
    requires m != []
    ensures Free([], m)
  {}

  /** Adding a line feed makes no marker. */
  lemma LinePreserves(s: Bytes, m: Bytes)
    requires Pointed(m) && Free(s, m)
    ensures Free(s + [LF], m)
  {
    var t := s + [LF];
    forall p: nat ensures !Occurs(t, m, p) {
      if Occurs(t, m, p) {
        OnlyAtStart(t, m, p);
        assert t[|s|] == LF && t[0..|s|] == s;
        OccursPart(t, m, p, 0, |s|);
      }
    }
  }

  /** A part that the only occurrence does not lie in is free. */
  lemma PartFree(s: Bytes, m: Bytes, p: nat, lo: nat, hi: nat)
    requires m != [] && Unique(s, m, p) && lo <= hi <= |s| && (p < lo || hi < p + |m|)
    ensures Free(s[lo..hi], m)
  {
    forall q: nat ensures !Occurs(s[lo..hi], m, q) {
      if q + |m| <= hi - lo { OccursPart(s, m, lo + q, lo, hi); }
    }
  }

  lemma {:induction false} IndexUnique(s: Bytes, m: Bytes, p: nat, k: nat)
    requires m != [] && Unique(s, m, p) && k <= p
    ensures Index(s, m, k) == p
    decreases p - k
  {
    if k < p { IndexUnique(s, m, p, k + 1); }
  }

  lemma OccursJoin(x: Bytes, y: Bytes, n: Bytes, q: nat)
    ensures q + |n| <= |x| ==> (Occurs(x + y, n, q) <==> Occurs(x, n, q))
    ensures |x| <= q ==> (Occurs(x + y, n, q) <==> Occurs(y, n, q - |x|))
  {
    var t := x + y;
    if q + |n| <= |x| {
      assert forall i {:trigger n[i]} :: 0 <= i < |n| ==> t[q + i] == x[q + i];
    } else if |x| <= q && q + |n| <= |t| {
      assert forall i {:trigger n[i]} :: 0 <= i < |n| ==> t[q + i] == y[q - |x| + i];
    }
  }

  /** No marker straddles a joint before a `<` or after a line feed. */
  lemma NoStraddle(x: Bytes, y: Bytes, n: Bytes, q: nat)
    requires Pointed(n) && Occurs(x + y, n, q) && (Ends(x, LF) || (y != [] && y[0] == LT))
    ensures (q + |n| <= |x| && Occurs(x, n, q)) || (|x| <= q && Occurs(y, n, q - |x|))
  {
    OnlyAtStart(x + y, n, q);
    OccursJoin(x, y, n, q);
    assert Ends(x, LF) ==> (x + y)[|x| - 1] == LF;
    assert y != [] ==> (x + y)[|x|] == y[0];
  }

  /** Behind the start of a marker, the next one starts behind its end. */
  lemma BehindMarker(k: Bytes, y: Bytes, n: Bytes, q: nat)
    requires Pointed(k) && Pointed(n) && Occurs(k + y, n, q) && q > 0
    ensures |k| <= q && Occurs(y, n, q - |k|)
  {
    OccursJoin(k, y, k, 0);
    NoOverlap(k + y, k, n, 0, q);
    OccursJoin(k, y, n, q);
  }

  function Text(m: Marks, head: Bytes, body: Bytes, tail: Bytes): (s: Bytes) {
    head + (m.begin + (body + (m.end + ([LF] + tail))))
  }

  /** In a text with one rendered block, a marker is one of the block's own two. */
  lemma OwnMarkers(m: Marks, head: Bytes, body: Bytes, tail: Bytes, n: Bytes, q: nat)
    requires Sharp(m) && Free(body, n) && Free(head, n) && Free(tail, n)
    requires n == m.begin || n == m.end
    requires Occurs(Text(m, head, body, tail), n, q)
    ensures q == |head| || q == |head| + |m.begin| + |body|
  {
    var t4 := [LF] + tail;
    var t3 := m.end + t4;
    var t2 := body + t3;
    var t1 := m.begin + t2;
    LineFree(n);
    hide Occurs;
    NoStraddle(head, t1, n, q);
    var q1 := q - |head|;
    if q1 > 0 {
      BehindMarker(m.begin, t2, n, q1);
      var q2 := q1 - |m.begin|;
      NoStraddle(body, t3, n, q2);
      var q3 := q2 - |body|;
      if q3 > 0 {
        BehindMarker(m.end, t4, n, q3);
        NoStraddle([LF], tail, n, q3 - |m.end|);
      }
    }
  }

  lemma LineFree(n: Bytes)
    requires Pointed(n)
    ensures Free([LF], n)
  {
    assert n[0] == LT;
  }

  lemma OccursFirst(n: Bytes, y: Bytes)
    ensures Occurs(n + y, n, 0)
  {}

  lemma TextOccurs(m: Marks, head: Bytes, body: Bytes, tail: Bytes)
    ensures Occurs(Text(m, head, body, tail), m.begin, |head|)
    ensures Occurs(Text(m, head, body, tail), m.end, |head| + |m.begin| + |body|)
  {
    hide Occurs;
    var t4 := [LF] + tail;
    var t3 := m.end + t4;
    var t2 := body + t3;
    OccursFirst(m.begin, t2);
    OccursJoin(head, m.begin + t2, m.begin, |head|);
    OccursFirst(m.end, t4);
    OccursJoin(body, t3, m.end, |body|);
    OccursJoin(m.begin, t2, m.end, |m.begin| + |body|);
    OccursJoin(head, m.begin + t2, m.end, |head| + |m.begin| + |body|);
  }

  /** Which of the two it is. */
  lemma BlockMarks(m: Marks, head: Bytes, body: Bytes, tail: Bytes)
    requires Sharp(m) && Free(body, m.begin) && Free(body, m.end) && Surrounds(m, head, tail)
    ensures Unique(Text(m, head, body, tail), m.begin, |head|)
    ensures Unique(Text(m, head, body, tail), m.end, |head| + |m.begin| + |body|)
  {
    hide Occurs, Text;
    var s, c := Text(m, head, body, tail), |head| + |m.begin| + |body|;
    TextOccurs(m, head, body, tail);
    Differ(m, s, |head|);
    Differ(m, s, c);
    forall q: nat | Occurs(s, m.begin, q) ensures q == |head| { OwnMarkers(m, head, body, tail, m.begin, q); }
    forall q: nat | Occurs(s, m.end, q) ensures q == c { OwnMarkers(m, head, body, tail, m.end, q); }
  }

  lemma Differ(m: Marks, s: Bytes, p: nat)
    requires Sharp(m)
    ensures !(Occurs(s, m.begin, p) && Occurs(s, m.end, p))
  {}

  /** Merging finds its own block again. */
  lemma LocateMerged(m: Marks, head: Bytes, block: Bytes, body: Bytes, tail: Bytes)
    requires Sharp(m) && Rendered(m, block, body) && Surrounds(m, head, tail)
    ensures Locate(m, head + block + tail) == Around(head, tail)
    ensures Unique(head + block + tail, m.begin, |head|)
    ensures Unique(head + block + tail, m.end, |head + m.begin + body|)
  {
    hide Text, Count, Index, Occurs, Free;
    var s, c := Text(m, head, body, tail), |head| + |m.begin| + |body|;
    TextShape(m, head, block, body, tail);
    BlockMarks(m, head, body, tail);
    IndexUnique(s, m.begin, |head|, 0);
    IndexUnique(s, m.end, c, 0);
    CountOne(s, m.begin, 0);
    CountOne(s, m.end, 0);
  }

  lemma TextShape(m: Marks, head: Bytes, block: Bytes, body: Bytes, tail: Bytes)
    requires block == m.begin + body + m.end + [LF]
    ensures var s, d := Text(m, head, body, tail), |head| + |m.begin| + |body| + |m.end|;
            && s == head + block + tail && d < |s| && s[d] == LF && s[d + 1..] == tail && s[..|head|] == head
  {
    var s := Text(m, head, body, tail);
    assert s == (head + m.begin + body + m.end) + ([LF] + tail);
  }

  /** The one block of a text: on lines of its own, from `start` to the end marker at `stop`. */
  ghost predicate BlockAt(m: Marks, s: Bytes, start: nat, stop: nat) {
    && Unique(s, m.begin, start) && Unique(s, m.end, stop) && start < stop
    && (start == 0 || s[start - 1] == LF) && (stop + |m.end| == |s| || s[stop + |m.end|] == LF)
  }

  // ---------- the laws ----------

  /** A text without markers is always merged into: the block goes at its end, on a new line. */
  lemma MarkerFreeMerges(m: Marks, s: Bytes, block: Bytes)
    requires Sharp(m) && Free(s, m.begin) && Free(s, m.end)
    ensures var r := (if s == [] || s[|s| - 1] == LF then s else s + [LF]) + block;
            Merge(m, s, block) == if |r| <= LIMIT then Some(r) else None
  {
    CountZero(s, m.begin, 0);
    CountZero(s, m.end, 0);
    hide Count, Occurs;
    var head := if s == [] || Ends(s, LF) then s else s + [LF];
    assert head + block + [] == head + block;
  }

  /** A text with one block is always merged into: the new block takes the old one's lines. */
  lemma BlockIsReplaced(m: Marks, s: Bytes, start: nat, stop: nat, block: Bytes)
    requires Sharp(m) && BlockAt(m, s, start, stop)
    ensures var end := stop + |m.end|;
            var r := s[..start] + block + s[if end < |s| then end + 1 else end..];
            Merge(m, s, block) == if |r| <= LIMIT then Some(r) else None
  {
    IndexUnique(s, m.begin, start, 0);
    IndexUnique(s, m.end, stop, 0);
    CountOne(s, m.begin, 0);
    CountOne(s, m.end, 0);
    hide Count, Index, Free;
  }

  /** And nothing else is merged into. */
  lemma OnlyTheseMerge(m: Marks, s: Bytes, block: Bytes)
    requires Sharp(m) && Merge(m, s, block).Some?
    ensures (Free(s, m.begin) && Free(s, m.end)) || exists start, stop :: BlockAt(m, s, start, stop)
  {
    CountZero(s, m.begin, 0);
    CountZero(s, m.end, 0);
    CountOne(s, m.begin, 0);
    CountOne(s, m.end, 0);
    if Count(s, m.begin, 0) == 1 {
      var start, stop := Index(s, m.begin, 0), Index(s, m.end, 0);
      Ordered(m, s, start, stop);
      assert BlockAt(m, s, start, stop);
    }
  }

  /** After a merge the text holds one block, where the new one was put. */
  lemma OneBlock(m: Marks, s: Bytes, block: Bytes, body: Bytes)
    requires Sharp(m) && Rendered(m, block, body) && Merge(m, s, block).Some?
    ensures var p, r := Locate(m, s), Merge(m, s, block).value;
            && r == p.head + block + p.tail && |r| <= LIMIT
            && Unique(r, m.begin, |p.head|) && Unique(r, m.end, |p.head + m.begin + body|)
  {
    var p := Locate(m, s);
    LocateSurrounds(m, s);
    LocateMerged(m, p.head, block, body, p.tail);
  }

  /** Merging again is merging into the original: the last block wins, whatever it is, and
      fails exactly when it would have failed there. */
  lemma LastBlockWins(m: Marks, s: Bytes, block: Bytes, body: Bytes, next: Bytes)
    requires Sharp(m) && Rendered(m, block, body) && Merge(m, s, block).Some?
    ensures Merge(m, Merge(m, s, block).value, next) == Merge(m, s, next)
    ensures Merge(m, Merge(m, s, block).value, block) == Merge(m, s, block)
  {
    var p := Locate(m, s);
    LocateSurrounds(m, s);
    LocateMerged(m, p.head, block, body, p.tail);
  }

  /** What lies outside the block is the original's, up to one separating line feed: `block`
      runs from its begin marker to its end marker at `at`, and a line feed if there is one. */
  lemma OutsideIsKept(m: Marks, s: Bytes) returns (block: Bytes, at: nat)
    requires Sharp(m) && Locate(m, s).Around?
    ensures var p := Locate(m, s);
            if Free(s, m.begin) then
              p.tail == [] && (if s == [] || Ends(s, LF) then p.head == s else p.head == s + [LF])
            else
              && s == p.head + block + p.tail && Occurs(block, m.begin, 0) && Occurs(block, m.end, at)
              && |block| <= at + |m.end| + 1 && (|block| > at + |m.end| ==> Ends(block, LF))
  {
    CountZero(s, m.begin, 0);
    CountOne(s, m.begin, 0);
    CountOne(s, m.end, 0);
    block, at := [], 0;
    hide Count, Occurs;
    if Count(s, m.begin, 0) == 1 {
      block, at := OldBlock(m, s, Index(s, m.begin, 0), Index(s, m.end, 0));
    }
  }

  lemma OldBlock(m: Marks, s: Bytes, start: nat, stop: nat) returns (block: Bytes, at: nat)
    requires Sharp(m) && Occurs(s, m.begin, start) && Occurs(s, m.end, stop)
    requires start < stop + |m.end| <= |s| && (stop + |m.end| < |s| ==> s[stop + |m.end|] == LF)
    ensures s == s[..start] + block + s[if stop + |m.end| < |s| then stop + |m.end| + 1 else stop + |m.end|..]
    ensures Occurs(block, m.begin, 0) && Occurs(block, m.end, at)
    ensures |block| <= at + |m.end| + 1 && (|block| > at + |m.end| ==> Ends(block, LF))
  {
    hide Occurs;
    Ordered(m, s, start, stop);
    var end := stop + |m.end|;
    var rest := if end < |s| then end + 1 else end;
    block, at := s[start..rest], stop - start;
    OccursPart(s, m.begin, start, start, rest);
    OccursPart(s, m.end, stop, start, rest);
  }

  lemma Ordered(m: Marks, s: Bytes, start: nat, stop: nat)
    requires Sharp(m) && Occurs(s, m.begin, start) && Occurs(s, m.end, stop) && start < stop + |m.end|
    ensures start + |m.begin| <= stop
  {
    Differ(m, s, start);
    if stop < start {
      NoOverlap(s, m.end, m.begin, stop, start);
    } else if start < stop {
      NoOverlap(s, m.begin, m.end, start, stop);
    }
  }

  // ---------- synchronizing a home directory ----------

  predicate Readable(s: Bytes) {
    |s| <= LIMIT && 0 !in s
  }

  /** At most 32 KiB, and no zero byte. */
  ghost predicate Fine(s: Bytes) {
    |s| <= 0x8000 && forall i :: 0 <= i < |s| ==> s[i] != 0
  }

  class Home {
    var override: Option<Bytes> // AGENTS.override.md
    var agents: Option<Bytes> // AGENTS.md
    var manifests: map<string, Bytes>

    ghost predicate Overridden()
      reads this
    {
      override.Some? && exists i :: 0 <= i < |override.value| && !Space(override.value[i])
    }

    ghost function Selected(): (f: Option<Bytes>)
      reads this
    {
      if Overridden() then override else agents
    }

    ghost function Original(): (s: Bytes)
      reads this
    {
      if Selected().Some? then Selected().value else []
    }

    /** What `--check` accepts: merging would change nothing and the manifest is there. */
    ghost predicate InSync(block: Bytes, payload: Bytes, sha: string)
      reads this
    {
      && (override.Some? ==> Fine(override.value)) && (Selected().Some? ==> Fine(Selected().value))
      && Merge(MARKS, Original(), block) == Some(Original())
      && sha in manifests && manifests[sha] == payload && Fine(payload)
    }

    /** What a write needs: every file it reads is readable, the merge succeeds, a manifest
        of that name is the same, and what is written can be read back. */
    ghost predicate CanWrite(block: Bytes, payload: Bytes, sha: string)
      reads this
    {
      var merged := Merge(MARKS, Original(), block);
      && (override.Some? ==> Fine(override.value)) && (Selected().Some? ==> Fine(Selected().value))
      && merged.Some? && Fine(merged.value) && (Selected().Some? || merged.value != [])
      && Fine(payload) && (sha in manifests ==> manifests[sha] == payload)
    }

    /** A check changes nothing and says whether all is in sync. A write succeeds exactly
        when it can; it merges into the selected file, touches no other, and leaves all in
        sync. */
    method Synchronize(block: Bytes, ghost body: Bytes, payload: Bytes, sha: string, check: bool) returns (ok: bool)
      modifies this
      ensures check ==> override == old(override) && agents == old(agents) && manifests == old(manifests)
      ensures check ==> (ok <==> InSync(block, payload, sha))
      ensures !check ==> (ok <==> old(CanWrite(block, payload, sha)))
      ensures if old(Overridden()) then agents == old(agents) else override == old(override)
      ensures ok && !check && Rendered(MARKS, block, body) ==>
                InSync(block, payload, sha) && Selected() == Merge(MARKS, old(Original()), block)
      ensures forall k :: k in old(manifests) ==> k in manifests && manifests[k] == old(manifests)[k]
      ensures forall k :: k in manifests && k !in old(manifests) ==> k == sha && manifests[k] == payload
    {
      hide Merge, Space, Rendered, Sharp, Ascii;
      if override.Some? && !Readable(override.value) {
        return false;
      }
      var top := override.Some? && !Blank(override.value);
      var selected := if top then override else agents;
      if selected.Some? && !Readable(selected.value) {
        return false;
      }
      var original := if selected.Some? then selected.value else [];
      var merged := Merge(MARKS, original, block);
      if merged.None? {
        return false;
      }
      if check {
        return original == merged.value && sha in manifests && manifests[sha] == payload && Readable(payload);
      }
      if sha in manifests {
        if !Readable(manifests[sha]) || manifests[sha] != payload {
          return false;
        }
      } else {
        manifests := manifests[sha := payload];
      }
      if original != merged.value {
        if top { override := merged; } else { agents := merged; }
      }
      ok := (if top then override else agents) == merged && Readable(merged.value) && Readable(payload);
      ghost var rendered := Rendered(MARKS, block, body);
      if rendered {
        MarksAreSharp();
        LastBlockWins(MARKS, original, block, body, block);
        MergedNotBlank(MARKS, original, block, body);
      }
    }
  }

  lemma MergedNotBlank(m: Marks, s: Bytes, block: Bytes, body: Bytes)
    requires Sharp(m) && Rendered(m, block, body) && Merge(m, s, block).Some?
    ensures !Blank(Merge(m, s, block).value) && Merge(m, s, block).value != []
  {
    OneBlock(m, s, block, body);
    var r, p := Merge(m, s, block).value, |Locate(m, s).head|;
    assert r[p + 0] == m.begin[0] == LT;
  }
}
