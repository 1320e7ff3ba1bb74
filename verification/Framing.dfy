/** The line reader of the stdio transport: bounded reads that agree with a plain split. */
module Framing {
  import opened Basics

  // ---------- the reference: split on LF ----------

  /** Where the line starting at `k` ends: at its LF, or at the end of the stream. */
  function LineEnd(s: Bytes, k: nat): (e: nat)
    requires k <= |s|
    ensures k <= e <= |s|
    ensures forall i :: k <= i < e ==> s[i] != LF
    ensures e < |s| ==> s[e] == LF
    decreases |s| - k
  {
    if k == |s| || s[k] == LF then k else LineEnd(s, k + 1)
  }

  /** Where the next line starts. */
  function NextLine(s: Bytes, k: nat): (n: nat)
    requires k <= |s|
    ensures k <= n <= |s| && (k < |s| ==> k < n)
  {
    var e := LineEnd(s, k);
    if e < |s| then e + 1 else e
  }

  /** The line without its LF, and without one CR before that LF. */
  function Payload(s: Bytes, k: nat): (p: Bytes)
    requires k <= |s|
  {
    var e := LineEnd(s, k);
    if e < |s| && k < e && s[e - 1] == CR then s[k..e - 1] else s[k..e]
  }

  function Lines(s: Bytes, k: nat): (lines: seq<Bytes>)
    requires k <= |s|
    decreases |s| - k
  {
    if k == |s| then [] else [Payload(s, k)] + Lines(s, NextLine(s, k))
  }

  // ---------- the reader ----------

  datatype Frame = Eof | Line(payload: Bytes) | TooLong

  class Stream {
    const data: Bytes
    var pos: nat

    predicate Valid()
      reads this
    {
      pos <= |data|
    }

    constructor (s: Bytes)
      ensures data == s && pos == 0
    {
      data, pos := s, 0;
    }

    /** `readline(n)`: through the next LF, but at most `n` bytes. */
    method ReadLine(n: nat) returns (line: Bytes)
      requires Valid()
      modifies this
      ensures Valid()
      ensures var stop := NextLine(data, old(pos));
              pos == if stop <= old(pos) + n then stop else old(pos) + n
      ensures line == data[old(pos)..pos]
    {
      var k := pos;
      while pos < |data| && pos < k + n && (pos == k || data[pos - 1] != LF)
        invariant k <= pos <= |data| && pos <= k + n
        invariant k < pos ==> pos - 1 <= LineEnd(data, k)
        invariant forall i :: k <= i < pos - 1 ==> data[i] != LF
      {
        pos := pos + 1;
      }
      line := data[k..pos];
    }

    /** `read(1)`. */
    method ReadByte() returns (b: Option<byte>)
      requires Valid()
      modifies this
      ensures Valid()
      ensures if old(pos) < |data| then b == Some(data[old(pos)]) && pos == old(pos) + 1
              else b == None && pos == old(pos)
    {
      if pos == |data| { return None; }
      b := Some(data[pos]);
      pos := pos + 1;
    }

    /** Accepts a line exactly when its payload fits, and stops just behind it. */
    method ReadFrame(limit: nat) returns (f: Frame)
      requires Valid()
      modifies this
      ensures Valid()
      ensures f == if old(pos) == |data| then Eof
                   else if |Payload(data, old(pos))| <= limit then Line(Payload(data, old(pos)))
                   else TooLong
      ensures f != TooLong ==> pos == NextLine(data, old(pos))
    {
      ghost var k := pos;
      ghost var e := LineEnd(data, k);
      var line := ReadLine(limit + 1);
      if line == [] {
        return Eof;
      }
      if line[|line| - 1] == LF {
        assert pos == e + 1;
        line := line[..|line| - 1];
        assert line == data[k..e];
        if line != [] && line[|line| - 1] == CR {
          line := line[..|line| - 1];
          assert line == data[k..e - 1];
        }
      } else if |line| > limit && line[|line| - 1] == CR {
        assert pos == k + limit + 1 <= e && data[pos - 1] == CR;
        var b := ReadByte();
        if b == Some(LF) {
          assert e == k + limit + 1;
          line := line[..|line| - 1];
          assert line == data[k..e - 1];
        }
      } else {
        assert |line| <= limit ==> pos == e == |data| && line == data[k..e];
      }
      if |line| > limit {
        return TooLong;
      }
      return Line(line);
    }
  }

  /** The lines before the first one that is too long. */
  function Fitting(lines: seq<Bytes>, limit: nat): (r: seq<Bytes>)
    ensures r <= lines && forall p :: p in r ==> |p| <= limit
    ensures |r| < |lines| ==> |lines[|r|]| > limit
  {
    if lines == [] || |lines[0]| > limit then [] else [lines[0]] + Fitting(lines[1..], limit)
  }

  /** The lines that are more than white space. */
  function Filled(lines: seq<Bytes>): (r: seq<Bytes>) {
    if lines == [] then []
    else
      var n := |lines| - 1;
      Filled(lines[..n]) + (if Blank(lines[n]) then [] else [lines[n]])
  }

  lemma FilledPush(lines: seq<Bytes>, p: Bytes)
    ensures Filled(lines + [p]) == Filled(lines) + if Blank(p) then [] else [p]
  {
    assert (lines + [p])[..|lines|] == lines;
  }

  /** What a loop has read when it stands at `pos`: these lines, all of which fit. */
  ghost predicate ReadSoFar(data: Bytes, start: nat, pos: nat, lines: seq<Bytes>, limit: nat) {
    && start <= |data| && pos <= |data| && Lines(data, start) == lines + Lines(data, pos)
    && forall p :: p in lines ==> |p| <= limit
  }

  /** The receive loop: reading until the end or a refusal is splitting the stream, and what
      is handed on are the lines that are not blank. */
  method ReadAll(stream: Stream, limit: nat) returns (messages: seq<Bytes>, refused: bool, ghost lines: seq<Bytes>)
    requires stream.Valid()
    modifies stream
    ensures lines == Fitting(Lines(stream.data, old(stream.pos)), limit)
    ensures messages == Filled(lines)
    ensures refused <==> |lines| < |Lines(stream.data, old(stream.pos))|
  {
    messages, refused, lines := [], false, [];
    ghost var start := stream.pos;
    hide Payload, NextLine, Blank, Filled, Lines, Fitting;
    ReadNothing(stream.data, start, limit);
    while true
      invariant stream.Valid() && ReadSoFar(stream.data, start, stream.pos, lines, limit) && messages == Filled(lines)
      decreases |stream.data| - stream.pos
    {
      ghost var k := stream.pos;
      ReadStep(stream.data, start, k, lines, limit);
      var f := stream.ReadFrame(limit);
      match f
      case Eof => return;
      case TooLong => return messages, true, lines;
      case Line(p) =>
        FilledPush(lines, p);
        lines := lines + [p];
        if Blank(p) { continue; }
        messages := messages + [p];
    }
  }

  lemma ReadNothing(data: Bytes, start: nat, limit: nat)
    requires start <= |data|
    ensures ReadSoFar(data, start, start, [], limit) && Filled([]) == []
  {}

  /** One line further, or the end of the loop. */
  lemma ReadStep(data: Bytes, start: nat, pos: nat, lines: seq<Bytes>, limit: nat)
    requires ReadSoFar(data, start, pos, lines, limit)
    ensures pos == |data| ==> lines == Fitting(Lines(data, start), limit) == Lines(data, start)
    ensures pos < |data| ==>
              && pos < NextLine(data, pos) <= |data|
              && var p := Payload(data, pos);
                 if |p| <= limit then ReadSoFar(data, start, NextLine(data, pos), lines + [p], limit)
                 else lines == Fitting(Lines(data, start), limit) && |lines| < |Lines(data, start)|
  {
    hide LineEnd, Payload;
    var all := Lines(data, start);
    assert all[..|lines|] == lines;
    FittingIs(all, |lines|, limit);
    if pos < |data| {
      assert all[|lines|] == Payload(data, pos);
      assert all == (lines + [Payload(data, pos)]) + Lines(data, NextLine(data, pos));
    } else {
      assert all == lines;
    }
  }

  lemma {:induction false} FittingIs(lines: seq<Bytes>, k: nat, limit: nat)
    requires k <= |lines| && forall p :: p in lines[..k] ==> |p| <= limit
    ensures (k == |lines| || |lines[k]| > limit) ==> Fitting(lines, limit) == lines[..k]
  {
    if k > 0 {
      assert forall i :: 0 <= i < k ==> lines[..k][i] in lines[..k];
      assert lines[1..][..k - 1] == lines[1..k];
      FittingIs(lines[1..], k - 1, limit);
    }
  }

  // ---------- framing and its inverse ----------

  function Framed(ps: seq<Bytes>): (s: Bytes) {
    if ps == [] then [] else ps[0] + [LF] + Framed(ps[1..])
  }

  predicate Plain(p: Bytes) {
    LF !in p && (p != [] ==> p[|p| - 1] != CR)
  }

  lemma {:induction false} LineEndShift(a: Bytes, s: Bytes, k: nat)
    requires k <= |s|
    ensures LineEnd(a + s, |a| + k) == |a| + LineEnd(s, k)
    decreases |s| - k
  {
    if k < |s| && s[k] != LF { LineEndShift(a, s, k + 1); }
  }

  lemma PayloadShift(a: Bytes, s: Bytes, k: nat)
    requires k <= |s|
    ensures NextLine(a + s, |a| + k) == |a| + NextLine(s, k)
    ensures Payload(a + s, |a| + k) == Payload(s, k)
  {
    LineEndShift(a, s, k);
    var e := LineEnd(s, k);
    assert (a + s)[|a| + k..|a| + e] == s[k..e];
    assert k < e ==> (a + s)[|a| + k..|a| + e - 1] == s[k..e - 1];
  }

  lemma {:induction false} LinesShift(a: Bytes, s: Bytes, k: nat)
    requires k <= |s|
    ensures Lines(a + s, |a| + k) == Lines(s, k)
    decreases |s| - k
  {
    hide LineEnd, Payload, NextLine;
    if k < |s| {
      PayloadShift(a, s, k);
      LinesShift(a, s, NextLine(s, k));
    }
  }

  lemma FirstLine(p: Bytes, rest: Bytes)
    ensures Payload(p + [LF] + rest, 0) == p <==> Plain(p)
    ensures Plain(p) ==> NextLine(p + [LF] + rest, 0) == |p + [LF]|
  {
    var s := p + [LF] + rest;
    assert s[|p|] == LF && s[..|p|] == p;
    if LF in p {
      assert LF !in Payload(s, 0);
    } else {
      assert LineEnd(s, 0) == |p|;
    }
  }

  /** Splitting undoes framing exactly when every payload is free of LF and of a final CR. */
  lemma {:induction false} SplitInvertsFraming(ps: seq<Bytes>)
    ensures Lines(Framed(ps), 0) == ps <==> forall p :: p in ps ==> Plain(p)
  {
    if ps != [] {
      hide LineEnd, Payload, NextLine, Plain;
      var p, rest := ps[0], Framed(ps[1..]);
      var s := p + [LF] + rest;
      assert Lines(s, 0) == [Payload(s, 0)] + Lines(s, NextLine(s, 0));
      assert ps == [p] + ps[1..];
      FirstLine(p, rest);
      LinesShift(p + [LF], rest, 0);
      SplitInvertsFraming(ps[1..]);
      assert Lines(s, 0) == ps <==> Plain(p) && Lines(rest, 0) == ps[1..];
    }
  }
}
