/** The chunked search of a process's memory for a secret token. */
module TokenScan {
  import opened Basics

  const CHUNK := 4096
  const SECRET := 32
  const BOUND := 128 * 1024 * 1024

  /** `memmem`. */
  predicate Contains(s: Bytes, t: Bytes) {
    exists p :: 0 <= p <= |s| && Occurs(s, t, p)
  }

  /** One line of the map: unreadable as such, or a mapping from `low` to `high` holding
      `bytes`, of which the first `legible` can be read. */
  datatype Mapping = Unparsed | Mapping(low: nat, high: nat, readable: bool, kernel: bool, bytes: Bytes, legible: nat)

  predicate Scanned(m: Mapping) {
    m.Mapping? && m.readable && !m.kernel
  }

  /** A line that does not stop the scan. */
  predicate Fine(m: Mapping) {
    m.Mapping? && (Scanned(m) ==> m.low <= m.high <= m.low + BOUND && m.legible >= |m.bytes|)
  }

  ghost predicate Sized(m: Mapping) {
    m.Mapping? && m.low <= m.high ==> |m.bytes| == m.high - m.low
  }

  /** Searching the window finds the token exactly when it ends in the new chunk. */
  lemma WindowSuffices(s: Bytes, t: Bytes, from: nat, address: nat, to: nat)
    requires |t| == SECRET && from <= address <= to <= |s| && (from == 0 || from == address - (SECRET - 1))
    ensures Contains(s[..to], t) <==> Contains(s[..address], t) || Contains(s[from..to], t)
  {
    if Contains(s[..to], t) {
      var p :| 0 <= p <= to && Occurs(s[..to], t, p);
      if p + |t| <= address {
        assert Occurs(s[..address], t, p);
      } else {
        assert Occurs(s[from..to], t, p - from);
      }
    }
    if Contains(s[..address], t) {
      var p :| 0 <= p <= address && Occurs(s[..address], t, p);
      assert Occurs(s[..to], t, p);
    }
    if Contains(s[from..to], t) {
      var p :| 0 <= p <= to - from && Occurs(s[from..to], t, p);
      assert Occurs(s[..to], t, from + p);
    }
  }

  /** The read behind the carried tail stays inside the buffer. */
  method Fill(buffer: array<byte>, overlap: nat, s: Bytes, address: nat, size: nat)
    requires overlap + size <= buffer.Length && address + size <= |s|
    modifies buffer
    ensures buffer[..overlap + size] == old(buffer[..overlap]) + s[address..address + size]
  {
    forall i | 0 <= i < size { buffer[overlap + i] := s[address + i]; }
  }

  /** `memmove` of the last `keep` bytes to the front. */
  method Carry(buffer: array<byte>, total: nat, keep: nat)
    requires keep <= total <= buffer.Length
    modifies buffer
    ensures buffer[..keep] == old(buffer[total - keep..total])
  {
    forall i | 0 <= i < keep { buffer[i] := buffer[total - keep + i]; }
  }

  function Tail(n: nat): (k: nat) {
    if n < SECRET - 1 then n else SECRET - 1
  }

  /** One mapping: found exactly when it was found before or occurs in this one. */
  method ScanMapping(buffer: array<byte>, token: Bytes, m: Mapping, found: bool, scanned: nat)
    returns (found': bool, scanned': nat, ok: bool)
    requires buffer.Length == CHUNK + SECRET - 1 && |token| == SECRET && m.Mapping? && m.low <= m.high && Sized(m)
    modifies buffer
    ensures ok <==> m.legible >= |m.bytes|
    ensures ok ==> (found' <==> found || Contains(m.bytes, token)) && scanned' == scanned + |m.bytes|
  {
    var s := m.bytes;
    var length, address, overlap := m.high - m.low, 0, 0;
    found', scanned', ok := found, scanned, true;
    while address < length
      invariant address <= |s| && address <= m.legible && scanned' == scanned + address
      invariant overlap == Tail(address) && buffer[..overlap] == s[address - overlap..address]
      invariant found' <==> found || Contains(s[..address], token)
    {
      var size := if length - address > CHUNK then CHUNK else length - address;
      if address + size > m.legible {
        return found', scanned', false;
      }
      Fill(buffer, overlap, s, address, size);
      var total, from, to := overlap + size, address - overlap, address + size;
      assert buffer[..total] == s[from..to];
      hide Contains;
      WindowSuffices(s, token, from, address, to);
      if Contains(buffer[..total], token) {
        found' := true;
      }
      scanned' := scanned' + size;
      address := to;
      overlap := if total < SECRET - 1 then total else SECRET - 1;
      assert buffer[total - overlap..total] == s[to - overlap..to] by { Suffix(buffer[..total], s, from, to, overlap); }
      Carry(buffer, total, overlap);
    }
    assert s[..address] == s;
  }

  lemma Suffix(w: Bytes, s: Bytes, from: nat, to: nat, k: nat)
    requires from <= to <= |s| && w == s[from..to] && k <= |w|
    ensures w[|w| - k..] == s[to - k..to]
  {}

  // ---------- all mappings ----------

  predicate AnyContains(maps: seq<Mapping>, n: nat, token: Bytes)
    requires n <= |maps|
  {
    exists i :: 0 <= i < n && Scanned(maps[i]) && Contains(maps[i].bytes, token)
  }

  function Total(maps: seq<Mapping>, n: nat): (k: nat)
    requires n <= |maps|
  {
    if n == 0 then 0 else Total(maps, n - 1) + if Scanned(maps[n - 1]) then |maps[n - 1].bytes| else 0
  }

  /** The whole scan fails exactly when a line does not parse or a mapping to be scanned is
      inverted, too large or illegible, or when the token is not where it is expected: found
      means that it occurs inside one scanned mapping. */
  method Scan(token: Bytes, maps: seq<Mapping>, expected: bool) returns (ok: bool, scanned: nat)
    requires |token| == SECRET && forall i :: 0 <= i < |maps| ==> Sized(maps[i])
    ensures var fine := forall i :: 0 <= i < |maps| ==> Fine(maps[i]);
            && (ok <==> fine && (AnyContains(maps, |maps|, token) <==> expected))
            && (fine ==> scanned == Total(maps, |maps|))
  {
    var found, fine;
    found, scanned, fine := ScanAll(token, maps);
    ok := fine && found == expected;
  }

  method ScanAll(token: Bytes, maps: seq<Mapping>) returns (found: bool, scanned: nat, ok: bool)
    requires |token| == SECRET && forall i :: 0 <= i < |maps| ==> Sized(maps[i])
    ensures ok <==> forall i :: 0 <= i < |maps| ==> Fine(maps[i])
    ensures ok ==> (found <==> AnyContains(maps, |maps|, token)) && scanned == Total(maps, |maps|)
  {
    hide Contains;
    var buffer := new byte[CHUNK + SECRET - 1];
    found, scanned, ok := false, 0, true;
    var n := 0;
    while n < |maps|
      invariant n <= |maps| && ok
      invariant forall i :: 0 <= i < n ==> Fine(maps[i])
      invariant (found <==> AnyContains(maps, n, token)) && scanned == Total(maps, n)
    {
      var m := maps[n];
      if m.Unparsed? {
        return found, scanned, false;
      }
      if Scanned(m) {
        if m.high < m.low || m.high - m.low > BOUND {
          return found, scanned, false;
        }
        found, scanned, ok := ScanMapping(buffer, token, m, found, scanned);
        if !ok {
          return;
        }
      }
      AnyNext(maps, n, token);
      n := n + 1;
    }
  }

  lemma AnyNext(maps: seq<Mapping>, n: nat, token: Bytes)
    requires n < |maps|
    ensures AnyContains(maps, n + 1, token) <==>
              AnyContains(maps, n, token) || (Scanned(maps[n]) && Contains(maps[n].bytes, token))
  {
    hide Contains;
  }
}
