/** Bytes, byte strings and optional values. */
module Basics {
  newtype byte = b: int | 0 <= b < 256

  type Bytes = seq<byte>
  const LF: byte := 10
  const CR: byte := 13

  datatype Option<+T> = None | Some(value: T)

  predicate Occurs(s: Bytes, m: Bytes, p: nat) {
    p + |m| <= |s| && forall i {:trigger m[i]} :: 0 <= i < |m| ==> s[p + i] == m[i]
  }

  /** An occurrence is the text itself at that place. */
  lemma OccursMeans(s: Bytes, m: Bytes, p: nat)
    ensures Occurs(s, m, p) <==> p + |m| <= |s| && s[p..p + |m|] == m
  {
    if p + |m| <= |s| {
      var t := s[p..p + |m|];
      assert forall i :: 0 <= i < |t| ==> t[i] == s[p + i];
    }
  }

  /** What `strip` leaves nothing of. */
  predicate Blank(s: Bytes) {
    forall i :: 0 <= i < |s| ==> Space(s[i])
  }

  predicate Space(b: byte): (r: bool)
    ensures r <==> b in {9, 10, 11, 12, 13, 32} // tab, the two feeds, vertical tab, return, space
  {
    b == 32 || 9 <= b <= 13
  }
}
