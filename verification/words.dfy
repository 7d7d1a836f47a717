/** Bytes and sequences, for all other modules. */
module Words {
  type Byte = b: nat | b < 256

  function Zeros(n: nat): (s: seq<Byte>)
    ensures |s| == n && forall o | 0 <= o < n :: s[o] == 0
  {
    seq(n, _ => 0)
  }

  /** Bytes replaced in a longer sequence. */
  function Patch(s: seq<Byte>, off: nat, bytes: seq<Byte>): (r: seq<Byte>)
    requires off + |bytes| <= |s|
    ensures |r| == |s|
    ensures forall o | 0 <= o < |r| :: r[o] == if off <= o < off + |bytes| then bytes[o - off] else s[o]
  {
    s[..off] + bytes + s[off + |bytes|..]
  }

  ghost predicate NoDup(s: seq<nat>) {
    forall i, j {:trigger s[i], s[j]} | 0 <= i < j < |s| :: s[i] != s[j]
  }
}
