/**
 Where the bytes of a file lie (kern/fs/fat32/file.c): positions and counts of
 clusters, in the 32-bit arithmetic of the code.
 */
module FilePositions {
  import opened Clusters

  /** The unsigned 32-bit arithmetic of file.c. */
  const WORD := 0x1_0000_0000

  function U32(x: nat): nat {
    x % WORD
  }

  lemma Fits(x: nat)
    requires x < WORD
    ensures U32(x) == x
  {
  }

  // ---- positions --------------------------------------------------------------------------------

  /** Where cluster i of a file starts. */
  function Pos(sb: Super, i: nat): nat {
    i * ClusSize(sb)
  }

  lemma PosNext(sb: Super, i: nat)
    ensures Pos(sb, i + 1) == Pos(sb, i) + ClusSize(sb)
  {
    hide ClusSize;
  }

  /** The cluster of a file that holds byte k, and where in it. */
  function IndexOf(sb: Super, k: nat): nat
    requires ClusSize(sb) > 0
  {
    k / ClusSize(sb)
  }

  function OffsetOf(sb: Super, k: nat): nat
    requires ClusSize(sb) > 0
  {
    k % ClusSize(sb)
  }

  lemma PosOf(sb: Super, k: nat)
    requires ClusSize(sb) > 0
    ensures k == Pos(sb, IndexOf(sb, k)) + OffsetOf(sb, k) && OffsetOf(sb, k) < ClusSize(sb)
  {
    hide ClusSize;
    DivMod(k, ClusSize(sb));
  }

  lemma DivMod(k: nat, n: nat)
    requires n > 0
    ensures k == k / n * n + k % n && k % n < n
  {
  }

  /** A position before the end of the bytes lies in a cluster of the chain. */
  lemma InsideChain(sb: Super, i: nat, len: nat)
    requires Pos(sb, i) < Pos(sb, len)
    ensures i < len
  {
    hide ClusSize;
    if i >= len { MulMonotone(len, i, ClusSize(sb)); }
  }

  lemma {:induction false} MulMonotone(a: nat, b: nat, n: nat)
    requires a <= b
    ensures a * n <= b * n
  {
    assert (b - a) * n >= 0;
    assert (b - a) * n == b * n - a * n;
  }

  lemma Ceiling(size: nat, cs: nat)
    requires cs > 0
    ensures var k := (size + cs - 1) / cs; size <= k * cs && (size > 0 ==> k > 0 && (k - 1) * cs < size)
    ensures size == 0 ==> (size + cs - 1) / cs == 0
  {
    DivMod(size + cs - 1, cs);
    var k := (size + cs - 1) / cs;
    assert (k - 1) * cs == k * cs - cs;
  }

  lemma CeilingIs(size: nat, cs: nat, k: nat)
    requires cs > 0 && k > 0 && (k - 1) * cs < size <= k * cs
    ensures (size + cs - 1) / cs == k
  {
    Ceiling(size, cs);
    var q := (size + cs - 1) / cs;
    if q < k {
      MulMonotone(q, k - 1, cs);
    } else if q > k {
      MulMonotone(k, q - 1, cs);
    }
  }

  /** The number of clusters that hold size bytes. */
  function ClusCount(sb: Super, size: nat): nat
    requires ClusSize(sb) > 0
  {
    (size + ClusSize(sb) - 1) / ClusSize(sb)
  }

  lemma CountFacts(sb: Super, oldSize: nat, newSize: nat)
    requires ClusSize(sb) > 0 && 0 < oldSize <= newSize
    ensures ClusCount(sb, oldSize) > 0 && Pos(sb, ClusCount(sb, oldSize) - 1) < newSize && ClusCount(sb, 1) == 1
  {
    hide ClusSize;
    Ceiling(oldSize, ClusSize(sb));
    CeilingIs(1, ClusSize(sb), 1);
  }

  lemma CountIs(sb: Super, size: nat, k: nat)
    requires ClusSize(sb) > 0 && k > 0 && Pos(sb, k - 1) < size <= Pos(sb, k)
    ensures ClusCount(sb, size) == k
  {
    hide ClusSize;
    CeilingIs(size, ClusSize(sb), k);
  }

  /** A size beyond k clusters takes more than k. */
  lemma CountMore(sb: Super, k: nat, size: nat)
    requires ClusSize(sb) > 0 && Pos(sb, k) < size
    ensures k < ClusCount(sb, size)
  {
    hide ClusSize;
    Ceiling(size, ClusSize(sb));
    var n := ClusCount(sb, size);
    if n <= k { MulMonotone(n, k, ClusSize(sb)); }
  }

  lemma CountSome(sb: Super, size: nat)
    requires ClusSize(sb) > 0 && size > 0
    ensures ClusCount(sb, size) > 0
  {
    hide ClusSize;
    Ceiling(size, ClusSize(sb));
  }

  // ---- where 32 bits are not enough ---------------------------------------------------------------

  lemma Small(x: nat, n: nat)
    requires x < n
    ensures x / n == 0
  {
  }

  /** The count of clusters in 32 bits: right up to the last cluster below 2^32, and 0 from there on. */
  lemma CountWraps(sb: Super, size: nat)
    requires SuperOk(sb) && size < WORD
    ensures ClusSize(sb) > 0
    ensures U32(size + ClusSize(sb) - 1) / ClusSize(sb) == if size + ClusSize(sb) <= WORD then ClusCount(sb, size) else 0
    ensures size + ClusSize(sb) > WORD ==> ClusCount(sb, size) > 0
  {
    assert 0 < ClusSize(sb) < WORD;
    hide ClusSize;
    var cs, x := ClusSize(sb), size + ClusSize(sb) - 1;
    if size + cs <= WORD {
      Fits(x);
    } else {
      assert x % WORD == x - WORD;
      Small(x - WORD, cs);
    }
    if size > 0 { Ceiling(size, cs); }
  }

  lemma SizeDivides(sb: Super)
    requires SuperOk(sb)
    ensures 0 < ClusSize(sb) < WORD && WORD % ClusSize(sb) == 0
  {
  }

  /** Byte k of a file would lie in the last cluster below 2^32. */
  predicate InLast(sb: Super, k: nat) {
    k + ClusSize(sb) >= WORD
  }

  lemma ModIs(x: nat, k: nat, r: nat)
    requires x == k * WORD + r && r < WORD
    ensures U32(x) == r
  {
  }

  lemma Multiples(i: nat, cs: nat)
    requires 0 < cs && WORD % cs == 0
    ensures U32(i * cs) <= WORD - cs && U32((WORD / cs - 1) * cs) == WORD - cs
  {
    var q := WORD / cs;
    DivMod(WORD, cs);
    DivMod(i, q);
    var r := i % q;
    assert i * cs == i / q * WORD + r * cs by {
      assert (i / q * q + r) * cs == i / q * (q * cs) + r * cs;
    }
    MulMonotone(r, q - 1, cs);
    assert (q - 1) * cs == q * cs - cs;
    ModIs(i * cs, i / q, r * cs);
    ModIs((q - 1) * cs, 0, WORD - cs);
  }

  /** The product of a loop counter and the cluster size never gets past a byte of the last cluster. */
  lemma Endless(sb: Super, i: nat, k: nat)
    requires SuperOk(sb) && InLast(sb, k)
    ensures U32(Pos(sb, i)) <= k
  {
    SizeDivides(sb);
    hide ClusSize, SuperOk, U32;
    Multiples(i, ClusSize(sb));
  }

  /** The guard of file_extend's loop can become false exactly for sizes that end before the last cluster below 2^32. */
  lemma LoopCanEnd(sb: Super, newSize: nat)
    requires SuperOk(sb)
    ensures (exists i: nat :: newSize <= U32(Pos(sb, i))) <==> newSize + ClusSize(sb) <= WORD
  {
    SizeDivides(sb);
    hide ClusSize, SuperOk, U32;
    var cs := ClusSize(sb);
    Multiples(0, cs);
    assert U32(Pos(sb, WORD / cs - 1)) == WORD - cs;
    forall i: nat ensures U32(Pos(sb, i)) <= WORD - cs { Multiples(i, cs); }
  }

  // ---- the rounds of a read or a write ------------------------------------------------------------

  /** How many of n bytes at off lie before pos. */
  function Before(off: nat, n: nat, pos: nat): nat {
    if off + n <= pos then n else if off <= pos then pos - off else 0
  }

  function Least(a: nat, b: nat): nat {
    if a < b then a else b
  }

  /** The first round ends with the cluster that off lies in. */
  lemma FirstRound(sb: Super, off: nat, n: nat)
    requires ClusSize(sb) > 0 && n > 0
    ensures var i, o := IndexOf(sb, off), OffsetOf(sb, off);
            && off == Pos(sb, i) + o && o < ClusSize(sb) && off < Pos(sb, i + 1) <= off + ClusSize(sb)
            && Least(n, ClusSize(sb) - o) == Before(off, n, Pos(sb, i + 1))
  {
    hide ClusSize, Pos, IndexOf, OffsetOf;
    PosOf(sb, off);
    PosNext(sb, IndexOf(sb, off));
  }

  /** Each further round takes one cluster, or what is left. */
  lemma NextRound(sb: Super, off: nat, n: nat, i: nat, count: nat)
    requires off <= Pos(sb, i) < off + n <= Pos(sb, count) && !InLast(sb, off + n - 1)
    ensures i < count && off <= Pos(sb, i + 1) && U32(Pos(sb, i + 1)) == Pos(sb, i + 1)
    ensures var len := Before(off, n, Pos(sb, i));
            && Pos(sb, i) == off + len && len < n && len + Least(ClusSize(sb), n - len) == Before(off, n, Pos(sb, i + 1))
  {
    InsideChain(sb, i, count);
    PosNext(sb, i);
    hide ClusSize, Pos;
  }

  lemma LastRound(off: nat, n: nat, pos: nat)
    requires n > 0
    ensures Before(off, n, pos) <= n && (off + n - 1 < pos ==> Before(off, n, pos) == n)
  {
  }
}
