/**
 String routines that look at eight bytes at a time (user/string.c), against their
 byte-by-byte meaning.  Memory is a sequence of bytes whose first one has address
 base, so that every alignment is covered.
 */
module Strings {
  const SS := 8
  const ONES: bv64 := 0x0101_0101_0101_0101
  const HIGHS: bv64 := 0x8080_8080_8080_8080

  function HasZero(x: bv64): bv64 {
    (x - ONES) & !x & HIGHS
  }

  function Pack(b0: bv8, b1: bv8, b2: bv8, b3: bv8, b4: bv8, b5: bv8, b6: bv8, b7: bv8): bv64 {
    (b0 as bv64) | ((b1 as bv64) << 8) | ((b2 as bv64) << 16) | ((b3 as bv64) << 24)
    | ((b4 as bv64) << 32) | ((b5 as bv64) << 40) | ((b6 as bv64) << 48) | ((b7 as bv64) << 56)
  }

  /** The word test is nonzero exactly when some byte of the word is zero. */
  lemma ZeroByte(x: bv64)
    ensures HasZero(x) != 0 <==>
              x & 0xff == 0 || x & 0xff00 == 0 || x & 0xff_0000 == 0 || x & 0xff00_0000 == 0 || x & 0xff_0000_0000 == 0
              || x & 0xff00_0000_0000 == 0 || x & 0xff_0000_0000_0000 == 0 || x & 0xff00_0000_0000_0000 == 0
  {
  }

  lemma PackZero(b0: bv8, b1: bv8, b2: bv8, b3: bv8, b4: bv8, b5: bv8, b6: bv8, b7: bv8)
    ensures HasZero(Pack(b0, b1, b2, b3, b4, b5, b6, b7)) != 0 <==>
              b0 == 0 || b1 == 0 || b2 == 0 || b3 == 0 || b4 == 0 || b5 == 0 || b6 == 0 || b7 == 0
  {
  }

  /** A word with c in every byte. */
  function Spread(c: bv8): bv64 {
    ONES * (c as bv64)
  }

  lemma SpreadPack(c: bv8)
    ensures Spread(c) == Pack(c, c, c, c, c, c, c, c)
  {
  }

  /** x is the word of the eight bytes with c combined into each of them. */
  ghost predicate Masked(x: bv64, b0: bv8, b1: bv8, b2: bv8, b3: bv8, b4: bv8, b5: bv8, b6: bv8, b7: bv8, c: bv8) {
    x == Pack(b0, b1, b2, b3, b4, b5, b6, b7) ^ Pack(c, c, c, c, c, c, c, c)
  }

  lemma Masked0(x: bv64, b0: bv8, b1: bv8, b2: bv8, b3: bv8, b4: bv8, b5: bv8, b6: bv8, b7: bv8, c: bv8)
    requires Masked(x, b0, b1, b2, b3, b4, b5, b6, b7, c)
    ensures x & 0xff == 0 <==> b0 == c
  {
  }

  lemma Masked1(x: bv64, b0: bv8, b1: bv8, b2: bv8, b3: bv8, b4: bv8, b5: bv8, b6: bv8, b7: bv8, c: bv8)
    requires Masked(x, b0, b1, b2, b3, b4, b5, b6, b7, c)
    ensures x & 0xff00 == 0 <==> b1 == c
  {
  }

  lemma Masked2(x: bv64, b0: bv8, b1: bv8, b2: bv8, b3: bv8, b4: bv8, b5: bv8, b6: bv8, b7: bv8, c: bv8)
    requires Masked(x, b0, b1, b2, b3, b4, b5, b6, b7, c)
    ensures x & 0xff_0000 == 0 <==> b2 == c
  {
  }

  lemma Masked3(x: bv64, b0: bv8, b1: bv8, b2: bv8, b3: bv8, b4: bv8, b5: bv8, b6: bv8, b7: bv8, c: bv8)
    requires Masked(x, b0, b1, b2, b3, b4, b5, b6, b7, c)
    ensures x & 0xff00_0000 == 0 <==> b3 == c
  {
  }

  lemma Masked4(x: bv64, b0: bv8, b1: bv8, b2: bv8, b3: bv8, b4: bv8, b5: bv8, b6: bv8, b7: bv8, c: bv8)
    requires Masked(x, b0, b1, b2, b3, b4, b5, b6, b7, c)
    ensures x & 0xff_0000_0000 == 0 <==> b4 == c
  {
  }

  lemma Masked5(x: bv64, b0: bv8, b1: bv8, b2: bv8, b3: bv8, b4: bv8, b5: bv8, b6: bv8, b7: bv8, c: bv8)
    requires Masked(x, b0, b1, b2, b3, b4, b5, b6, b7, c)
    ensures x & 0xff00_0000_0000 == 0 <==> b5 == c
  {
  }

  lemma Masked6(x: bv64, b0: bv8, b1: bv8, b2: bv8, b3: bv8, b4: bv8, b5: bv8, b6: bv8, b7: bv8, c: bv8)
    requires Masked(x, b0, b1, b2, b3, b4, b5, b6, b7, c)
    ensures x & 0xff_0000_0000_0000 == 0 <==> b6 == c
  {
  }

  lemma Masked7(x: bv64, b0: bv8, b1: bv8, b2: bv8, b3: bv8, b4: bv8, b5: bv8, b6: bv8, b7: bv8, c: bv8)
    requires Masked(x, b0, b1, b2, b3, b4, b5, b6, b7, c)
    ensures x & 0xff00_0000_0000_0000 == 0 <==> b7 == c
  {
  }

  predicate Aligned(address: nat) {
    address % SS == 0
  }

  predicate SameAlignment(s: nat, d: nat) {
    s % SS == d % SS
  }

  lemma AlignedTogether(s: nat, d: nat, k: nat)
    requires SameAlignment(s, d)
    ensures Aligned(s + k) <==> Aligned(d + k)
  {
  }

  /** The word at p, which a load can read only where the address is aligned. */
  function WordAt(m: seq<bv8>, base: nat, p: nat): bv64
    requires p + SS <= |m| && Aligned(base + p)
  {
    Pack(m[p], m[p + 1], m[p + 2], m[p + 3], m[p + 4], m[p + 5], m[p + 6], m[p + 7])
  }

  lemma WordHasZero(m: seq<bv8>, base: nat, p: nat)
    requires p + SS <= |m| && Aligned(base + p)
    ensures HasZero(WordAt(m, base, p)) == 0 <==> forall i | p <= i < p + SS :: m[i] != 0
  {
    PackZero(m[p], m[p + 1], m[p + 2], m[p + 3], m[p + 4], m[p + 5], m[p + 6], m[p + 7]);
  }

  lemma BytesDiffer(x: bv64, b0: bv8, b1: bv8, b2: bv8, b3: bv8, b4: bv8, b5: bv8, b6: bv8, b7: bv8, c: bv8)
    requires Masked(x, b0, b1, b2, b3, b4, b5, b6, b7, c)
    ensures HasZero(x) == 0 <==> b0 != c && b1 != c && b2 != c && b3 != c && b4 != c && b5 != c && b6 != c && b7 != c
  {
    hide HasZero, Masked;
    ZeroByte(x);
    Masked0(x, b0, b1, b2, b3, b4, b5, b6, b7, c);
    Masked1(x, b0, b1, b2, b3, b4, b5, b6, b7, c);
    Masked2(x, b0, b1, b2, b3, b4, b5, b6, b7, c);
    Masked3(x, b0, b1, b2, b3, b4, b5, b6, b7, c);
    Masked4(x, b0, b1, b2, b3, b4, b5, b6, b7, c);
    Masked5(x, b0, b1, b2, b3, b4, b5, b6, b7, c);
    Masked6(x, b0, b1, b2, b3, b4, b5, b6, b7, c);
    Masked7(x, b0, b1, b2, b3, b4, b5, b6, b7, c);
  }

  lemma WordHas(m: seq<bv8>, base: nat, p: nat, c: bv8)
    requires p + SS <= |m| && Aligned(base + p)
    ensures HasZero(WordAt(m, base, p) ^ Spread(c)) == 0 <==> forall i | p <= i < p + SS :: m[i] != c
  {
    hide HasZero, Pack, Spread;
    SpreadPack(c);
    BytesDiffer(WordAt(m, base, p) ^ Spread(c), m[p], m[p + 1], m[p + 2], m[p + 3], m[p + 4], m[p + 5], m[p + 6], m[p + 7], c);
  }

  // ---- searching -----------------------------------------------------------------------------------------

  /** The string at p is n bytes long. */
  ghost predicate IsLength(m: seq<bv8>, p: nat, n: nat) {
    p + n < |m| && m[p + n] == 0 && forall i | p <= i < p + n :: m[i] != 0
  }

  /** The string at p ends inside the memory, and a whole word around its end can be read. */
  ghost predicate Readable(m: seq<bv8>, base: nat, p: nat) {
    Aligned(base + |m|) && exists n: nat :: IsLength(m, p, n)
  }

  /** An aligned word that starts inside the memory lies inside it, and the next word is aligned. */
  lemma WholeWord(size: nat, base: nat, q: nat)
    requires Aligned(base + q)
    ensures Aligned(base + size) && q < size ==> q + SS <= size
    ensures Aligned(base + (q + SS))
  {
  }

  /** strlen */
  method StrLen(m: seq<bv8>, base: nat, p: nat) returns (n: nat)
    requires Readable(m, base, p)
    ensures IsLength(m, p, n)
  {
    hide HasZero, WordAt;
    ghost var len: nat :| IsLength(m, p, len);
    var s := p;
    while !Aligned(base + s)
      invariant p <= s <= p + len && forall i | p <= i < s :: m[i] != 0
      decreases p + len - s
    {
      if m[s] == 0 { return s - p; }
      s := s + 1;
    }
    WholeWord(|m|, base, s);
    WordHasZero(m, base, s);
    while HasZero(WordAt(m, base, s)) == 0
      invariant p <= s <= p + len && Aligned(base + s) && s + SS <= |m| && forall i | p <= i < s :: m[i] != 0
      invariant HasZero(WordAt(m, base, s)) == 0 <==> forall i | s <= i < s + SS :: m[i] != 0
      decreases p + len - s
    {
      assert m[p + len] == 0;
      WholeWord(|m|, base, s);
      s := s + SS;
      WholeWord(|m|, base, s);
      WordHasZero(m, base, s);
    }
    while m[s] != 0
      invariant p <= s <= p + len && forall i | p <= i < s :: m[i] != 0
      decreases p + len - s
    {
      s := s + 1;
    }
    return s - p;
  }

  /** The n bytes at p can be searched for c: they lie in memory, or c comes up inside it and whole words can be read. */
  ghost predicate Searchable(m: seq<bv8>, base: nat, p: nat, n: nat, c: bv8) {
    n == 0 || p + n <= |m| || (Aligned(base + |m|) && exists z :: p <= z < |m| && z < p + n && m[z] == c)
  }

  /** memchr: the first c among n bytes, or p + n where there is none. */
  method MemChr(m: seq<bv8>, base: nat, p: nat, c: bv8, n: nat) returns (found: bool, s: nat)
    requires Searchable(m, base, p, n, c)
    ensures p <= s <= p + n && (s > p ==> s <= |m|) && (s < p + n ==> s < |m|) && (forall i | p <= i < s :: m[i] != c)
    ensures found <==> s < p + n
    ensures found ==> m[s] == c
  {
    hide HasZero, WordAt, Spread;
    ghost var stop := p + n;
    if n > 0 && p + n > |m| { stop :| p <= stop < |m| && stop < p + n && m[stop] == c; }
    s := p;
    var left := n;
    while !Aligned(base + s) && left != 0 && m[s] != c
      invariant p <= s <= stop && s + left == p + n && left >= 0 && forall i | p <= i < s :: m[i] != c
      decreases left
    {
      s, left := s + 1, left - 1;
    }
    if left != 0 && m[s] != c {
      WholeWord(|m|, base, s);
      while left >= SS && HasZero(WordAt(m, base, s) ^ Spread(c)) == 0
        invariant p <= s <= stop && s + left == p + n && left >= 0 && Aligned(base + s) && forall i | p <= i < s :: m[i] != c
        invariant left >= SS ==> s + SS <= |m|
        decreases left
      {
        WholeWord(|m|, base, s);
        WordHas(m, base, s, c);
        s, left := s + SS, left - SS;
        WholeWord(|m|, base, s);
      }
    }
    while left != 0 && m[s] != c
      invariant p <= s <= stop && s + left == p + n && left >= 0 && forall i | p <= i < s :: m[i] != c
      decreases left
    {
      s, left := s + 1, left - 1;
    }
    found := left != 0;
  }

  /** strnlen */
  method StrNLen(m: seq<bv8>, base: nat, p: nat, n: nat) returns (r: nat)
    requires Searchable(m, base, p, n, 0)
    ensures r <= n && (r > 0 ==> p + r <= |m|) && (r < n ==> p + r < |m|)
    ensures (forall i | p <= i < p + r :: m[i] != 0) && (r < n ==> m[p + r] == 0)
  {
    var found, s := MemChr(m, base, p, 0, n);
    return if found then s - p else n;
  }

  // ---- copying -------------------------------------------------------------------------------------------

  /** m is m0 with k bytes of s copied to d. */
  ghost predicate Copied(m0: seq<bv8>, m: seq<bv8>, d: nat, s: nat, k: nat) {
    |m| == |m0| && d + k <= |m| && s + k <= |m|
    && forall i {:trigger m[i]} | 0 <= i < |m| :: m[i] == if d <= i < d + k then m0[s + i - d] else m0[i]
  }

  /** Two stretches of n bytes that do not meet. */
  predicate Apart(d: nat, s: nat, n: nat) {
    d + n <= s || s + n <= d
  }

  lemma CopiedMore(m0: seq<bv8>, m1: seq<bv8>, m2: seq<bv8>, d: nat, s: nat, k: nat, n: nat)
    requires Copied(m0, m1, d, s, k) && Copied(m1, m2, d + k, s + k, n) && Apart(d, s, k + n)
    ensures Copied(m0, m2, d, s, k + n)
  {
    forall i | 0 <= i < |m2| ensures m2[i] == if d <= i < d + k + n then m0[s + i - d] else m0[i] {
      if d + k <= i < d + k + n {
        var j := s + i - d;
        assert m2[i] == m1[j] == m0[j];
      }
    }
  }

  /** A word without a zero lies before the end of the string. */
  lemma WordInside(m0: seq<bv8>, m: seq<bv8>, d: nat, s: nat, k: nat, len: nat)
    requires IsLength(m0, s, len) && Copied(m0, m, d, s, k) && k <= len && Apart(d, s, len + 1) && s + k + SS <= |m|
    requires forall i | s + k <= i < s + k + SS :: m[i] != 0
    ensures k + SS <= len
  {
    assert m[s + len] == m0[s + len];
  }

  /** The source byte k, still as it was, is zero exactly at the end of the string. */
  lemma ByteAt(m0: seq<bv8>, m: seq<bv8>, d: nat, s: nat, k: nat, len: nat)
    requires IsLength(m0, s, len) && Copied(m0, m, d, s, k) && k <= len && Apart(d, s, k + 1)
    ensures s + k < |m| && (m[s + k] == 0 <==> k == len)
  {
    assert m[s + k] == m0[s + k];
  }

  method StoreByte(a: array<bv8>, d: nat, s: nat)
    requires d < a.Length && s < a.Length
    modifies a
    ensures a[d] == old(a[s]) && Copied(old(a[..]), a[..], d, s, 1)
  {
    a[d] := a[s];
  }

  method StoreWord(a: array<bv8>, base: nat, d: nat, s: nat)
    requires d + SS <= a.Length && s + SS <= a.Length && Aligned(base + d) && Aligned(base + s)
    modifies a
    ensures Copied(old(a[..]), a[..], d, s, SS)
  {
    forall i | 0 <= i < SS {
      a[d + i] := a[s + i];
    }
    forall i | 0 <= i < a.Length
      ensures a[i] == if d <= i < d + SS then old(a[s + i - d]) else old(a[i])
    {
      if d <= i < d + SS { assert a[d + (i - d)] == old(a[s + (i - d)]); }
    }
  }

  /** One turn of the byte loop. */
  method CopyByte(a: array<bv8>, ghost m0: seq<bv8>, d: nat, s: nat, k: nat, ghost len: nat) returns (last: bool)
    requires IsLength(m0, s, len) && Copied(m0, a[..], d, s, k) && k <= len && Apart(d, s, len + 1) && d + len < a.Length
    modifies a
    ensures Copied(m0, a[..], d, s, k + 1) && (last <==> k == len)
  {
    ByteAt(m0, a[..], d, s, k, len);
    ghost var m1 := a[..];
    StoreByte(a, d + k, s + k);
    CopiedMore(m0, m1, a[..], d, s, k, 1);
    last := a[d + k] == 0;
  }

  /** The loop over words. */
  method CopyWords(a: array<bv8>, ghost m0: seq<bv8>, base: nat, d: nat, s: nat, ghost len: nat, start: nat) returns (k: nat)
    requires IsLength(m0, s, len) && Copied(m0, a[..], d, s, start) && start <= len && Apart(d, s, len + 1)
    requires d + len < a.Length && Aligned(base + a.Length) && Aligned(base + (s + start)) && Aligned(base + (d + start))
    modifies a
    ensures k <= len && Copied(m0, a[..], d, s, k)
  {
    hide HasZero, WordAt, Copied, Aligned;
    k := start;
    CopiedLength(m0, a[..], d, s, k);
    WholeWord(|m0|, base, s + k);
    while HasZero(WordAt(a[..], base, s + k)) == 0
      invariant k <= len && Aligned(base + (s + k)) && Aligned(base + (d + k)) && s + k + SS <= a.Length && Copied(m0, a[..], d, s, k)
      decreases len - k
    {
      ghost var m1 := a[..];
      WordHasZero(m1, base, s + k);
      WordInside(m0, m1, d, s, k, len);
      StoreWord(a, base, d + k, s + k);
      CopiedMore(m0, m1, a[..], d, s, k, SS);
      WholeWord(|m0|, base, s + k);
      WholeWord(|m0|, base, d + k);
      k := k + SS;
      WholeWord(|m0|, base, s + k);
    }
  }

  lemma CopiedLength(m0: seq<bv8>, m: seq<bv8>, d: nat, s: nat, k: nat)
    requires Copied(m0, m, d, s, k)
    ensures |m| == |m0|
  {
  }

  /** strcpy: the string and its end are copied, and nothing else changes. */
  method StrCpy(a: array<bv8>, base: nat, d: nat, s: nat, ghost len: nat) returns (r: nat)
    requires Aligned(base + a.Length) && IsLength(a[..], s, len) && d + len < a.Length && Apart(d, s, len + 1)
    modifies a
    ensures Copied(old(a[..]), a[..], d, s, len + 1) && r == d + len
  {
    hide Copied, Aligned, SameAlignment;
    ghost var m0 := a[..];
    NothingCopied(m0, d, s);
    var k := 0;
    if SameAlignment(base + s, base + d) {
      while !Aligned(base + (s + k))
        invariant 0 <= k <= len && Copied(m0, a[..], d, s, k)
        decreases len - k
      {
        var last := CopyByte(a, m0, d, s, k, len);
        if last { return d + k; }
        k := k + 1;
      }
      AlignedTogether(base + s, base + d, k);
      assert base + (d + k) == base + d + k && base + (s + k) == base + s + k;
      k := CopyWords(a, m0, base, d, s, len, k);
    }
    while true
      invariant 0 <= k <= len && Copied(m0, a[..], d, s, k)
      decreases len - k
    {
      var last := CopyByte(a, m0, d, s, k, len);
      if last { return d + k; }
      k := k + 1;
    }
  }

  lemma NothingCopied(m: seq<bv8>, d: nat, s: nat)
    requires d <= |m| && s <= |m|
    ensures Copied(m, m, d, s, 0)
  {
  }

  /** memset(d, 0, n) */
  method ZeroFill(a: array<bv8>, d: nat, n: nat)
    requires d + n <= a.Length
    modifies a
    ensures forall i | 0 <= i < a.Length :: a[i] == if d <= i < d + n then 0 else old(a[i])
  {
    forall i | d <= i < d + n {
      a[i] := 0;
    }
  }

  /** A copy of at most n bytes from s to d, where len bytes come before the end of the string or the limit. */
  ghost predicate CutCopy(m: seq<bv8>, d: nat, s: nat, n: nat, len: nat) {
    len <= n && s + len <= |m| && d + n <= |m|
    && (forall i | s <= i < s + len :: m[i] != 0)
    && (len < n ==> s + len < |m| && m[s + len] == 0)
    && (d + n <= s || s + (if len < n then len + 1 else n) <= d)
  }

  /** The first k bytes are copied and only the n bytes at d have changed. */
  ghost predicate Partly(m0: seq<bv8>, m: seq<bv8>, d: nat, s: nat, n: nat, k: nat) {
    |m| == |m0| && k <= n && s + k <= |m| && d + n <= |m|
    && (forall i {:trigger m[i]} | d <= i < d + k :: m[i] == m0[s + i - d])
    && (forall i {:trigger m[i]} | 0 <= i < |m| && !(d <= i < d + n) :: m[i] == m0[i])
  }

  /** len bytes are copied, the rest of the n bytes at d are zero and all others are as they were. */
  ghost predicate CutDone(m0: seq<bv8>, m: seq<bv8>, d: nat, s: nat, n: nat, len: nat) {
    |m| == |m0| && len <= n && d + n <= |m| && s + len <= |m|
    && forall i {:trigger m[i]} | 0 <= i < |m| ::
         m[i] == if d <= i < d + len then m0[s + i - d] else if d + len <= i < d + n then 0 else m0[i]
  }

  lemma PartlyMore(m0: seq<bv8>, m1: seq<bv8>, m2: seq<bv8>, d: nat, s: nat, n: nat, len: nat, k: nat, w: nat)
    requires CutCopy(m0, d, s, n, len) && Partly(m0, m1, d, s, n, k) && Copied(m1, m2, d + k, s + k, w)
    requires k + w <= n && k + w <= len + 1
    ensures Partly(m0, m2, d, s, n, k + w)
  {
    forall i | d <= i < d + k + w ensures m2[i] == m0[s + i - d] {
      if d + k <= i {
        var j := s + i - d;
        assert m2[i] == m1[j] == m0[j];
      } else {
        assert m2[i] == m1[i];
      }
    }
    forall i | 0 <= i < |m2| && !(d <= i < d + n) ensures m2[i] == m0[i] {
      assert m2[i] == m1[i];
    }
  }

  /** The source byte k is zero exactly at the end of the string. */
  lemma CutByte(m0: seq<bv8>, m: seq<bv8>, d: nat, s: nat, n: nat, len: nat, k: nat)
    requires CutCopy(m0, d, s, n, len) && Partly(m0, m, d, s, n, k) && k <= len && k < n
    ensures s + k < |m| && (m[s + k] == 0 <==> k == len)
  {
    assert m[s + k] == m0[s + k];
  }

  lemma CutWord(m0: seq<bv8>, m: seq<bv8>, d: nat, s: nat, n: nat, len: nat, k: nat)
    requires CutCopy(m0, d, s, n, len) && Partly(m0, m, d, s, n, k) && k <= len && k + SS <= n && s + k + SS <= |m|
    requires forall i | s + k <= i < s + k + SS :: m[i] != 0
    ensures k + SS <= len
  {
    if len < n { assert m[s + len] == m0[s + len]; }
  }

  /** One turn of the bounded byte loop: a zero is written, but not stepped over. */
  method CopyCutByte(a: array<bv8>, ghost m0: seq<bv8>, d: nat, s: nat, n: nat, ghost len: nat, k: nat) returns (last: bool)
    requires CutCopy(m0, d, s, n, len) && Partly(m0, a[..], d, s, n, k) && k <= len && k < n
    modifies a
    ensures Partly(m0, a[..], d, s, n, if last then k else k + 1) && (last <==> k == len)
  {
    CutByte(m0, a[..], d, s, n, len, k);
    ghost var m1 := a[..];
    StoreByte(a, d + k, s + k);
    PartlyMore(m0, m1, a[..], d, s, n, len, k, 1);
    last := a[d + k] == 0;
  }

  /** The loop over words. */
  method CopyCutWords(a: array<bv8>, ghost m0: seq<bv8>, base: nat, d: nat, s: nat, n: nat, ghost len: nat, start: nat)
    returns (k: nat)
    requires CutCopy(m0, d, s, n, len) && Partly(m0, a[..], d, s, n, start) && start <= len
    requires Aligned(base + a.Length) && Aligned(base + (s + start)) && Aligned(base + (d + start))
    modifies a
    ensures k <= len && Partly(m0, a[..], d, s, n, k)
  {
    hide HasZero, WordAt, Partly, Copied, Aligned;
    k := start;
    CutRoom(m0, a[..], base, d, s, n, len, k);
    while n - k >= SS && HasZero(WordAt(a[..], base, s + k)) == 0
      invariant k <= len && Aligned(base + (s + k)) && Aligned(base + (d + k)) && Partly(m0, a[..], d, s, n, k)
      invariant k + SS <= n ==> s + k + SS <= a.Length
      decreases n - k
    {
      ghost var m1 := a[..];
      WordHasZero(m1, base, s + k);
      CutWord(m0, m1, d, s, n, len, k);
      StoreWord(a, base, d + k, s + k);
      PartlyMore(m0, m1, a[..], d, s, n, len, k, SS);
      WholeWord(|m0|, base, s + k);
      WholeWord(|m0|, base, d + k);
      k := k + SS;
      CutRoom(m0, a[..], base, d, s, n, len, k);
    }
  }

  /** A whole word can be read while eight bytes are left. */
  lemma CutRoom(m0: seq<bv8>, m: seq<bv8>, base: nat, d: nat, s: nat, n: nat, len: nat, k: nat)
    requires CutCopy(m0, d, s, n, len) && Partly(m0, m, d, s, n, k) && k <= len
    requires Aligned(base + |m|) && Aligned(base + (s + k))
    ensures |m| == |m0| && d + n <= |m|
    ensures k + SS <= n ==> s + k + SS <= |m|
  {
    WholeWord(|m|, base, s + k);
  }

  lemma PartlyNone(m: seq<bv8>, d: nat, s: nat, n: nat, len: nat)
    requires CutCopy(m, d, s, n, len)
    ensures Partly(m, m, d, s, n, 0)
  {
  }

  lemma PartlyZeroed(m0: seq<bv8>, m1: seq<bv8>, m2: seq<bv8>, d: nat, s: nat, n: nat, k: nat)
    requires Partly(m0, m1, d, s, n, k) && |m2| == |m1|
    requires forall i | 0 <= i < |m2| :: m2[i] == if d + k <= i < d + n then 0 else m1[i]
    ensures CutDone(m0, m2, d, s, n, k)
  {
  }

  /** strncpy: len bytes copied, the rest of the n bytes zero, and nothing else changed. */
  method StrNCpy(a: array<bv8>, base: nat, d: nat, s: nat, n: nat, ghost len: nat) returns (r: nat)
    requires CutCopy(a[..], d, s, n, len) && Aligned(base + a.Length)
    modifies a
    ensures r == d + len
    ensures CutDone(old(a[..]), a[..], d, s, n, len)
  {
    hide Aligned, SameAlignment, Partly, CutDone;
    ghost var m0 := a[..];
    PartlyNone(m0, d, s, n, len);
    var k, tail := 0, false;
    if SameAlignment(base + s, base + d) {
      var last := false;
      while !Aligned(base + (s + k)) && k < n && !last
        invariant 0 <= k <= len && Partly(m0, a[..], d, s, n, k) && (last ==> k == len)
        decreases if last then 0 else 1, n - k
      {
        last := CopyCutByte(a, m0, d, s, n, len, k);
        if !last { k := k + 1; }
      }
      if k < n { CutByte(m0, a[..], d, s, n, len, k); }
      tail := k == n || a[s + k] == 0;
      if !tail {
        AlignedTogether(base + s, base + d, k);
        assert base + (d + k) == base + d + k && base + (s + k) == base + s + k;
        k := CopyCutWords(a, m0, base, d, s, n, len, k);
      }
    }
    var last := tail;
    while k < n && !last
      invariant 0 <= k <= len && Partly(m0, a[..], d, s, n, k) && (last ==> k == len)
      decreases if last then 0 else 1, n - k
    {
      last := CopyCutByte(a, m0, d, s, n, len, k);
      if !last { k := k + 1; }
    }
    ghost var m1 := a[..];
    ZeroFill(a, d + k, n - k);
    PartlyZeroed(m0, m1, a[..], d, s, n, k);
    return d + k;
  }
}
