/**
 The Sv39 address arithmetic and the page-table-entry encoding of
 include/mm/vmm.h, and the record form of an entry that the rest of the
 virtual-memory model works with.
 */
module Sv39 {

  const PAGE_SIZE := 4096
  const PAGE_INDEX_MAX := 512

  /** One past the largest address a three-level walk can tell apart. */
  const VA_LIMIT := 0x80_0000_0000

  /** MAXVA of include/mm/memlayout.h, and the three pages that sit below it. */
  const MAXVA := 0x40_0000_0000
  const TRAMPOLINE := MAXVA - PAGE_SIZE
  const SIGNAL_TRAMPOLINE := TRAMPOLINE - PAGE_SIZE
  const TRAPFRAME := SIGNAL_TRAMPOLINE - PAGE_SIZE

  type Idx = i: nat | i < PAGE_INDEX_MAX

  /** A virtual page number, as the three table indices a walk uses. */
  datatype Vpn = Vpn(i: Idx, j: Idx, k: Idx)

  /** PTX: the index of va in the table of the given level (1 is the directory). */
  function Ptx(va: nat, level: nat): Idx
    requires 1 <= level <= 3
  {
    if level == 1 then va / 0x4000_0000 % 512
    else if level == 2 then va / 0x20_0000 % 512
    else va / 0x1000 % 512
  }

  function VpnOf(va: nat): Vpn {
    Vpn(Ptx(va, 1), Ptx(va, 2), Ptx(va, 3))
  }

  /** The address pdWalk rebuilds from its three loop counters. */
  function VaOf(v: Vpn): nat {
    ((v.i * 512 + v.j) * 512 + v.k) * PAGE_SIZE
  }

  /** Looking up the address that pdWalk reports leads back to the same three indices. */
  lemma VpnOfVaOf(v: Vpn, off: nat)
    requires off < PAGE_SIZE
    ensures VpnOf(VaOf(v) + off) == v
    ensures VaOf(v) + off < VA_LIMIT
  {
    var va := VaOf(v) + off;
    var n := (v.i * 512 + v.j) * 512 + v.k;
    assert va / 0x1000 == n;
    assert n % 512 == v.k;
    assert va / 0x20_0000 == n / 512 == v.i * 512 + v.j;
    assert va / 0x4000_0000 == v.i;
  }

  /** Below 2^39 the page number and the offset determine the address. */
  lemma VaOfVpnOf(va: nat)
    requires va < VA_LIMIT
    ensures VaOf(VpnOf(va)) + va % PAGE_SIZE == va
  {
    var n := va / 0x1000;
    assert va / 0x20_0000 == n / 512;
    assert va / 0x4000_0000 == n / 512 / 512;
    assert n / 512 / 512 < 512;
  }

  lemma SpecialPages()
    ensures VpnOf(TRAMPOLINE) == Vpn(255, 511, 511)
    ensures VpnOf(SIGNAL_TRAMPOLINE) == Vpn(255, 511, 510)
    ensures VpnOf(TRAPFRAME) == Vpn(255, 511, 509)
  {
  }

  // ---- entries -----------------------------------------------------------

  datatype Perm = Perm(r: bool, w: bool, x: bool, u: bool, g: bool, a: bool, d: bool, cow: bool, shared: bool)

  /** A page-table entry: PTE_V, the physical page number and the remaining flag bits. */
  datatype Pte = Pte(v: bool, ppn: nat, perm: Perm)

  const NO_PERM := Perm(false, false, false, false, false, false, false, false, false)
  const ZERO_PTE := Pte(false, 0, NO_PERM)

  /** PTE_PASSIVE */
  predicate Passive(p: Pte) {
    !p.v && p.perm.u
  }

  /** User-writable without the shared bit: the entries fork turns into copy-on-write. */
  predicate PrivateWritable(p: Pte) {
    p.v && p.perm.w && p.perm.u && !p.perm.shared
  }

  // ---- the 64-bit encoding of entries --------------------------------------

  function Bit(on: bool, mask: bv10): bv10 {
    if on then mask else 0
  }

  /** The ten flag bits of an entry. */
  function PackFlags(v: bool, p: Perm): bv10 {
    Bit(v, 1) | Bit(p.r, 2) | Bit(p.w, 4) | Bit(p.x, 8) | Bit(p.u, 16) | Bit(p.g, 32)
    | Bit(p.a, 64) | Bit(p.d, 128) | Bit(p.cow, 256) | Bit(p.shared, 512)
  }

  function UnpackPerm(w: bv10): Perm {
    Perm(w & 2 != 0, w & 4 != 0, w & 8 != 0, w & 16 != 0, w & 32 != 0,
         w & 64 != 0, w & 128 != 0, w & 256 != 0, w & 512 != 0)
  }

  function PaToPte(pa: bv64): bv64 {
    (pa >> 12) << 10
  }

  function PteToPa(pte: bv64): bv64 {
    (pte >> 10) << 12
  }

  /** PTE_PERM: the low ten bits, PTE_V among them. */
  function PtePerm(pte: bv64): bv64 {
    pte & 0x3ff
  }

  /** The word ptMap stores for a page at pa: the address and the flags can be read back from it. */
  lemma MappedWord(pa: bv64, flags: bv64)
    requires pa <= 0xff_ffff_ffff_ffff
    requires flags <= 0x3ff
    ensures PteToPa(PaToPte(pa) | flags) == pa & 0xff_ffff_ffff_f000
    ensures PtePerm(PaToPte(pa) | flags) == flags
  {
  }

  /** The flag bits and the record form carry the same information. */
  lemma FlagBits(v: bool, p: Perm)
    ensures UnpackPerm(PackFlags(v, p)) == p && (PackFlags(v, p) & 1 != 0) == v
  {
  }

  /** The bits of an entry as section 4.4 of the RISC-V Privileged Architecture has them, and the two for software. */
  lemma FlagLayout(v: bool, p: Perm)
    ensures var w := PackFlags(v, p);
            && ((w >> 0) & 1 == 1 <==> v) && ((w >> 1) & 1 == 1 <==> p.r) && ((w >> 2) & 1 == 1 <==> p.w) && ((w >> 3) & 1 == 1 <==> p.x)
            && ((w >> 4) & 1 == 1 <==> p.u) && ((w >> 5) & 1 == 1 <==> p.g) && ((w >> 6) & 1 == 1 <==> p.a) && ((w >> 7) & 1 == 1 <==> p.d)
            && ((w >> 8) & 1 == 1 <==> p.cow) && ((w >> 9) & 1 == 1 <==> p.shared)
  {
  }

  /** duppage's (perm & ~PTE_W) | PTE_COW and cow_handler's (perm & ~PTE_COW) | PTE_W, as bit operations. */
  lemma CowBits(v: bool, p: Perm)
    ensures (PackFlags(v, p) & !4) | 256 == PackFlags(v, p.(w := false, cow := true))
    ensures (PackFlags(v, p) & !256) | 4 == PackFlags(v, p.(cow := false, w := true))
  {
    CowMarked(v, p);
    CowCleared(v, p);
  }

  lemma CowMarked(v: bool, p: Perm)
    ensures (PackFlags(v, p) & !4) | 256 == PackFlags(v, p.(w := false, cow := true))
  {
  }

  lemma CowCleared(v: bool, p: Perm)
    ensures (PackFlags(v, p) & !256) | 4 == PackFlags(v, p.(cow := false, w := true))
  {
  }
}
