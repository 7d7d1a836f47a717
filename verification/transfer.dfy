/** Copies between the kernel and user memory, page by page: kern/lib/transfer.c. */
module Transfer {
  import opened Panics
  import opened Words
  import opened Sv39
  import opened PageTables
  import opened VmState
  import opened SimpleSystem
  import opened SimpleRuns
  import opened CopyOnWrite

  /** test_page_fault, for copies that need to write (PTE_W) or only to read (PTE_R). */
  ghost function TestFault(m: Mem, pd: Ppn, v: Vpn, write: bool): Res<Mem> {
    var p := Lookup(m.tab, pd, v);
    var (m1, _) :- IfMissing(m, pd, v, write);
    if Allowed(p, write) then Ok(m1)
    else
      var (m2, ok) :- FaultHandler(m1, pd, write, v);
      if ok then Ok(m2) else Panic
  }

  ghost function IfMissing(m: Mem, pd: Ppn, v: Vpn, write: bool): Res<(Mem, bool)> {
    if Lookup(m.tab, pd, v).v then Ok((m, true)) else FaultHandler(m, pd, write, v)
  }

  /** A copy needs a frame: an address below the first page ends in a panic. */
  ghost function Prepare(m: Mem, pd: Ppn, v: Vpn, write: bool): Res<Mem> {
    var m1 :- TestFault(m, pd, v, write);
    if Lookup(m1.tab, pd, v).ppn == 0 then Panic else Ok(m1)
  }

  lemma FaultEntry(m: Mem, pd: Ppn, write: bool, v: Vpn, m': Mem)
    requires UserOk(m) && IsRoot(m.owner, pd)
    requires FaultHandler(m, pd, write, v) == Ok((m', true))
    ensures var p := Lookup(m'.tab, pd, v);
            && p.v && p.perm.u && (write ==> !p.perm.cow)
            && (Lookup(m.tab, pd, v).perm.w ==> p.perm.w)
            && (Lookup(m.tab, pd, v).v ==> p.perm.w && write)
    ensures IsRoot(m'.owner, pd)
  {
    var p := Lookup(m.tab, pd, v);
    FaultIsRefill(m, pd, write, v, m');
    PageLength(m, pd, v);
    MapFreshRemaps(m, pd, v, PageAt(m, p), FaultPerm(p, write), m');
    assert UserEntry(m.boot, v, p);
    assert Lookup(m'.tab, pd, v) == FreshEntry(m, FaultPerm(p, write));
  }

  /** The first half of test_page_fault: no byte changes, and a page with permissions is present after it. */
  lemma FirstFault(m: Mem, pd: Ppn, v: Vpn, write: bool, m1: Mem, again: bool)
    requires UserOk(m) && IsRoot(m.owner, pd)
    requires IfMissing(m, pd, v, write) == Ok((m1, again))
    ensures UserOk(m1) && AllViews(m1) == AllViews(m) && Touched(AllKinds(m), pd, AllKinds(m1)) && IsRoot(m1.owner, pd)
    ensures Lookup(m.tab, pd, v).v || !again ==> m1 == m
    ensures again ==> Lookup(m1.tab, pd, v).v && (Lookup(m.tab, pd, v).perm.w ==> Lookup(m1.tab, pd, v).perm.w)
  {
    hide UserOk, AllViews, AllKinds, Touched, Lookup;
    FirstFaultParts(m, pd, v, write, m1, again);
    if Lookup(m.tab, pd, v).v {
      TouchedNot(AllKinds(m), pd);
    } else {
      FaultKeepsViews(m, pd, write, v, m1, again);
      RootIs(m, pd);
      RootIs(m1, pd);
      if again { FaultEntry(m, pd, write, v, m1); }
    }
  }

  lemma FirstFaultParts(m: Mem, pd: Ppn, v: Vpn, write: bool, m1: Mem, again: bool)
    requires IfMissing(m, pd, v, write) == Ok((m1, again))
    ensures Lookup(m.tab, pd, v).v ==> again
    ensures Lookup(m.tab, pd, v).v || !again ==> m1 == m
    ensures !Lookup(m.tab, pd, v).v ==> FaultHandler(m, pd, write, v) == Ok((m1, again))
  {
  }

  lemma SecondFault(m: Mem, pd: Ppn, v: Vpn, write: bool, m': Mem)
    requires UserOk(m) && IsRoot(m.owner, pd) && Lookup(m.tab, pd, v).v
    requires FaultHandler(m, pd, write, v) == Ok((m', true))
    ensures UserOk(m') && AllViews(m') == AllViews(m) && Touched(AllKinds(m), pd, AllKinds(m')) && IsRoot(m'.owner, pd)
    ensures Storable(Lookup(m'.tab, pd, v))
  {
    FaultKeepsViews(m, pd, write, v, m', true);
    FaultEntry(m, pd, write, v, m');
  }

  predicate Allowed(p: Pte, write: bool) {
    if write then p.perm.w else p.perm.r
  }

  lemma TestFaultParts(m: Mem, pd: Ppn, v: Vpn, write: bool, m': Mem) returns (m1: Mem, again: bool)
    requires TestFault(m, pd, v, write) == Ok(m')
    ensures IfMissing(m, pd, v, write) == Ok((m1, again))
    ensures if Allowed(Lookup(m.tab, pd, v), write) then m' == m1 else FaultHandler(m1, pd, write, v) == Ok((m', true))
  {
    m1, again := IfMissing(m, pd, v, write).value.0, IfMissing(m, pd, v, write).value.1;
  }

  /** A fault that was refused once is refused again. */
  lemma RefusedTwice(m: Mem, pd: Ppn, v: Vpn, write: bool, m1: Mem, again: bool, m': Mem)
    requires IfMissing(m, pd, v, write) == Ok((m1, again)) && (Lookup(m.tab, pd, v).v || !again ==> m1 == m)
    requires FaultHandler(m1, pd, write, v) == Ok((m', true))
    ensures again
  {
  }

  /** After test_page_fault no byte has changed, and a page that has a frame may be copied to or from. */
  lemma TestFaultOk(m: Mem, pd: Ppn, v: Vpn, write: bool, m': Mem)
    requires UserOk(m) && IsRoot(m.owner, pd)
    requires TestFault(m, pd, v, write) == Ok(m')
    ensures UserOk(m') && AllViews(m') == AllViews(m) && Touched(AllKinds(m), pd, AllKinds(m')) && IsRoot(m'.owner, pd)
    ensures Lookup(m'.tab, pd, v).v && write ==> Storable(Lookup(m'.tab, pd, v))
  {
    hide FaultHandler, IfMissing, UserOk, AllViews, AllKinds, Touched, TestFault, Lookup;
    var m1, again := TestFaultParts(m, pd, v, write, m');
    FirstFault(m, pd, v, write, m1, again);
    if !Allowed(Lookup(m.tab, pd, v), write) {
      RefusedTwice(m, pd, v, write, m1, again, m');
      SecondFault(m1, pd, v, write, m');
      TouchedTwice(AllKinds(m), pd, AllKinds(m1), AllKinds(m'));
    }
  }

  lemma HasFrame(m: Mem, pd: Ppn, v: Vpn)
    requires Whole(m) && IsRoot(m.owner, pd) && Lookup(m.tab, pd, v).ppn != 0
    ensures Lookup(m.tab, pd, v).v
  {
    if HasPath(m.tab, pd, v) { LeafOwner(m.tab, m.owner, pd, v); }
  }

  lemma PrepareOk(m: Mem, pd: Ppn, v: Vpn, write: bool, m': Mem)
    requires UserOk(m) && IsRoot(m.owner, pd) && Prepare(m, pd, v, write) == Ok(m')
    ensures UserOk(m') && AllViews(m') == AllViews(m) && Touched(AllKinds(m), pd, AllKinds(m')) && IsRoot(m'.owner, pd)
    ensures Lookup(m'.tab, pd, v).v && (write ==> Storable(Lookup(m'.tab, pd, v))) && KindAt(AllKinds(m'), pd, v) != Lazy
  {
    hide TestFault, AllViews, AllKinds, Touched, Lookup, CowOk, UserPages, BootHeld, Whole;
    TestFaultOk(m, pd, v, write, m');
    HasFrame(m', pd, v);
    KindIs(m', pd, v);
  }

  // ---- copy_out ------------------------------------------------------------------

  function Chunk(uptr: nat, len: nat): (n: nat)
    ensures n <= len && uptr % PAGE_SIZE + n <= PAGE_SIZE
    ensures len > 0 ==> n > 0
  {
    if len < PAGE_SIZE - uptr % PAGE_SIZE then len else PAGE_SIZE - uptr % PAGE_SIZE
  }

  /** copyOutCallback on the part of the range that lies in its first page. */
  ghost function PutChunk(m: Mem, pd: Ppn, uptr: nat, bytes: seq<Byte>): Mem {
    var p := Lookup(m.tab, pd, VpnOf(uptr));
    if |PageAt(m, p)| != PAGE_SIZE || uptr % PAGE_SIZE + |bytes| > PAGE_SIZE then m
    else WriteFrame(m, p.ppn, Patch(PageAt(m, p), uptr % PAGE_SIZE, bytes))
  }

  /** copy_out: userToKernel with copyOutCallback and PTE_W. */
  ghost function CopyOut(m: Mem, pd: Ppn, uptr: nat, bytes: seq<Byte>): Res<Mem>
    decreases |bytes|
  {
    if |bytes| == 0 then Ok(m)
    else
      var m1 :- Prepare(m, pd, VpnOf(uptr), true);
      var n := Chunk(uptr, |bytes|);
      CopyOut(PutChunk(m1, pd, uptr, bytes[..n]), pd, uptr + n, bytes[n..])
  }

  /** One chunk of copy_out is one store of the simple system. */
  lemma PutChunkViews(m: Mem, pd: Ppn, uptr: nat, bytes: seq<Byte>, m': Mem)
    requires UserOk(m) && IsRoot(m.owner, pd) && Storable(Lookup(m.tab, pd, VpnOf(uptr)))
    requires uptr % PAGE_SIZE + |bytes| <= PAGE_SIZE && m' == PutChunk(m, pd, uptr, bytes)
    ensures UserOk(m') && IsRoot(m'.owner, pd) && AllKinds(m') == AllKinds(m)
    ensures AllViews(m') == PutAt(AllViews(m), AllKinds(m), pd, VpnOf(uptr), uptr % PAGE_SIZE, bytes)
  {
    hide AllViews, AllKinds, VpnOf, PutAt;
    var v := VpnOf(uptr);
    var p := Lookup(m.tab, pd, v);
    PageLength(m, pd, v);
    InUse(m, pd, v);
    WriteOk(m, p.ppn, Patch(PageAt(m, p), uptr % PAGE_SIZE, bytes));
    WriteViews(m, pd, v, uptr % PAGE_SIZE, bytes, m');
  }

  lemma ViewsSized(m: Mem)
    requires Whole(m)
    ensures Sized(AllViews(m))
  {
    forall q, u | q in AllViews(m) && u in AllViews(m)[q] ensures |AllViews(m)[q][u]| == PAGE_SIZE {
      PageLength(m, q, u);
    }
  }

  /**
   copy_out stores exactly its bytes, one after the other, into the pages of the one
   address space and the memory that is the same, over any number of present,
   copy-on-write and passive pages.
   */
  lemma {:induction false} CopyOutViews(m: Mem, pd: Ppn, uptr: nat, bytes: seq<Byte>, m': Mem)
    requires UserOk(m) && IsRoot(m.owner, pd)
    requires CopyOut(m, pd, uptr, bytes) == Ok(m')
    ensures UserOk(m') && CopiedOut(SimpleOf(m), pd, uptr, bytes, SimpleOf(m'))
    decreases |bytes|
  {
    hide AllViews, AllKinds, Prepare, VpnOf, PutAt, PutBytes, PutChunk, Touched, CowOk, UserPages, BootHeld, Whole, Lookup;
    RootIs(m, pd);
    if |bytes| == 0 {
      NothingOut(SimpleOf(m), pd, uptr, bytes);
    } else {
      var m1, m2, next, first, rest := CopyOutParts(m, pd, uptr, bytes, m');
      PrepareOk(m, pd, VpnOf(uptr), true, m1);
      PutChunkViews(m1, pd, uptr, first, m2);
      CopyOutViews(m2, pd, next, rest, m');
      ViewsSized(m);
      OutTwice(SimpleOf(m), SimpleOf(m1), SimpleOf(m'), pd, uptr, first, rest, bytes);
    }
  }

  lemma NothingOut(s: Simple, p: Ppn, uptr: nat, bytes: seq<Byte>)
    requires p in s.views && bytes == []
    ensures CopiedOut(s, p, uptr, bytes, s)
  {
    TouchedNot(s.kinds, p);
  }

  /** A chunk stored when the later pages had not been touched yet, and then the rest. */
  lemma OutTwice(s: Simple, s1: Simple, s': Simple, p: Ppn, uptr: nat, first: seq<Byte>, rest: seq<Byte>, bytes: seq<Byte>)
    requires Sized(s.views) && p in s.views && bytes == first + rest
    requires uptr % PAGE_SIZE + |first| <= PAGE_SIZE && KindAt(s1.kinds, p, VpnOf(uptr)) != Lazy
    requires s1.views == s.views && Touched(s.kinds, p, s1.kinds)
    requires CopiedOut(Simple(PutAt(s.views, s1.kinds, p, VpnOf(uptr), uptr % PAGE_SIZE, first), s1.kinds), p, uptr + |first|, rest, s')
    ensures CopiedOut(s, p, uptr, bytes, s')
  {
    hide VpnOf, PutAt, PutBytes, Touched;
    var v, off := VpnOf(uptr), uptr % PAGE_SIZE;
    TouchedTwice(s.kinds, p, s1.kinds, s'.kinds);
    PutKept(s.views, s1.kinds, p, s'.kinds, v, off, first);
    PutWhole(s.views, s'.kinds, p, uptr, first);
    PutJoin(s.views, s'.kinds, p, uptr, first, rest);
  }

  lemma CopyOutParts(m: Mem, pd: Ppn, uptr: nat, bytes: seq<Byte>, m': Mem)
    returns (m1: Mem, m2: Mem, next: nat, first: seq<Byte>, rest: seq<Byte>)
    requires |bytes| > 0 && CopyOut(m, pd, uptr, bytes) == Ok(m')
    ensures bytes == first + rest && |first| > 0 && uptr % PAGE_SIZE + |first| <= PAGE_SIZE && next == uptr + |first|
    ensures Prepare(m, pd, VpnOf(uptr), true) == Ok(m1)
    ensures m2 == PutChunk(m1, pd, uptr, first) && CopyOut(m2, pd, next, rest) == Ok(m')
  {
    hide Prepare, VpnOf, PutChunk;
    m1 := Prepare(m, pd, VpnOf(uptr), true).value;
    var n := Chunk(uptr, |bytes|);
    next, first, rest := uptr + n, bytes[..n], bytes[n..];
    m2 := PutChunk(m1, pd, uptr, first);
  }

  // ---- copy_in -------------------------------------------------------------------

  ghost function GetChunk(m: Mem, pd: Ppn, uptr: nat, n: nat): seq<Byte> {
    var page := PageAt(m, Lookup(m.tab, pd, VpnOf(uptr)));
    if uptr % PAGE_SIZE + n <= |page| then page[uptr % PAGE_SIZE..uptr % PAGE_SIZE + n] else []
  }

  /** copy_in: userToKernel with copyInCallback and PTE_R. */
  ghost function CopyIn(m: Mem, pd: Ppn, uptr: nat, n: nat): Res<(Mem, seq<Byte>)>
    decreases n
  {
    if n == 0 then Ok((m, []))
    else
      var m1 :- Prepare(m, pd, VpnOf(uptr), false);
      var k := Chunk(uptr, n);
      var (m2, rest) :- CopyIn(m1, pd, uptr + k, n - k);
      Ok((m2, GetChunk(m1, pd, uptr, k) + rest))
  }

  lemma GetChunkReads(m: Mem, pd: Ppn, uptr: nat, n: nat)
    requires Whole(m) && IsRoot(m.owner, pd) && uptr % PAGE_SIZE + n <= PAGE_SIZE
    ensures |GetChunk(m, pd, uptr, n)| == n && ReadsAs(ViewOf(m, pd), uptr, GetChunk(m, pd, uptr, n))
  {
    hide VpnOf;
    PageLength(m, pd, VpnOf(uptr));
    forall i | 0 <= i < n ensures ByteIs(ViewOf(m, pd), uptr + i, GetChunk(m, pd, uptr, n)[i]) {
      SamePage(uptr, i);
    }
  }

  lemma ReadsJoin(view: View, uptr: nat, next: nat, a: seq<Byte>, b: seq<Byte>, ab: seq<Byte>)
    requires ab == a + b && next == uptr + |a|
    requires ReadsAs(view, uptr, a) && ReadsAs(view, next, b)
    ensures ReadsAs(view, uptr, ab)
  {
    forall i | 0 <= i < |ab| ensures ByteIs(view, uptr + i, ab[i]) {
      if i < |a| { assert ByteIs(view, uptr + i, a[i]); }
      else { assert ByteIs(view, next + (i - |a|), b[i - |a|]); }
    }
  }

  lemma CopyInParts(m: Mem, pd: Ppn, uptr: nat, n: nat, m': Mem, bytes: seq<Byte>)
    returns (m1: Mem, k: nat, next: nat, left: nat, first: seq<Byte>, rest: seq<Byte>)
    requires n > 0 && CopyIn(m, pd, uptr, n) == Ok((m', bytes))
    ensures 0 < k <= n && uptr % PAGE_SIZE + k <= PAGE_SIZE && next == uptr + k && left == n - k
    ensures Prepare(m, pd, VpnOf(uptr), false) == Ok(m1)
    ensures first == GetChunk(m1, pd, uptr, k) && bytes == first + rest
    ensures CopyIn(m1, pd, next, left) == Ok((m', rest))
  {
    hide Prepare, VpnOf, GetChunk;
    m1 := Prepare(m, pd, VpnOf(uptr), false).value;
    k := Chunk(uptr, n);
    next, left, first := uptr + k, n - k, GetChunk(m1, pd, uptr, k);
    rest := CopyIn(m1, pd, next, left).value.1;
  }

  /** copy_in returns what the pages hold, private or shared, and changes no byte. */
  lemma {:induction false} CopyInReads(m: Mem, pd: Ppn, uptr: nat, n: nat, m': Mem, bytes: seq<Byte>)
    requires UserOk(m) && IsRoot(m.owner, pd)
    requires CopyIn(m, pd, uptr, n) == Ok((m', bytes))
    ensures UserOk(m') && |bytes| == n && CopiedIn(SimpleOf(m), pd, uptr, bytes, SimpleOf(m'))
    decreases n
  {
    hide Prepare, VpnOf, GetChunk, Touched, AllViews, AllKinds, Whole, CowOk, UserPages, BootHeld, Lookup, ReadsAs;
    RootIs(m, pd);
    if n == 0 {
      NothingIn(SimpleOf(m), pd, uptr, bytes);
    } else {
      var m1, k, next, left, first, rest := CopyInParts(m, pd, uptr, n, m', bytes);
      PrepareOk(m, pd, VpnOf(uptr), false, m1);
      RootIs(m1, pd);
      GetChunkReads(m1, pd, uptr, k);
      CopyInReads(m1, pd, next, left, m', rest);
      ReadsJoin(AllViews(m)[pd], uptr, next, first, rest, bytes);
      TouchedTwice(AllKinds(m), pd, AllKinds(m1), AllKinds(m'));
    }
  }

  lemma NothingIn(s: Simple, p: Ppn, uptr: nat, bytes: seq<Byte>)
    requires p in s.views && bytes == []
    ensures CopiedIn(s, p, uptr, bytes, s)
  {
    TouchedNot(s.kinds, p);
  }

  /**
   A copy_in of the range returns what copy_out has put there if and only if bytes
   agree that fall on one place, which is possible only where the process has mapped
   one shared frame twice inside the range.
   */
  lemma CopyRoundTrip(m: Mem, pd: Ppn, uptr: nat, bytes: seq<Byte>, m1: Mem, m2: Mem, read: seq<Byte>)
    requires UserOk(m) && IsRoot(m.owner, pd) && Covered(ViewOf(m, pd), uptr, |bytes|)
    requires CopyOut(m, pd, uptr, bytes) == Ok(m1) && CopyIn(m1, pd, uptr, |bytes|) == Ok((m2, read))
    ensures read == bytes <==> Agreeing(AllKinds(m), pd, uptr, bytes)
  {
    hide AllViews, AllKinds, CopyOut, CopyIn, PutBytes, Covered, Agreeing, Touched, ReadsAs;
    RootIs(m, pd);
    CopyOutViews(m, pd, uptr, bytes, m1);
    ViewsSized(m);
    RootIs(m1, pd);
    PutBytesKeys(AllViews(m), AllKinds(m1), pd, uptr, bytes);
    CopyInReads(m1, pd, uptr, |bytes|, m2, read);
    ReadBack(AllViews(m), AllKinds(m1), pd, uptr, bytes, read);
    AgreeingKept(AllKinds(m), pd, AllKinds(m1), uptr, bytes);
  }
}
