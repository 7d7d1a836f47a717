/**
 The three pages every address space has above user memory: the code that enters
 the kernel, the code that returns from a signal handler, and the trap frame.  Every
 process gets them at birth or by fork, and keeps them whatever the processes do.
 */
module FixedPages {
  import opened Panics
  import opened Words
  import opened Sv39
  import opened PageTables
  import opened VmState
  import opened Boot
  import opened SimpleSystem
  import opened SimpleRuns
  import opened CopyOnWrite
  import opened Transfer
  import opened Fork
  import opened TableWalk
  import opened ForkWalk
  import opened Recycle
  import opened Processes
  import AccessRights

  /** A kernel page everybody may execute in supervisor mode. */
  ghost predicate EntryCode(e: Pte, f: Ppn, ad: bool) {
    e.v && e.ppn == f && e.perm == Perm(true, false, true, false, true, ad, ad, false, false)
  }

  /** A kernel page the process may execute itself. */
  ghost predicate ReturnCode(e: Pte, f: Ppn, ad: bool) {
    e.v && e.ppn == f && e.perm == Perm(true, false, true, true, false, ad, ad, false, false)
  }

  /** A page only the kernel may read and write. */
  ghost predicate KernelData(e: Pte, ad: bool) {
    e.v && e.perm == Perm(true, true, false, false, false, ad, ad, false, false)
  }

  /** What stands at the three addresses of include/mm/memlayout.h. */
  ghost predicate Fixed(m: Mem, c: Ppn, tramp: Ppn, sig: Ppn, ad: bool) {
    && IsRoot(m.owner, c)
    && EntryCode(Lookup(m.tab, c, VpnOf(TRAMPOLINE)), tramp, ad)
    && ReturnCode(Lookup(m.tab, c, VpnOf(SIGNAL_TRAMPOLINE)), sig, ad)
    && KernelData(Lookup(m.tab, c, VpnOf(TRAPFRAME)), ad)
  }

  // ---- a new address space ---------------------------------------------------------------

  /** The trap frame is a zeroed frame that was free before. */
  lemma InitUptFixed(m: Mem, tramp: Ppn, sig: Ppn, m': Mem, c: Ppn)
    requires UserOk(m) && BootFrame(m, tramp) && BootFrame(m, sig)
    requires InitUpt(m, tramp, sig) == Ok((m', c))
    ensures UserOk(m') && Fixed(m', c, tramp, sig, m.ad)
    ensures PageAt(m', Lookup(m'.tab, c, VpnOf(TRAPFRAME))) == ZeroPage()
    ensures m'.ad == m.ad
  {
    hide InitUpt, Map, MapFresh, UserOk, AllViews, AllKinds, NewRoot, Lookup, PageAt, ZeroPage, VpnOf;
    SpecialPages();
    var m1, m2, m3 := InitUptParts(m, tramp, sig, m', c);
    NewRootBorn(m, m1);
    NewRootAd(m);
    MapBoot(m1, c, V_TRAMPOLINE, tramp, PERM_TRAMPOLINE, m2);
    MapBootSame(m1, c, V_TRAMPOLINE, tramp, PERM_TRAMPOLINE, m2);
    BornStep(m, m1, m2, c, V_TRAMPOLINE);
    MapBoot(m2, c, V_SIGNAL, sig, PERM_SIGNAL, m3);
    MapBootSame(m2, c, V_SIGNAL, sig, PERM_SIGNAL, m3);
    BornStep(m, m2, m3, c, V_SIGNAL);
    MapTrapframe(m3, c, V_TRAPFRAME, m');
    FreshTrapframe(m3, c, V_TRAPFRAME, m');
    assert Lookup(m3.tab, c, V_TRAMPOLINE) == Lookup(m2.tab, c, V_TRAMPOLINE);
    assert Lookup(m'.tab, c, V_TRAMPOLINE) == Lookup(m3.tab, c, V_TRAMPOLINE);
    assert Lookup(m'.tab, c, V_SIGNAL) == Lookup(m3.tab, c, V_SIGNAL);
    BornStep(m, m3, m', c, V_TRAPFRAME);
  }

  lemma NewRootAd(m: Mem)
    requires m.free != [] && m.free[0] in m.ref && m.free[0] in m.hold
    ensures NewRoot(m).ad == m.ad
  {
  }

  lemma FreshTrapframe(m: Mem, c: Ppn, v: Vpn, m': Mem)
    requires UserOk(m) && IsRoot(m.owner, c) && MapFresh(m, c, v, ZeroPage(), PERM_TRAPFRAME) == Ok(m')
    ensures KernelData(Lookup(m'.tab, c, v), m.ad) && PageAt(m', Lookup(m'.tab, c, v)) == ZeroPage() && m'.ad == m.ad
  {
    hide MapFresh, Lookup, CowOk, UserPages, BootHeld, PageAt;
    MapFreshRemaps(m, c, v, ZeroPage(), PERM_TRAPFRAME, m');
  }

  /** The trap frame's frame is named by no other entry of any process. */
  lemma TrapframeAlone(m: Mem, c: Ppn, tramp: Ppn, sig: Ppn, ad: bool)
    requires UserOk(m) && Fixed(m, c, tramp, sig, ad)
    ensures Exclusive(m, Lookup(m.tab, c, VpnOf(TRAPFRAME)).ppn, c, VpnOf(TRAPFRAME))
  {
    hide Lookup, Whole, UserPages, BootHeld, VpnOf;
    var v := VpnOf(TRAPFRAME);
    var e := Lookup(m.tab, c, v);
    forall q, u: Vpn | IsRoot(m.owner, q) && !(q == c && u == v)
      ensures !(Lookup(m.tab, q, u).v && Lookup(m.tab, q, u).ppn == e.ppn)
    {
      assert Apart(e, Lookup(m.tab, q, u));
    }
  }

  // ---- what a step keeps --------------------------------------------------------------------

  /** The bytes of the kernel's own pages, the two pages of code among them. */
  ghost function Text(m: Mem): map<Ppn, Page> {
    map f | f in m.boot && f in m.data :: m.data[f]
  }

  /** The processes qs still have the same entries above user memory, and the kernel's own pages are as before. */
  ghost predicate Above(m: Mem, m': Mem, qs: iset<Ppn>) {
    && Text(m') == Text(m) && m'.ad == m.ad && (forall q | q in qs :: IsRoot(m'.owner, q))
    && forall q, u: Vpn {:trigger Lookup(m'.tab, q, u)} | q in qs && Special(u) :: Lookup(m'.tab, q, u) == Lookup(m.tab, q, u)
  }

  lemma AboveTwice(m: Mem, m1: Mem, m2: Mem, qs: iset<Ppn>)
    requires Above(m, m1, qs) && Above(m1, m2, qs)
    ensures Above(m, m2, qs)
  {
    hide Lookup, Text;
    forall q, u: Vpn | q in qs && Special(u) ensures Lookup(m2.tab, q, u) == Lookup(m.tab, q, u) {
      assert Lookup(m1.tab, q, u) == Lookup(m.tab, q, u);
    }
  }

  lemma ViewText(m: Mem, m': Mem)
    requires UserOk(m) && SameView(m, m')
    ensures Text(m') == Text(m)
  {
    hide CowOk, UserPages;
    BootNotFree(m);
  }

  ghost predicate Roots(m: Mem, qs: iset<Ppn>) {
    forall q | q in qs :: IsRoot(m.owner, q)
  }

  /** Special pages that a fault cannot touch and sys_map passes over. */
  ghost predicate Solid(m: Mem, qs: iset<Ppn>) {
    Roots(m, qs) && forall q, u: Vpn {:trigger Lookup(m.tab, q, u)} | q in qs && Special(u) ::
      Lookup(m.tab, q, u).v && !Lookup(m.tab, q, u).perm.cow && Lookup(m.tab, q, u).ppn != 0
  }

  ghost predicate AllFixed(m: Mem, qs: iset<Ppn>, tramp: Ppn, sig: Ppn, ad: bool) {
    forall q | q in qs :: Fixed(m, q, tramp, sig, ad)
  }

  lemma FixedSolid(m: Mem, qs: iset<Ppn>, tramp: Ppn, sig: Ppn, ad: bool)
    requires UserOk(m) && AllFixed(m, qs, tramp, sig, ad)
    ensures Solid(m, qs)
  {
    hide Lookup, UserOk, VpnOf;
    SpecialPages();
    forall q, u: Vpn | q in qs && Special(u)
      ensures Lookup(m.tab, q, u).v && !Lookup(m.tab, q, u).perm.cow && Lookup(m.tab, q, u).ppn != 0
    {
      assert u == VpnOf(TRAMPOLINE) || u == VpnOf(SIGNAL_TRAMPOLINE) || u == VpnOf(TRAPFRAME);
      assert Fixed(m, q, tramp, sig, ad);
      ValidFrame(m, q, u);
    }
  }

  lemma ValidFrame(m: Mem, q: Ppn, u: Vpn)
    requires UserOk(m) && IsRoot(m.owner, q) && Lookup(m.tab, q, u).v
    ensures Lookup(m.tab, q, u).ppn != 0 && Lookup(m.tab, q, u).ppn in m.data
  {
    hide Lookup, CowOk, UserPages, BootHeld;
    InUse(m, q, u);
  }

  lemma AboveSolid(m: Mem, m': Mem, qs: iset<Ppn>)
    requires Solid(m, qs) && Above(m, m', qs)
    ensures Solid(m', qs)
  {
    hide Lookup, Text;
  }

  lemma AboveRoots(m: Mem, m': Mem, qs: iset<Ppn>)
    requires Above(m, m', qs)
    ensures Roots(m', qs)
  {
  }

  lemma AboveFixed(m: Mem, m': Mem, qs: iset<Ppn>, tramp: Ppn, sig: Ppn, ad: bool)
    requires AllFixed(m, qs, tramp, sig, ad) && Above(m, m', qs)
    ensures AllFixed(m', qs, tramp, sig, ad)
  {
    hide Lookup, Text, VpnOf;
    SpecialPages();
    forall q | q in qs ensures Fixed(m', q, tramp, sig, ad) {
      assert Fixed(m, q, tramp, sig, ad);
    }
  }

  lemma RemapAbove(m: Mem, m': Mem, p: Ppn, v: Vpn, e: Pte, qs: iset<Ppn>)
    requires UserOk(m) && Roots(m, qs) && Remapped(m, m', p, v, e) && !(p in qs && Special(v))
    ensures Above(m, m', qs)
  {
    hide Lookup, UserOk, Text, Stable;
    ViewText(m, m');
  }

  lemma FaultAbove(m: Mem, p: Ppn, write: bool, v: Vpn, m': Mem, again: bool, qs: iset<Ppn>)
    requires UserOk(m) && IsRoot(m.owner, p) && Solid(m, qs) && FaultHandler(m, p, write, v) == Ok((m', again))
    ensures Above(m, m', qs)
  {
    hide Lookup, Text, CowOk, UserPages, BootHeld, CowHandler, PassiveHandler, Whole, AccessRights.RightsOf;
    if again {
      AccessRights.FaultRefills(m, p, write, v, m');
      assert !(p in qs && Special(v));
      RemapAbove(m, m', p, v, FreshEntry(m, FaultPerm(Lookup(m.tab, p, v), write)), qs);
    }
  }

  // ---- loads, stores and copies --------------------------------------------------------------

  /** What can be written is not one of the kernel's own pages. */
  lemma WriteAbove(m: Mem, p: Ppn, v: Vpn, page: Page, qs: iset<Ppn>)
    requires UserOk(m) && IsRoot(m.owner, p) && Roots(m, qs) && Storable(Lookup(m.tab, p, v))
    ensures Above(m, WriteFrame(m, Lookup(m.tab, p, v).ppn, page), qs)
  {
    hide Lookup, Whole, CowOk, BootHeld;
    assert UserEntry(m.boot, v, Lookup(m.tab, p, v));
    ValidFrame(m, p, v);
  }

  lemma SameAbove(m: Mem, qs: iset<Ppn>)
    requires Roots(m, qs)
    ensures Above(m, m, qs)
  {
  }

  lemma StoreByteAbove(m: Mem, p: Ppn, v: Vpn, off: nat, b: Byte, qs: iset<Ppn>)
    requires UserOk(m) && IsRoot(m.owner, p) && Roots(m, qs) && UserWritable(Lookup(m.tab, p, v))
    ensures Above(m, StoreByte(m, p, v, off, b), qs)
  {
    hide Lookup, UserOk, PageAt, Patch, WriteFrame, Above;
    SameAbove(m, qs);
    var e := Lookup(m.tab, p, v);
    if off < |PageAt(m, e)| { WriteAbove(m, p, v, Patch(PageAt(m, e), off, [b]), qs); }
  }

  lemma StoreAbove(m: Mem, p: Ppn, v: Vpn, off: nat, b: Byte, m': Mem, done: bool, qs: iset<Ppn>)
    requires UserOk(m) && IsRoot(m.owner, p) && Solid(m, qs) && UserStore(m, p, v, off, b) == Ok((m', done))
    ensures Above(m, m', qs)
  {
    hide Lookup, UserOk, FaultHandler, StoreByte, AllViews, AllKinds, Touched, Above, AccessRights.RightsOf;
    if UserWritable(Lookup(m.tab, p, v)) {
      StoreByteAbove(m, p, v, off, b, qs);
    } else {
      var (m1, again) := FaultHandler(m, p, true, v).value;
      FaultAbove(m, p, true, v, m1, again, qs);
      AccessRights.FaultRights(m, p, true, v, m1, again);
      if done {
        AboveSolid(m, m1, qs);
        StoreByteAbove(m1, p, v, off, b, qs);
        AboveTwice(m, m1, m', qs);
      }
    }
  }

  lemma LoadAbove(m: Mem, p: Ppn, v: Vpn, off: nat, m': Mem, done: bool, b: Byte, qs: iset<Ppn>)
    requires UserOk(m) && IsRoot(m.owner, p) && Solid(m, qs) && UserLoad(m, p, v, off) == Ok((m', done, b))
    ensures Above(m, m', qs)
  {
    hide Lookup, UserOk, FaultHandler, ByteAt, Above;
    if UserReadable(Lookup(m.tab, p, v)) {
      SameAbove(m, qs);
    } else {
      var (m1, again) := FaultHandler(m, p, false, v).value;
      FaultAbove(m, p, false, v, m1, again, qs);
    }
  }

  lemma PrepareAbove(m: Mem, p: Ppn, v: Vpn, write: bool, m': Mem, qs: iset<Ppn>)
    requires UserOk(m) && IsRoot(m.owner, p) && Solid(m, qs) && Prepare(m, p, v, write) == Ok(m')
    ensures Above(m, m', qs)
  {
    hide Lookup, UserOk, FaultHandler, Above, AccessRights.RightsOf;
    var m1, again := TestFaultParts(m, p, v, write, m');
    if Lookup(m.tab, p, v).v {
      SameAbove(m, qs);
    } else {
      FaultAbove(m, p, write, v, m1, again, qs);
      AccessRights.FaultRights(m, p, write, v, m1, again);
      AboveSolid(m, m1, qs);
    }
    if !Allowed(Lookup(m.tab, p, v), write) {
      FaultAbove(m1, p, write, v, m', true, qs);
      AboveTwice(m, m1, m', qs);
    }
  }

  lemma PutChunkAbove(m: Mem, p: Ppn, uptr: nat, bytes: seq<Byte>, qs: iset<Ppn>)
    requires UserOk(m) && IsRoot(m.owner, p) && Roots(m, qs) && Storable(Lookup(m.tab, p, VpnOf(uptr)))
    ensures Above(m, PutChunk(m, p, uptr, bytes), qs)
  {
    hide Lookup, UserOk, PageAt, Patch, WriteFrame, Above, VpnOf;
    SameAbove(m, qs);
    var e := Lookup(m.tab, p, VpnOf(uptr));
    if |PageAt(m, e)| == PAGE_SIZE && uptr % PAGE_SIZE + |bytes| <= PAGE_SIZE {
      WriteAbove(m, p, VpnOf(uptr), Patch(PageAt(m, e), uptr % PAGE_SIZE, bytes), qs);
    }
  }

  lemma {:induction false} CopyOutAbove(m: Mem, p: Ppn, uptr: nat, bytes: seq<Byte>, m': Mem, qs: iset<Ppn>)
    requires UserOk(m) && IsRoot(m.owner, p) && Solid(m, qs) && CopyOut(m, p, uptr, bytes) == Ok(m')
    ensures Above(m, m', qs)
    decreases |bytes|
  {
    hide AllViews, AllKinds, Prepare, VpnOf, PutAt, PutChunk, Touched, UserOk, Lookup, Above;
    if |bytes| == 0 {
      SameAbove(m, qs);
    } else {
      var m1, m2, next, first, rest := CopyOutParts(m, p, uptr, bytes, m');
      PrepareOk(m, p, VpnOf(uptr), true, m1);
      PrepareAbove(m, p, VpnOf(uptr), true, m1, qs);
      AboveSolid(m, m1, qs);
      PutChunkViews(m1, p, uptr, first, m2);
      PutChunkAbove(m1, p, uptr, first, qs);
      AboveSolid(m1, m2, qs);
      CopyOutAbove(m2, p, next, rest, m', qs);
      AboveTwice(m, m1, m2, qs);
      AboveTwice(m, m2, m', qs);
    }
  }

  lemma {:induction false} CopyInAbove(m: Mem, p: Ppn, uptr: nat, n: nat, m': Mem, bytes: seq<Byte>, qs: iset<Ppn>)
    requires UserOk(m) && IsRoot(m.owner, p) && Solid(m, qs) && CopyIn(m, p, uptr, n) == Ok((m', bytes))
    ensures Above(m, m', qs)
    decreases n
  {
    hide AllViews, AllKinds, Prepare, VpnOf, GetChunk, Touched, UserOk, Lookup, Above;
    if n == 0 {
      SameAbove(m, qs);
    } else {
      var m1, k, next, left, first, rest := CopyInParts(m, p, uptr, n, m', bytes);
      PrepareOk(m, p, VpnOf(uptr), false, m1);
      PrepareAbove(m, p, VpnOf(uptr), false, m1, qs);
      AboveSolid(m, m1, qs);
      CopyInAbove(m1, p, next, left, m', rest, qs);
      AboveTwice(m, m1, m', qs);
    }
  }

  // ---- mappings and processes ----------------------------------------------------------------

  lemma MapPageAbove(m: Mem, p: Ppn, v: Vpn, perm: Perm, m': Mem, qs: iset<Ppn>)
    requires UserOk(m) && IsRoot(m.owner, p) && Solid(m, qs) && perm.u && !perm.cow && MapPage(m, p, v, perm) == Ok(m')
    ensures Above(m, m', qs)
  {
    hide Map, MapFresh, Lookup, CowOk, UserPages, BootHeld, VaOf, Text;
    if Lookup(m.tab, p, v).ppn == 0 {
      if VaOf(v) < PASSIVE_THRESHOLD {
        MapFreshRemaps(m, p, v, ZeroPage(), perm, m');
        RemapAbove(m, m', p, v, FreshEntry(m, perm), qs);
      } else {
        MapRemaps(m, p, v, 0, perm, m');
        RemapAbove(m, m', p, v, Pte(false, 0, perm), qs);
      }
    }
  }

  lemma UnmapAbove(m: Mem, p: Ppn, v: Vpn, m': Mem, qs: iset<Ppn>)
    requires UserOk(m) && IsRoot(m.owner, p) && Roots(m, qs) && Unmap(m, p, v) == Ok(m') && !(p in qs && Special(v))
    ensures Above(m, m', qs)
  {
    hide Lookup, CowOk, UserPages, BootHeld, Text;
    UnmapRemaps(m, p, v);
    RemapAbove(m, m', p, v, ZERO_PTE, qs);
  }

  lemma NewRootText(m: Mem)
    requires UserOk(m) && m.free != [] && m.free[0] in m.ref && m.free[0] in m.hold
    ensures Text(NewRoot(m)) == Text(m)
  {
    BootNotFree(m);
    assert m.free[0] in m.free;
  }

  lemma MapBootText(m: Mem, c: Ppn, v: Vpn, f: Ppn, perm: Perm, m': Mem)
    requires UserOk(m) && IsRoot(m.owner, c) && BootFrame(m, f) && Map(m, c, v, f, perm) == Ok(m')
    ensures Text(m') == Text(m) && m'.ad == m.ad
  {
    hide Map, Lookup, CowOk, UserPages, BootHeld, Text, Stable;
    BootMappable(m, f);
    MapRemaps(m, c, v, f, perm, m');
    ViewText(m, m');
  }

  lemma MapFreshText(m: Mem, c: Ppn, v: Vpn, page: Page, perm: Perm, m': Mem)
    requires UserOk(m) && IsRoot(m.owner, c) && |page| == PAGE_SIZE && MapFresh(m, c, v, page, perm) == Ok(m')
    ensures Text(m') == Text(m) && m'.ad == m.ad
  {
    hide MapFresh, Lookup, CowOk, UserPages, BootHeld, Text, Stable;
    MapFreshRemaps(m, c, v, page, perm, m');
    ViewText(m, m');
  }

  lemma InitUptText(m: Mem, tramp: Ppn, sig: Ppn, m': Mem, c: Ppn)
    requires UserOk(m) && BootFrame(m, tramp) && BootFrame(m, sig) && InitUpt(m, tramp, sig) == Ok((m', c))
    ensures Text(m') == Text(m) && m'.ad == m.ad
  {
    hide InitUpt, Map, MapFresh, UserOk, AllViews, AllKinds, NewRoot, Lookup, Text, ZeroPage;
    var m1, m2, m3 := InitUptParts(m, tramp, sig, m', c);
    NewRootBorn(m, m1);
    NewRootText(m);
    MapBootText(m1, c, V_TRAMPOLINE, tramp, PERM_TRAMPOLINE, m2);
    MapBoot(m1, c, V_TRAMPOLINE, tramp, PERM_TRAMPOLINE, m2);
    BornStep(m, m1, m2, c, V_TRAMPOLINE);
    MapBootText(m2, c, V_SIGNAL, sig, PERM_SIGNAL, m3);
    MapBoot(m2, c, V_SIGNAL, sig, PERM_SIGNAL, m3);
    BornStep(m, m2, m3, c, V_SIGNAL);
    MapFreshText(m3, c, V_TRAPFRAME, ZeroPage(), PERM_TRAPFRAME, m');
    NewRootAd(m);
  }

  lemma SpawnAbove(m: Mem, tramp: Ppn, sig: Ppn, m': Mem, c: Ppn, qs: iset<Ppn>)
    requires UserOk(m) && BootFrame(m, tramp) && BootFrame(m, sig) && InitUpt(m, tramp, sig) == Ok((m', c)) && Roots(m, qs)
    ensures Above(m, m', qs)
  {
    hide InitUpt, UserOk, AllViews, AllKinds, Lookup, Text;
    InitUptText(m, tramp, sig, m', c);
    InitUptBorn(m, tramp, sig, m', c);
    forall q | q in qs ensures IsRoot(m'.owner, q) {
      RootIs(m, q);
      RootIs(m', q);
    }
  }

  /** Fork leaves every entry above user memory where proc_initupt and the other processes had it. */
  lemma DupAbove(m0: Mem, m': Mem, p: Ppn, c: Ppn, qs: iset<Ppn>)
    requires UserOk(m0) && Forkable(m0, p, c) && HasSpecials(m0, c) && Dupd(m0, m', p, c, PAGE_COUNT) && Roots(m0, qs)
    ensures Above(m0, m', qs)
  {
    hide Lookup, UserOk, Text, Stable, Num;
    ViewText(m0, m');
    forall q, u: Vpn | q in qs && Special(u) ensures Lookup(m'.tab, q, u) == Lookup(m0.tab, q, u) {
      assert Skipped(m0, p, c, u);
      assert Lookup(m'.tab, q, u) == Expect(m0, p, c, PAGE_COUNT, q, u);
    }
  }

  lemma ForkAbove(m: Mem, p: Ppn, tramp: Ppn, sig: Ppn, m': Mem, c: Ppn, qs: iset<Ppn>)
    requires UserOk(m) && IsRoot(m.owner, p) && BootFrame(m, tramp) && BootFrame(m, sig) && Roots(m, qs)
    requires ForkSpace(m, p, tramp, sig) == Ok((m', c))
    ensures Above(m, m', qs)
  {
    hide InitUpt, PdWalk, Lookup, AllViews, AllKinds, CowOk, UserPages, BootHeld, Whole, Above, Expect, Stable, HasSpecials, Text;
    var m0 := ForkParts(m, p, tramp, sig, m', c);
    InitUptBorn(m, tramp, sig, m0, c);
    RootIs(m, p);
    RootIs(m0, p);
    DupWalk(m0, p, c, m');
    SpawnAbove(m, tramp, sig, m0, c, qs);
    AboveRoots(m, m0, qs);
    DupAbove(m0, m', p, c, qs);
    AboveTwice(m, m0, m', qs);
  }

  /** The child of a fork has the three pages, its trap frame zeroed, as any new process. */
  lemma ForkFixed(m: Mem, p: Ppn, tramp: Ppn, sig: Ppn, m': Mem, c: Ppn)
    requires UserOk(m) && IsRoot(m.owner, p) && BootFrame(m, tramp) && BootFrame(m, sig)
    requires ForkSpace(m, p, tramp, sig) == Ok((m', c))
    ensures Fixed(m', c, tramp, sig, m.ad) && PageAt(m', Lookup(m'.tab, c, VpnOf(TRAPFRAME))) == ZeroPage() && m'.ad == m.ad
  {
    hide InitUpt, PdWalk, Lookup, AllViews, AllKinds, CowOk, UserPages, BootHeld, Whole, Expect, HasSpecials, Text, PageAt, VpnOf;
    var m0 := ForkParts(m, p, tramp, sig, m', c);
    InitUptBorn(m, tramp, sig, m0, c);
    InitUptFixed(m, tramp, sig, m0, c);
    RootIs(m, p);
    RootIs(m0, p);
    DupWalk(m0, p, c, m');
    DupAbove(m0, m', p, c, iset{c});
    SpecialPages();
    StablePage(m0, m', c, VpnOf(TRAPFRAME));
  }

  lemma StablePage(m: Mem, m': Mem, q: Ppn, u: Vpn)
    requires UserOk(m) && SameView(m, m') && IsRoot(m.owner, q) && Lookup(m.tab, q, u).v
    ensures PageAt(m', Lookup(m.tab, q, u)) == PageAt(m, Lookup(m.tab, q, u))
  {
    hide Lookup, CowOk, UserPages, BootHeld;
    InUse(m, q, u);
  }

  lemma ExitAbove(m: Mem, p: Ppn, m': Mem, qs: iset<Ppn>)
    requires UserOk(m) && IsRoot(m.owner, p) && RecycleSpace(m, p) == Ok(m') && Roots(m, qs) && p !in qs
    ensures Above(m, m', qs)
  {
    hide RecycleSpace, Lookup, CowOk, UserPages, BootHeld;
    RecycleRemoves(m, p);
    RecycledRoots(m, m', p);
    forall q, u: Vpn | q in qs ensures Lookup(m'.tab, q, u) == Lookup(m.tab, q, u) { RecycledLookup(m, m', p, q, u); }
  }

  // ---- runs ------------------------------------------------------------------------------------

  /** The processes that have the three pages after a step, given those that had them before. */
  ghost function Having(qs: iset<Ppn>, op: Op): iset<Ppn> {
    match op
    case Spawn(p) => qs + iset{p}
    case Fork(p, child) => qs + iset{child}
    case Exit(p) => qs - iset{p}
    case UnmapAt(p, v) => if Special(v) then qs - iset{p} else qs
    case _ => qs
  }

  lemma AccessAbove(tramp: Ppn, sig: Ppn, m: Mem, op: Op, m': Mem, qs: iset<Ppn>)
    requires UserOk(m) && Step(tramp, sig, m, op, m') && (op.Load? || op.Store? || op.Read? || op.Write?) && Solid(m, qs)
    ensures Above(m, m', qs)
  {
    hide UserOk, UserLoad, UserStore, CopyIn, CopyOut, Above, Solid;
    match op
    case Load(p, v, off, b, done) => LoadAbove(m, p, v, off, m', done, b, qs);
    case Store(p, v, off, b, done) => StoreAbove(m, p, v, off, b, m', done, qs);
    case Read(p, uptr, bytes) => CopyInAbove(m, p, uptr, |bytes|, m', bytes, qs);
    case Write(p, uptr, bytes) => CopyOutAbove(m, p, uptr, bytes, m', qs);
  }

  /** Processes that do not end or unmap one of the three pages keep them, and nobody changes the kernel's own pages. */
  lemma StepAbove(tramp: Ppn, sig: Ppn, m: Mem, op: Op, m': Mem, qs: iset<Ppn>)
    requires Started(tramp, sig, m) && Step(tramp, sig, m, op, m') && Solid(m, qs)
    requires op.Exit? || (op.UnmapAt? && Special(op.v)) ==> op.p !in qs
    ensures Above(m, m', qs)
  {
    hide UserOk, InitUpt, ForkSpace, RecycleSpace, MapPage, Unmap, Lookup, UserLoad, UserStore, CopyIn, CopyOut, Above;
    match op
    case Spawn(p) => SpawnAbove(m, tramp, sig, m', p, qs);
    case Fork(p, child) => ForkAbove(m, p, tramp, sig, m', child, qs);
    case Exit(p) => ExitAbove(m, p, m', qs);
    case MapAt(p, v, perm, added) => MapPageAbove(m, p, v, perm, m', qs);
    case UnmapAt(p, v) => UnmapAbove(m, p, v, m', qs);
    case _ => AccessAbove(tramp, sig, m, op, m', qs);
  }

  lemma StepFixed(tramp: Ppn, sig: Ppn, m: Mem, op: Op, m': Mem, qs: iset<Ppn>)
    requires Started(tramp, sig, m) && Step(tramp, sig, m, op, m') && AllFixed(m, qs, tramp, sig, m.ad)
    ensures AllFixed(m', Having(qs, op), tramp, sig, m.ad) && m'.ad == m.ad && Text(m') == Text(m)
  {
    hide UserOk, InitUpt, ForkSpace, RecycleSpace, MapPage, Unmap, Lookup, UserLoad, UserStore, CopyIn, CopyOut, Fixed, Text, PageAt;
    var rest := if op.Exit? || (op.UnmapAt? && Special(op.v)) then qs - iset{op.p} else qs;
    FixedSolid(m, rest, tramp, sig, m.ad);
    StepAbove(tramp, sig, m, op, m', rest);
    AboveFixed(m, m', rest, tramp, sig, m.ad);
    if op.Spawn? { InitUptFixed(m, tramp, sig, m', op.p); }
    if op.Fork? { ForkFixed(m, op.p, tramp, sig, m', op.child); }
  }

  ghost function HavingAll(qs: iset<Ppn>, ops: seq<Op>): iset<Ppn> {
    if ops == [] then qs else Having(HavingAll(qs, ops[..|ops| - 1]), ops[|ops| - 1])
  }

  /**
   In every run: a process has the three pages from its creation on, by spawn or fork,
   until it ends or unmaps one of them itself, and the kernel's own pages never change.
   */
  lemma {:induction false} RunFixed(tramp: Ppn, sig: Ppn, states: seq<Mem>, ops: seq<Op>, n: nat, qs: iset<Ppn>)
    requires Run(tramp, sig, states, ops) && Started(tramp, sig, states[0]) && n <= |ops|
    requires AllFixed(states[0], qs, tramp, sig, states[0].ad)
    ensures AllFixed(states[n], HavingAll(qs, ops[..n]), tramp, sig, states[0].ad)
    ensures Text(states[n]) == Text(states[0]) && states[n].ad == states[0].ad
  {
    hide Step, UserOk, Fixed, Text, Having;
    if n == 0 {
      assert ops[..0] == [];
    } else {
      RunFixed(tramp, sig, states, ops, n - 1, qs);
      RunKeeps(tramp, sig, states, ops, n - 1);
      assert ops[n - 1] == ops[n - 1] && ops[..n][..n - 1] == ops[..n - 1];
      StepFixed(tramp, sig, states[n - 1], ops[n - 1], states[n], HavingAll(qs, ops[..n - 1]));
    }
  }

  // ---- every process, from boot ------------------------------------------------------------------

  ghost function Alive(m: Mem): iset<Ppn> {
    iset q | IsRoot(m.owner, q)
  }

  lemma AliveStep(tramp: Ppn, sig: Ppn, m: Mem, op: Op, m': Mem)
    requires Started(tramp, sig, m) && Step(tramp, sig, m, op, m') && !(op.UnmapAt? && Special(op.v))
    ensures Alive(m') == Having(Alive(m), op)
  {
    hide Step, UserOk, AllViews, AllKinds, SetKind, PutAt, PutBytes, Touched, UserKinds;
    StepRefines(tramp, sig, m, op, m');
    forall q ensures q in Alive(m') <==> q in Having(Alive(m), op) {
      RootIs(m, q);
      RootIs(m', q);
      AliveViews(SimpleOf(m), op, SimpleOf(m'), q);
    }
  }

  lemma AliveViews(s: Simple, op: Op, s': Simple, q: Ppn)
    requires SimpleStep(s, op, s')
    ensures q in s'.views <==> (q in s.views || (op.Spawn? && q == op.p) || (op.Fork? && q == op.child)) && !(op.Exit? && q == op.p)
  {
    hide Touched, SetKind, ReadsAs, UserKinds, SetPage, PutBytes;
    if op.Write? { PutBytesKeys(s.views, s'.kinds, op.p, op.uptr, op.bytes); }
  }

  /**
   From boot on, as long as nobody unmaps one of the three pages, every process has them
   at every moment, with a trap frame that no other entry of any process names.
   */
  lemma EveryProcess(tramp: Ppn, sig: Ppn, ad: bool, base: Ppn, used: nat, npage: nat, states: seq<Mem>, ops: seq<Op>, n: nat, q: Ppn)
    requires base > 0 && used <= npage && base <= tramp < base + used && base <= sig < base + used
    requires Run(tramp, sig, states, ops) && states[0] == Booted(ad, base, used, npage) && n <= |ops|
    requires forall i | 0 <= i < n :: !(ops[i].UnmapAt? && Special(ops[i].v))
    requires IsRoot(states[n].owner, q)
    ensures Fixed(states[n], q, tramp, sig, ad)
    ensures Exclusive(states[n], Lookup(states[n].tab, q, VpnOf(TRAPFRAME)).ppn, q, VpnOf(TRAPFRAME))
  {
    hide Step, UserOk, Fixed, Text, Having, Lookup, VpnOf, Exclusive;
    BootedOk(ad, base, used, npage);
    RunFixed(tramp, sig, states, ops, n, iset{});
    AliveRun(tramp, sig, states, ops, n);
    RunKeeps(tramp, sig, states, ops, n);
    TrapframeAlone(states[n], q, tramp, sig, ad);
  }

  lemma {:induction false} AliveRun(tramp: Ppn, sig: Ppn, states: seq<Mem>, ops: seq<Op>, n: nat)
    requires Run(tramp, sig, states, ops) && Started(tramp, sig, states[0]) && n <= |ops| && states[0].owner == map[]
    requires forall i | 0 <= i < n :: !(ops[i].UnmapAt? && Special(ops[i].v))
    ensures Alive(states[n]) == HavingAll(iset{}, ops[..n])
  {
    hide Step, UserOk, Having;
    if n == 0 {
      assert ops[..0] == [];
    } else {
      AliveRun(tramp, sig, states, ops, n - 1);
      RunKeeps(tramp, sig, states, ops, n - 1);
      assert ops[n - 1] == ops[n - 1] && ops[..n][..n - 1] == ops[..n - 1];
      AliveStep(tramp, sig, states[n - 1], ops[n - 1], states[n]);
    }
  }
}
