/**
 Runs from boot that end where a caller would not expect: ptUnmap (kern/mm/vmm.c)
 returns with the lock held, and fork (kern/proc/fork.c) separates a shared page.
 */
module KernelCases {
  import opened Panics
  import opened Sv39
  import opened PageTables
  import opened VmState
  import opened Boot
  import opened FrameSupply
  import opened SimpleSystem
  import opened CopyOnWrite
  import opened Fork
  import opened PageVisits
  import opened TableWalk
  import opened ForkWalk
  import opened ForkSupply
  import opened PageSupply
  import opened KernelMemory

  // ---- ptUnmap ------------------------------------------------------------------------

  /** A page is mapped and its neighbour, which is not, is unmapped: the call is over and kvmlock is still held. */
  method UnmapKeepsLock(npage: nat, v: Vpn, w: Vpn) returns (depth: int)
    requires npage >= 3 && v.i == w.i && v.j == w.j && v != w
    ensures depth == 1
  {
    hide UserOk, Whole, Booted, NewRoot, Map, Unmap, Lookup, PathCost;
    var kernel := new Kernel.PmInit(false, 1, 0, npage);
    ghost var m0 := kernel.M();
    FreshRoot(m0, npage);
    var ok, pd := kernel.NewDirectory();
    ghost var m1 := kernel.M();
    FreshMap(m0, m1, v, w);
    ok := kernel.PtMap(pd, v, 0, NO_PERM.(u := true));
    FreshMapped(m1, pd, v, w, kernel.M());
    var mapped;
    ok, mapped := kernel.PtUnmap(pd, w);
    depth := kernel.kvmDepth;
  }

  lemma FreshRoot(m: Mem, npage: nat)
    requires m == Booted(false, 1, 0, npage) && npage >= 3
    ensures UserOk(m) && |m.free| == npage && m.free[0] in m.ref && m.free[0] in m.hold
  {
    BootedOk(false, 1, 0, npage);
    assert m.free[0] in m.free;
  }

  lemma FreshMap(m: Mem, m1: Mem, v: Vpn, w: Vpn)
    requires UserOk(m) && |m.free| >= 3 && m.free[0] in m.ref && m.free[0] in m.hold && m1 == NewRoot(m)
    ensures var pd := m.free[0];
            && Whole(m1) && IsRoot(m1.owner, pd) && Mappable(m1, 0) && PathCost(m1.tab, pd, v) <= |m1.free|
            && Lookup(m1.tab, pd, v) == Lookup(m1.tab, pd, w) == ZERO_PTE
            && Map(m1, pd, v, 0, NO_PERM.(u := true)).Ok?
  {
    NewRootWhole(m, m1);
    FreeHead(m);
    NewRootLookups(m.tab, m.free[0]);
    MapNeeds(m1, m.free[0], v, 0, NO_PERM.(u := true));
  }

  lemma FreshMapped(m: Mem, pd: Ppn, v: Vpn, w: Vpn, m': Mem)
    requires Whole(m) && IsRoot(m.owner, pd) && v.i == w.i && v.j == w.j && v != w && Lookup(m.tab, pd, w) == ZERO_PTE
    requires Mappable(m, 0) && Map(m, pd, v, 0, NO_PERM.(u := true)) == Ok(m')
    ensures Inv(m') && IsRoot(m'.owner, pd) && Unmap(m', pd, w) == Ok(m') && Lookup(m'.tab, pd, w) == ZERO_PTE
  {
    hide Map;
    MapRemaps(m, pd, v, 0, NO_PERM.(u := true), m');
    ZeroNeighbour(m', pd, v, w);
  }

  // ---- fork ---------------------------------------------------------------------------

  const SHARED_PERM := NO_PERM.(r := true, w := true, u := true, shared := true)

  /**
   A new address space maps any user page as shared, without a frame yet, and forks.
   When parent and child have touched the page each of them has a frame of its own.
   */
  method ForkSeparates(npage: nat, v: Vpn) returns (a: Pte, b: Pte)
    requires npage >= 16 && !Special(v)
    ensures a.v && b.v && a.perm.shared && b.perm.shared && a.ppn != b.ppn
  {
    hide UserOk, Booted, InitUpt, Map, ForkSpace, FaultHandler, Lookup, ForkCost;
    var kernel := new Kernel.PmInit(false, 1, 2, npage);
    ghost var m0 := kernel.M();
    TwoFrames(m0, npage);
    FirstSpace(m0, 1, 2, v);
    var ok, p := kernel.InitUserPt(1, 2);
    ghost var m1 := kernel.M();
    SharedPage(m1, p, v);
    ok := kernel.PtMap(p, v, 0, SHARED_PERM);
    ghost var m2 := kernel.M();
    ForkOnePage(m2, p, v);
    var c;
    ok, c := kernel.ForkPt(p, 1, 2);
    ghost var m3 := kernel.M();
    BothLazy(m2, p, 1, 2, m3, c, v);
    FirstTouch(m3, p, v);
    var again;
    ok, again := kernel.PageFault(p, true, v);
    ghost var m4 := kernel.M();
    FirstTouch(m4, c, v);
    ok, again := kernel.PageFault(c, true, v);
    a := kernel.PtLookup(p, v);
    b := kernel.PtLookup(c, v);
  }

  lemma TwoFrames(m: Mem, npage: nat)
    requires npage >= 16 && m == Booted(false, 1, 2, npage)
    ensures UserOk(m) && |m.free| == npage - 2 && BootFrame(m, 1) && BootFrame(m, 2) && !m.ad
  {
    BootedOk(false, 1, 2, npage);
  }

  lemma FirstSpace(m: Mem, tramp: Ppn, sig: Ppn, v: Vpn)
    requires UserOk(m) && |m.free| >= 14 && BootFrame(m, tramp) && BootFrame(m, sig) && !Special(v)
    ensures var r := InitUpt(m, tramp, sig);
            && r.Ok? && UserOk(r.value.0) && IsRoot(r.value.0.owner, r.value.1) && r.value.0.boot == m.boot && |r.value.0.free| >= 10
            && (forall u: Vpn {:trigger Lookup(r.value.0.tab, r.value.1, u)} | !Special(u) :: Lookup(r.value.0.tab, r.value.1, u) == ZERO_PTE)
  {
    hide UserOk, InitUpt, Lookup, Paths, AllViews, AllKinds;
    InitUptNeeds(m, tramp, sig);
    InitUptBorn(m, tramp, sig, InitUpt(m, tramp, sig).value.0, InitUpt(m, tramp, sig).value.1);
  }

  lemma SharedPage(m1: Mem, p: Ppn, v: Vpn)
    requires UserOk(m1) && IsRoot(m1.owner, p) && Lookup(m1.tab, p, v) == ZERO_PTE && |m1.free| >= 10
    ensures Whole(m1) && Mappable(m1, 0)
    ensures var r := Map(m1, p, v, 0, SHARED_PERM);
            && r.Ok? && UserOk(r.value) && IsRoot(r.value.owner, p) && r.value.boot == m1.boot && |r.value.free| >= 8
            && Lookup(r.value.tab, p, v) == Pte(false, 0, SHARED_PERM)
            && forall u: Vpn {:trigger Lookup(r.value.tab, p, u)} | u != v :: Lookup(r.value.tab, p, u) == Lookup(m1.tab, p, u)
  {
    hide Map, Lookup, AllViews, AllKinds, Mapped;
    MapNeeds(m1, p, v, 0, SHARED_PERM);
    var m2 := Map(m1, p, v, 0, SHARED_PERM).value;
    MapPassive(m1, p, v, SHARED_PERM, m2);
    MapRemaps(m1, p, v, 0, SHARED_PERM, m2);
  }

  lemma AtMostTwo<T>(s: set<T>, a: T, b: T)
    requires forall x | x in s :: x == a || x == b
    ensures |s| <= 2
  {
    var t := s - {a};
    assert t <= {b};
    if b in t { assert t == {b}; } else { assert t == {}; }
    assert s <= {a} + t;
    if a in s { assert s == {a} + t; } else { assert s == t; }
  }

  /** An address space with one user page beside the special ones is forked with six frames. */
  lemma ForkOnePage(m: Mem, p: Ppn, v: Vpn)
    requires forall u: Vpn {:trigger Lookup(m.tab, p, u)} | !Special(u) && u != v :: Lookup(m.tab, p, u) == ZERO_PTE
    ensures ForkCost(m.tab, p) <= 6
  {
    hide Visited, Lookup;
    VisitsExact(m.tab, p);
    var mids, lows := FIRST_MIDS + MidsOf(Visited(m.tab, p)), FIRST_LOWS + LowsOf(Visited(m.tab, p));
    AtMostTwo(mids, 255, v.i);
    AtMostTwo(lows, (255, 511), (v.i, v.j));
  }

  lemma BothLazy(m: Mem, p: Ppn, tramp: Ppn, sig: Ppn, m': Mem, c: Ppn, v: Vpn)
    requires UserOk(m) && IsRoot(m.owner, p) && BootFrame(m, tramp) && BootFrame(m, sig) && !Special(v)
    requires ForkSpace(m, p, tramp, sig) == Ok((m', c)) && Lookup(m.tab, p, v) == Pte(false, 0, SHARED_PERM)
    ensures UserOk(m') && IsRoot(m'.owner, p) && IsRoot(m'.owner, c) && p != c
    ensures Lookup(m'.tab, p, v) == Lookup(m'.tab, c, v) == Pte(false, 0, SHARED_PERM)
  {
    hide ForkSpace, UserOk, AllViews, AllKinds, Lookup;
    ForkViews(m, p, tramp, sig, m', c);
    RootIs(m, p);
    RootIs(m', p);
    RootIs(m', c);
    ForkEntries(m, p, tramp, sig, m', c, p, v);
    ForkEntries(m, p, tramp, sig, m', c, c, v);
  }

  lemma TablesThere(tab: Tables, p: Ppn, v: Vpn)
    requires Lookup(tab, p, v) != ZERO_PTE
    ensures PathCost(tab, p, v) == 0
  {
  }

  /** The first store to a shared page without a frame is served with a frame no entry names. */
  lemma FirstTouch(m: Mem, p: Ppn, v: Vpn)
    requires UserOk(m) && IsRoot(m.owner, p) && Lookup(m.tab, p, v) == Pte(false, 0, SHARED_PERM) && m.free != []
    ensures var r := FaultHandler(m, p, true, v);
            && r.Ok? && r.value.1 && UserOk(r.value.0) && |r.value.0.free| == |m.free| - 1
            && SameView(m, r.value.0) && Exclusive(m, m.free[0], p, v)
            && Lookup(r.value.0.tab, p, v) == Pte(true, m.free[0], Machine(m.ad, SHARED_PERM))
            && forall q, u: Vpn {:trigger Lookup(r.value.0.tab, q, u)} | IsRoot(m.owner, q) && !(q == p && u == v) ::
                 Lookup(r.value.0.tab, q, u) == Lookup(m.tab, q, u)
  {
    hide MapFresh, AllViews, AllKinds, Touched, CowOk, UserPages, BootHeld, Stable, ZeroPage;
    TablesThere(m.tab, p, v);
    MapLow(m, p, v, SHARED_PERM);
    var m' := MapFresh(m, p, v, ZeroPage(), SHARED_PERM).value;
    MapFreshRemaps(m, p, v, ZeroPage(), SHARED_PERM, m');
    FaultKeepsViews(m, p, true, v, m', true);
  }
}
