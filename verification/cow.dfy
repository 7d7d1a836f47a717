/**
 Address spaces over shared frames: page faults (kern/trap/trap_pgfault.c), user
 loads and stores, mapping and unmapping, against the simple system in which a
 process has pages and nothing is copied, counted or filled late.
 */
module CopyOnWrite {
  import opened Panics
  import opened Words
  import opened Sv39
  import opened PageTables
  import opened VmState
  import opened SimpleSystem

  lemma SpecialAddresses(va: nat)
    requires va < MAXVA
    ensures Special(VpnOf(va)) <==> TRAPFRAME <= va
  {
    VaOfVpnOf(va);
  }

  predicate InView(p: Pte) {
    p.perm.u
  }

  function KindOf(p: Pte): Kind {
    if !p.perm.shared then Private else if p.v then Linked(p.ppn) else Lazy
  }

  /** What a page reads as; a passive page reads as zeros. */
  ghost function PageAt(m: Mem, p: Pte): Page {
    if p.v && p.ppn in m.data then m.data[p.ppn] else ZeroPage()
  }

  ghost function ViewOf(m: Mem, pd: Ppn): View {
    imap v: Vpn | !Special(v) && InView(Lookup(m.tab, pd, v)) :: PageAt(m, Lookup(m.tab, pd, v))
  }

  ghost function AllViews(m: Mem): Views {
    imap pd | IsRoot(m.owner, pd) :: ViewOf(m, pd)
  }

  ghost function KindsOf(m: Mem, pd: Ppn): KindMap {
    imap v: Vpn | Lookup(m.tab, pd, v).perm.shared :: KindOf(Lookup(m.tab, pd, v))
  }

  ghost function AllKinds(m: Mem): Kinds {
    imap pd | IsRoot(m.owner, pd) :: KindsOf(m, pd)
  }

  /** What the processes can tell of a state. */
  ghost function SimpleOf(m: Mem): Simple {
    Simple(AllViews(m), AllKinds(m))
  }

  lemma RootIs(m: Mem, pd: Ppn)
    ensures IsRoot(m.owner, pd) <==> pd in AllViews(m)
    ensures IsRoot(m.owner, pd) <==> pd in AllKinds(m)
    ensures IsRoot(m.owner, pd) ==> AllViews(m)[pd] == ViewOf(m, pd) && AllKinds(m)[pd] == KindsOf(m, pd)
  {
  }

  lemma KindIs(m: Mem, pd: Ppn, v: Vpn)
    requires IsRoot(m.owner, pd)
    ensures KindAt(AllKinds(m), pd, v) == KindOf(Lookup(m.tab, pd, v))
  {
  }

  /** Memory that only one entry may write to. */
  predicate OwnWritable(p: Pte) {
    p.v && p.perm.w && !p.perm.shared
  }

  /**
   The copy-on-write invariant.  Two different entries naming one frame are both
   shared or both private, and neither is a private one that can be written.
   */
  ghost predicate CowOk(m: Mem) {
    forall p, q, u: Vpn, w: Vpn {:trigger Apart(Lookup(m.tab, p, u), Lookup(m.tab, q, w))}
      | IsRoot(m.owner, p) && IsRoot(m.owner, q) && !(p == q && u == w)
      :: Apart(Lookup(m.tab, p, u), Lookup(m.tab, q, w))
  }

  ghost predicate Apart(a: Pte, b: Pte) {
    a.v && b.v && a.ppn == b.ppn ==>
      !OwnWritable(a) && !OwnWritable(b) && a.perm.shared == b.perm.shared
  }

  /**
   Below the special pages every entry is for user mode; copy-on-write entries name
   a frame and are private; the kernel's own frames are neither writable nor shared.
   */
  predicate UserEntry(boot: set<Ppn>, v: Vpn, p: Pte) {
    && (p != ZERO_PTE && !Special(v) ==> p.perm.u) && (p.perm.cow ==> p.v && !p.perm.shared)
    && (p.v && p.ppn in boot ==> !p.perm.w && !p.perm.shared)
  }

  ghost predicate UserPages(m: Mem) {
    forall pd, v: Vpn {:trigger Lookup(m.tab, pd, v)} | IsRoot(m.owner, pd) :: UserEntry(m.boot, v, Lookup(m.tab, pd, v))
  }

  ghost predicate BootHeld(m: Mem) {
    forall f | f in m.boot :: f in m.hold && m.hold[f] > 0 && f !in m.tab
  }

  ghost predicate UserOk(m: Mem) {
    Whole(m) && m.pending == {} && CowOk(m) && UserPages(m) && BootHeld(m)
  }

  lemma InUse(m: Mem, pd: Ppn, v: Vpn)
    requires Whole(m) && IsRoot(m.owner, pd) && Lookup(m.tab, pd, v).v
    ensures var f := Lookup(m.tab, pd, v).ppn;
            f in m.ref && m.ref[f] > 0 && f !in m.free && f in m.data && f !in m.tab && f != 0
  {
    LeafOwner(m.tab, m.owner, pd, v);
    var t := LowOf(m.tab, pd, v);
    assert Live(m.tab, {}, t, v.k);
    assert Slot(t, v.k) in Slots(m.tab, {}, Lookup(m.tab, pd, v).ppn);
  }

  /** Every live entry that names a frame which is no table is the entry of some page of some process. */
  lemma SlotIsPage(m: Mem, s: Slot, f: Ppn) returns (q: Ppn, u: Vpn)
    requires Whole(m) && s in Slots(m.tab, {}, f) && f !in m.tab
    ensures IsRoot(m.owner, q) && s == Slot(LowOf(m.tab, q, u), u.k) && Lookup(m.tab, q, u) == Ent(m.tab, s.t, s.i)
  {
    assert Live(m.tab, {}, s.t, s.i);
    assert Points(m.tab, m.owner, s.t, s.i);
    OwnerLeaf(m.tab, m.owner, {}, s.t, s.i);
    q, u := m.owner[s.t].pd, Vpn(m.owner[s.t].i, m.owner[s.t].j, s.i);
  }

  /** A frame that a process can write privately is named by that one entry of all tables, and counted once for it. */
  lemma PrivateAlone(m: Mem, pd: Ppn, v: Vpn)
    requires UserOk(m) && IsRoot(m.owner, pd) && OwnWritable(Lookup(m.tab, pd, v))
    ensures var f := Lookup(m.tab, pd, v).ppn;
            && Slots(m.tab, {}, f) == {Slot(LowOf(m.tab, pd, v), v.k)}
            && f in m.ref && f in m.hold && m.ref[f] == 1 + m.hold[f]
  {
    var f := Lookup(m.tab, pd, v).ppn;
    InUse(m, pd, v);
    var own := Slot(LowOf(m.tab, pd, v), v.k);
    LeafOwner(m.tab, m.owner, pd, v);
    assert Live(m.tab, {}, own.t, own.i);
    forall s | s in Slots(m.tab, {}, f) ensures s == own {
      var q, u := SlotIsPage(m, s, f);
      assert (q == pd && u == v) || Apart(Lookup(m.tab, pd, v), Lookup(m.tab, q, u));
    }
    assert own in Slots(m.tab, {}, f);
    assert Slots(m.tab, {}, f) == {own};
  }

  /** An entry other than the remapped one still reads the same bytes. */
  lemma RemapKeeps(m: Mem, m': Mem, pd: Ppn, v: Vpn, p: Pte, q: Ppn, u: Vpn)
    requires Whole(m) && Remapped(m, m', pd, v, p) && IsRoot(m.owner, q) && !(q == pd && u == v)
    ensures Lookup(m'.tab, q, u) == Lookup(m.tab, q, u)
    ensures PageAt(m', Lookup(m'.tab, q, u)) == PageAt(m, Lookup(m.tab, q, u))
  {
    if Lookup(m.tab, q, u).v { InUse(m, q, u); }
  }

  /** Two states in which q's entries and their bytes agree show the same view of q. */
  lemma SameViewOf(m: Mem, m': Mem, q: Ppn)
    requires forall u: Vpn :: Lookup(m'.tab, q, u) == Lookup(m.tab, q, u)
    requires forall u: Vpn | InView(Lookup(m.tab, q, u)) :: PageAt(m', Lookup(m.tab, q, u)) == PageAt(m, Lookup(m.tab, q, u))
    ensures ViewOf(m', q) == ViewOf(m, q)
  {
  }

  lemma SameKindsOf(m: Mem, m': Mem, q: Ppn)
    requires forall u: Vpn :: Lookup(m'.tab, q, u) == Lookup(m.tab, q, u)
    ensures KindsOf(m', q) == KindsOf(m, q)
  {
  }

  lemma RemapOther(m: Mem, m': Mem, pd: Ppn, v: Vpn, p: Pte, q: Ppn)
    requires Whole(m) && Remapped(m, m', pd, v, p) && IsRoot(m.owner, q) && q != pd
    ensures ViewOf(m', q) == ViewOf(m, q)
  {
    forall u: Vpn ensures Lookup(m'.tab, q, u) == Lookup(m.tab, q, u)
                  ensures PageAt(m', Lookup(m.tab, q, u)) == PageAt(m, Lookup(m.tab, q, u))
    {
      RemapKeeps(m, m', pd, v, p, q, u);
    }
    SameViewOf(m, m', q);
  }

  lemma SetPageView(m: Mem, m': Mem, pd: Ppn, v: Vpn, p: Pte)
    requires forall u: Vpn :: Lookup(m'.tab, pd, u) == if u == v then p else Lookup(m.tab, pd, u)
    requires forall u: Vpn | u != v && InView(Lookup(m.tab, pd, u)) ::
               PageAt(m', Lookup(m.tab, pd, u)) == PageAt(m, Lookup(m.tab, pd, u))
    ensures ViewOf(m', pd) == SetPage(ViewOf(m, pd), v, InView(p), PageAt(m', p))
  {
    hide PageAt, Lookup;
    var a, b := ViewOf(m', pd), SetPage(ViewOf(m, pd), v, InView(p), PageAt(m', p));
    forall u: Vpn ensures u in a <==> u in b {
    }
    forall u: Vpn | u in a ensures a[u] == b[u] {
    }
  }

  lemma RemapOwn(m: Mem, m': Mem, pd: Ppn, v: Vpn, p: Pte)
    requires Whole(m) && Remapped(m, m', pd, v, p) && IsRoot(m.owner, pd)
    ensures ViewOf(m', pd) == SetPage(ViewOf(m, pd), v, InView(p), PageAt(m', p))
  {
    forall u: Vpn | u != v ensures PageAt(m', Lookup(m.tab, pd, u)) == PageAt(m, Lookup(m.tab, pd, u)) {
      RemapKeeps(m, m', pd, v, p, pd, u);
    }
    SetPageView(m, m', pd, v, p);
  }

  lemma ViewsBy(m: Mem, m': Mem, pd: Ppn, view: View)
    requires forall q :: IsRoot(m'.owner, q) <==> IsRoot(m.owner, q)
    requires IsRoot(m.owner, pd) && ViewOf(m', pd) == view
    requires forall q | IsRoot(m.owner, q) && q != pd :: ViewOf(m', q) == ViewOf(m, q)
    ensures AllViews(m') == AllViews(m)[pd := view]
  {
  }

  /** Remapping one page is, in the simple reading, setting one page of one process. */
  lemma RemapViews(m: Mem, m': Mem, pd: Ppn, v: Vpn, p: Pte)
    requires Whole(m) && Remapped(m, m', pd, v, p) && IsRoot(m.owner, pd)
    ensures AllViews(m') == AllViews(m)[pd := SetPage(ViewOf(m, pd), v, InView(p), PageAt(m', p))]
  {
    forall q | IsRoot(m.owner, q) && q != pd ensures ViewOf(m', q) == ViewOf(m, q) {
      RemapOther(m, m', pd, v, p, q);
    }
    RemapOwn(m, m', pd, v, p);
    ViewsBy(m, m', pd, SetPage(ViewOf(m, pd), v, InView(p), PageAt(m', p)));
  }

  lemma RemapKinds(m: Mem, m': Mem, pd: Ppn, v: Vpn, p: Pte)
    requires Remapped(m, m', pd, v, p) && IsRoot(m.owner, pd)
    ensures AllKinds(m') == SetKind(AllKinds(m), pd, v, KindOf(p))
  {
    forall q | IsRoot(m.owner, q) && q != pd ensures KindsOf(m', q) == KindsOf(m, q) {
      assert forall u: Vpn :: Lookup(m'.tab, q, u) == Lookup(m.tab, q, u);
    }
    SetSharedKinds(m, m', pd, v, p);
  }

  lemma SetSharedKinds(m: Mem, m': Mem, pd: Ppn, v: Vpn, p: Pte)
    requires forall u: Vpn :: Lookup(m'.tab, pd, u) == if u == v then p else Lookup(m.tab, pd, u)
    ensures KindsOf(m', pd) == SetShared(KindsOf(m, pd), v, KindOf(p))
  {
    hide Lookup;
    var a, b := KindsOf(m', pd), SetShared(KindsOf(m, pd), v, KindOf(p));
    forall u: Vpn ensures u in a <==> u in b {
    }
    forall u: Vpn | u in a ensures a[u] == b[u] {
    }
  }

  lemma KindSame(kinds: Kinds, p: Ppn, v: Vpn)
    requires KindAt(kinds, p, v) == Private
    ensures SetKind(kinds, p, v, Private) == kinds || (p in kinds && v in kinds[p])
  {
    if p in kinds && v !in kinds[p] {
      assert SetShared(kinds[p], v, Private) == kinds[p];
    }
  }

  /** No entry of any address space names frame n, except possibly the one at (pd, v). */
  ghost predicate Exclusive(m: Mem, n: Ppn, pd: Ppn, v: Vpn) {
    forall q, u: Vpn {:trigger Lookup(m.tab, q, u)} | IsRoot(m.owner, q) && !(q == pd && u == v) ::
      !(Lookup(m.tab, q, u).v && Lookup(m.tab, q, u).ppn == n)
  }

  /** Entry p may stand at (pd, v) beside every other entry. */
  ghost predicate Compatible(m: Mem, p: Pte, pd: Ppn, v: Vpn) {
    forall q, u: Vpn {:trigger Lookup(m.tab, q, u)} | IsRoot(m.owner, q) && !(q == pd && u == v) ::
      Apart(p, Lookup(m.tab, q, u))
  }

  lemma RemapCow(m: Mem, m': Mem, pd: Ppn, v: Vpn, p: Pte)
    requires CowOk(m) && Remapped(m, m', pd, v, p) && Compatible(m, p, pd, v)
    ensures CowOk(m')
  {
    forall a, b, u: Vpn, w: Vpn | IsRoot(m'.owner, a) && IsRoot(m'.owner, b) && !(a == b && u == w)
      ensures Apart(Lookup(m'.tab, a, u), Lookup(m'.tab, b, w))
    {
      assert IsRoot(m.owner, a) && IsRoot(m.owner, b);
      assert Apart(Lookup(m.tab, a, u), Lookup(m.tab, b, w));
    }
  }

  lemma RemapUser(m: Mem, m': Mem, pd: Ppn, v: Vpn, p: Pte)
    requires UserPages(m) && Remapped(m, m', pd, v, p) && UserEntry(m.boot, v, p)
    ensures UserPages(m')
  {
    forall q, u: Vpn | IsRoot(m'.owner, q) ensures UserEntry(m'.boot, u, Lookup(m'.tab, q, u)) {
      assert IsRoot(m.owner, q);
      assert UserEntry(m.boot, u, Lookup(m.tab, q, u));
    }
  }

  // ---- a page taken from the allocator, filled and mapped ----------------------

  /** vmAlloc, a fill, and ptMap. */
  ghost function MapFresh(m: Mem, pd: Ppn, v: Vpn, page: Page, perm: Perm): Res<Mem> {
    if m.free == [] then Panic
    else Map(Filled(m, page), pd, v, m.free[0], perm)
  }

  ghost function Filled(m: Mem, page: Page): Mem
    requires m.free != []
  {
    var m1 := Alloc(m);
    m1.(data := m1.data[m.free[0] := page])
  }

  ghost function FreshEntry(m: Mem, perm: Perm): Pte
    requires m.free != []
  {
    Pte(true, m.free[0], Machine(m.ad, perm))
  }

  lemma FilledOk(m: Mem, page: Page)
    requires Whole(m) && m.pending == {} && m.free != [] && |page| == PAGE_SIZE
    ensures Whole(Filled(m, page)) && m.free[0] != 0
    ensures Mappable(Filled(m, page), m.free[0])
    ensures Filled(m, page).pending == {m.free[0]}
  {
    AllocBase(m);
    FreeHead(m);
  }

  lemma FreshExclusive(m: Mem, pd: Ppn, v: Vpn)
    requires Whole(m) && m.free != []
    ensures Exclusive(m, m.free[0], pd, v)
  {
    FreshUnnamed(m);
  }

  /** The new page is exactly the fill, and nothing else has moved. */
  lemma MapFreshRemaps(m: Mem, pd: Ppn, v: Vpn, page: Page, perm: Perm, m': Mem)
    requires Whole(m) && m.pending == {} && IsRoot(m.owner, pd) && |page| == PAGE_SIZE
    requires MapFresh(m, pd, v, page, perm) == Ok(m')
    ensures m.free != []
    ensures Whole(m') && Remapped(m, m', pd, v, FreshEntry(m, perm)) && m'.pending == {}
    ensures PageAt(m', FreshEntry(m, perm)) == page
    ensures Exclusive(m, m.free[0], pd, v)
  {
    var m1 := Filled(m, page);
    FilledOk(m, page);
    MapRemaps(m1, pd, v, m.free[0], perm, m');
    FreshExclusive(m, pd, v);
    FilledRemapped(m, page, m', pd, v, FreshEntry(m, perm));
  }

  lemma FilledRemapped(m: Mem, page: Page, m': Mem, pd: Ppn, v: Vpn, p: Pte)
    requires m.free != [] && m.pending == {} && p.v && p.ppn == m.free[0] && p.ppn in m.data
    requires FreeOk(m.ref, m.free, m.pending)
    requires Remapped(Filled(m, page), m', pd, v, p)
    ensures Remapped(m, m', pd, v, p) && m'.pending == {} && PageAt(m', p) == page
  {
    var m1 := Filled(m, page);
    assert m.free[0] in m.free;
    assert forall f | f in m1.free :: f in m.free;
    assert m1.pending == {p.ppn};
    assert p.ppn !in m1.free;
  }

  lemma RemapUserOk(m: Mem, m': Mem, pd: Ppn, v: Vpn, p: Pte)
    requires CowOk(m) && UserPages(m) && BootHeld(m) && Remapped(m, m', pd, v, p) && UserEntry(m.boot, v, p)
    requires BootInUse(m) && Compatible(m, p, pd, v)
    ensures CowOk(m') && UserPages(m') && BootHeld(m')
  {
    RemapCow(m, m', pd, v, p);
    RemapUser(m, m', pd, v, p);
  }

  ghost predicate BootInUse(m: Mem) {
    forall f | f in m.boot :: f !in m.free
  }

  lemma BootNotFree(m: Mem)
    requires Base(m) && BootHeld(m)
    ensures BootInUse(m)
  {
    forall f | f in m.boot ensures f !in m.free {
      assert m.ref[f] == |Slots(m.tab, m.dead, f)| + m.hold[f];
    }
  }

  /** Mapping a fresh page keeps every invariant and sets one page of one process. */
  lemma MapFreshUser(m: Mem, pd: Ppn, v: Vpn, page: Page, perm: Perm, m': Mem)
    requires UserOk(m) && IsRoot(m.owner, pd) && |page| == PAGE_SIZE
    requires MapFresh(m, pd, v, page, perm) == Ok(m')
    requires (Special(v) || perm.u) && !(perm.cow && perm.shared)
    ensures UserOk(m')
  {
    MapFreshRemaps(m, pd, v, page, perm, m');
    BootNotFree(m);
    assert m.free[0] in m.free;
    RemapUserOk(m, m', pd, v, FreshEntry(m, perm));
  }

  lemma MapFreshViews(m: Mem, pd: Ppn, v: Vpn, page: Page, perm: Perm, m': Mem)
    requires UserOk(m) && IsRoot(m.owner, pd) && |page| == PAGE_SIZE
    requires MapFresh(m, pd, v, page, perm) == Ok(m')
    ensures AllViews(m') == AllViews(m)[pd := SetPage(ViewOf(m, pd), v, perm.u, page)]
    ensures Lookup(m'.tab, pd, v).v
  {
    MapFreshRemaps(m, pd, v, page, perm, m');
    RemapViews(m, m', pd, v, FreshEntry(m, perm));
  }

  // ---- kern/trap/trap_pgfault.c --------------------------------------------------

  ghost function CowHandler(m: Mem, pd: Ppn, v: Vpn): Res<Mem> {
    var p := Lookup(m.tab, pd, v);
    MapFresh(m, pd, v, PageAt(m, p), p.perm.(cow := false, w := true))
  }

  ghost function PassiveHandler(m: Mem, pd: Ppn, v: Vpn): Res<Mem> {
    MapFresh(m, pd, v, ZeroPage(), Lookup(m.tab, pd, v).perm)
  }

  /** page_fault_handler: the new state, and whether the access may be tried again. */
  ghost function FaultHandler(m: Mem, pd: Ppn, write: bool, v: Vpn): Res<(Mem, bool)> {
    var p := Lookup(m.tab, pd, v);
    if write && p != ZERO_PTE && p.perm.u && !p.perm.w && p.perm.cow then
      var m1 :- CowHandler(m, pd, v); Ok((m1, true))
    else if Passive(p) then
      var m1 :- PassiveHandler(m, pd, v); Ok((m1, true))
    else
      Ok((m, false))
  }

  lemma SetPageSame(view: View, v: Vpn, visible: bool, page: Page)
    requires v in view <==> !Special(v) && visible
    requires v in view ==> view[v] == page
    ensures SetPage(view, v, visible, page) == view
  {
  }

  lemma ViewsSame(views: Views, pd: Ppn)
    requires pd in views
    ensures views[pd := views[pd]] == views
  {
  }

  /** Giving a page a fresh frame with the bytes it already reads as. */
  lemma Refill(m: Mem, pd: Ppn, v: Vpn, perm: Perm, m': Mem)
    requires UserOk(m) && IsRoot(m.owner, pd) && |PageAt(m, Lookup(m.tab, pd, v))| == PAGE_SIZE
    requires MapFresh(m, pd, v, PageAt(m, Lookup(m.tab, pd, v)), perm) == Ok(m')
    requires perm.u && Lookup(m.tab, pd, v).perm.u && perm.shared == Lookup(m.tab, pd, v).perm.shared
    ensures AllViews(m') == AllViews(m) && Lookup(m'.tab, pd, v).v
  {
    RefillView(m, pd, v);
    MapFreshViews(m, pd, v, PageAt(m, Lookup(m.tab, pd, v)), perm, m');
  }

  lemma RefillView(m: Mem, pd: Ppn, v: Vpn)
    requires IsRoot(m.owner, pd)
    ensures var p := Lookup(m.tab, pd, v);
            AllViews(m)[pd := SetPage(ViewOf(m, pd), v, InView(p), PageAt(m, p))] == AllViews(m)
  {
    var p := Lookup(m.tab, pd, v);
    SetPageSame(ViewOf(m, pd), v, InView(p), PageAt(m, p));
    ViewsSame(AllViews(m), pd);
  }

  lemma PageLength(m: Mem, pd: Ppn, v: Vpn)
    requires Whole(m) && IsRoot(m.owner, pd)
    ensures |PageAt(m, Lookup(m.tab, pd, v))| == PAGE_SIZE
  {
    if Lookup(m.tab, pd, v).v { InUse(m, pd, v); }
  }

  /** The entry a served fault leaves behind. */
  function FaultPerm(p: Pte, write: bool): Perm {
    if write && p.perm.u && !p.perm.w && p.perm.cow then p.perm.(cow := false, w := true) else p.perm
  }

  lemma FaultIsRefill(m: Mem, pd: Ppn, write: bool, v: Vpn, m': Mem)
    requires UserPages(m) && IsRoot(m.owner, pd)
    requires FaultHandler(m, pd, write, v) == Ok((m', true))
    ensures Lookup(m.tab, pd, v).perm.u
    ensures MapFresh(m, pd, v, PageAt(m, Lookup(m.tab, pd, v)), FaultPerm(Lookup(m.tab, pd, v), write)) == Ok(m')
  {
    assert UserEntry(m.boot, v, Lookup(m.tab, pd, v));
  }

  /** No page fault, served or refused, changes what any process reads. */
  lemma FaultKeepsViews(m: Mem, pd: Ppn, write: bool, v: Vpn, m': Mem, again: bool)
    requires UserOk(m) && IsRoot(m.owner, pd)
    requires FaultHandler(m, pd, write, v) == Ok((m', again))
    ensures UserOk(m') && AllViews(m') == AllViews(m) && Touched(AllKinds(m), pd, AllKinds(m'))
    ensures again ==> Lookup(m'.tab, pd, v).v
  {
    if again {
      var p := Lookup(m.tab, pd, v);
      FaultIsRefill(m, pd, write, v, m');
      PageLength(m, pd, v);
      MapFreshUser(m, pd, v, PageAt(m, p), FaultPerm(p, write), m');
      Refill(m, pd, v, FaultPerm(p, write), m');
      FaultTouches(m, pd, write, v, m');
    } else {
      assert m' == m;
      TouchedNot(AllKinds(m), pd);
    }
  }

  /** A frame no entry names is the name of no page. */
  lemma UnusedFrame(m: Mem, n: Ppn)
    requires forall q, u: Vpn {:trigger Lookup(m.tab, q, u)} | IsRoot(m.owner, q) ::
               !(Lookup(m.tab, q, u).v && Lookup(m.tab, q, u).ppn == n)
    ensures Unused(AllKinds(m), n)
  {
    forall q, u ensures KindAt(AllKinds(m), q, u) != Linked(n) {
      if IsRoot(m.owner, q) { KindIs(m, q, u); }
    }
  }

  /** A served fault gives a shared page its frame, and leaves the kind of every other page alone. */
  lemma FaultTouches(m: Mem, pd: Ppn, write: bool, v: Vpn, m': Mem)
    requires UserOk(m) && IsRoot(m.owner, pd)
    requires FaultHandler(m, pd, write, v) == Ok((m', true))
    ensures Touched(AllKinds(m), pd, AllKinds(m'))
  {
    var p := Lookup(m.tab, pd, v);
    FaultIsRefill(m, pd, write, v, m');
    PageLength(m, pd, v);
    MapFreshRemaps(m, pd, v, PageAt(m, p), FaultPerm(p, write), m');
    var e := FreshEntry(m, FaultPerm(p, write));
    RemapKinds(m, m', pd, v, e);
    KindIs(m, pd, v);
    assert UserEntry(m.boot, v, p);
    if p.perm.shared {
      FreshUnnamed(m);
      UnusedFrame(m, m.free[0]);
      TouchedOnce(AllKinds(m), pd, v, m.free[0]);
    } else {
      KindSame(AllKinds(m), pd, v);
      assert v !in KindsOf(m, pd);
      TouchedNot(AllKinds(m), pd);
    }
  }

  lemma FreshUnnamed(m: Mem)
    requires Whole(m) && m.free != []
    ensures forall q, u: Vpn {:trigger Lookup(m.tab, q, u)} | IsRoot(m.owner, q) ::
              !(Lookup(m.tab, q, u).v && Lookup(m.tab, q, u).ppn == m.free[0])
  {
    assert m.free[0] in m.free;
    forall q, u: Vpn | IsRoot(m.owner, q) ensures !(Lookup(m.tab, q, u).v && Lookup(m.tab, q, u).ppn == m.free[0]) {
      if Lookup(m.tab, q, u).v { InUse(m, q, u); }
    }
  }

  // ---- stores ----------------------------------------------------------------

  ghost function WriteFrame(m: Mem, f: Ppn, page: Page): Mem {
    m.(data := m.data[f := page])
  }

  predicate UserWritable(p: Pte) {
    p.v && p.perm.u && p.perm.w
  }

  /** An entry through which the frame may be written, by the process or by the kernel for it. */
  predicate Storable(p: Pte) {
    p.v && p.perm.w
  }

  /** Two entries name one frame, one of them writable, exactly if their pages are the same memory in the simple system. */
  lemma SameFrame(m: Mem, pd: Ppn, v: Vpn, q: Ppn, u: Vpn)
    requires CowOk(m) && IsRoot(m.owner, pd) && IsRoot(m.owner, q) && Storable(Lookup(m.tab, pd, v))
    ensures Same(AllKinds(m), pd, v, q, u) <==> Lookup(m.tab, q, u).v && Lookup(m.tab, q, u).ppn == Lookup(m.tab, pd, v).ppn
  {
    KindIs(m, pd, v);
    KindIs(m, q, u);
    assert (q == pd && u == v) || Apart(Lookup(m.tab, pd, v), Lookup(m.tab, q, u));
  }

  lemma WriteOk(m: Mem, f: Ppn, page: Page)
    requires UserOk(m) && f in m.data && |page| == PAGE_SIZE
    ensures UserOk(WriteFrame(m, f, page))
  {
  }

  lemma KindsKept(m: Mem, f: Ppn, page: Page)
    ensures AllKinds(WriteFrame(m, f, page)) == AllKinds(m)
  {
    var m' := WriteFrame(m, f, page);
    forall q | q in AllKinds(m) ensures KindsOf(m', q) == KindsOf(m, q) { }
  }

  /** Bytes written into a frame change in every page that is the same memory, and in no other. */
  lemma WriteViews(m: Mem, pd: Ppn, v: Vpn, off: nat, bytes: seq<Byte>, m': Mem)
    requires UserOk(m) && IsRoot(m.owner, pd) && Storable(Lookup(m.tab, pd, v)) && off + |bytes| <= PAGE_SIZE
    requires |PageAt(m, Lookup(m.tab, pd, v))| == PAGE_SIZE
    requires m' == WriteFrame(m, Lookup(m.tab, pd, v).ppn, Patch(PageAt(m, Lookup(m.tab, pd, v)), off, bytes))
    ensures AllViews(m') == PutAt(AllViews(m), AllKinds(m), pd, v, off, bytes) && AllKinds(m') == AllKinds(m)
  {
    KindsKept(m, Lookup(m.tab, pd, v).ppn, Patch(PageAt(m, Lookup(m.tab, pd, v)), off, bytes));
    forall q | IsRoot(m.owner, q) ensures ViewOf(m', q) == PutIn(ViewOf(m, q), AllKinds(m), pd, v, off, bytes, q) {
      WriteView(m, pd, v, off, bytes, m', q);
    }
  }

  lemma WriteView(m: Mem, pd: Ppn, v: Vpn, off: nat, bytes: seq<Byte>, m': Mem, q: Ppn)
    requires UserOk(m) && IsRoot(m.owner, pd) && IsRoot(m.owner, q) && Storable(Lookup(m.tab, pd, v)) && off + |bytes| <= PAGE_SIZE
    requires |PageAt(m, Lookup(m.tab, pd, v))| == PAGE_SIZE
    requires m' == WriteFrame(m, Lookup(m.tab, pd, v).ppn, Patch(PageAt(m, Lookup(m.tab, pd, v)), off, bytes))
    ensures ViewOf(m', q) == PutIn(ViewOf(m, q), AllKinds(m), pd, v, off, bytes, q)
  {
    hide UserOk, Lookup, PageAt, Same, AllKinds;
    var a, b := ViewOf(m', q), PutIn(ViewOf(m, q), AllKinds(m), pd, v, off, bytes, q);
    forall u: Vpn | u in a ensures a[u] == b[u] {
      WritePage(m, pd, v, off, bytes, m', q, u);
    }
  }

  lemma WritePage(m: Mem, pd: Ppn, v: Vpn, off: nat, bytes: seq<Byte>, m': Mem, q: Ppn, u: Vpn)
    requires UserOk(m) && IsRoot(m.owner, pd) && IsRoot(m.owner, q) && Storable(Lookup(m.tab, pd, v)) && off + |bytes| <= PAGE_SIZE
    requires |PageAt(m, Lookup(m.tab, pd, v))| == PAGE_SIZE
    requires m' == WriteFrame(m, Lookup(m.tab, pd, v).ppn, Patch(PageAt(m, Lookup(m.tab, pd, v)), off, bytes))
    ensures var old' := PageAt(m, Lookup(m.tab, q, u));
            && off + |bytes| <= |old'|
            && PageAt(m', Lookup(m.tab, q, u)) == if Same(AllKinds(m), pd, v, q, u) then Patch(old', off, bytes) else old'
  {
    hide Lookup, Same, AllKinds, Whole, UserPages, BootHeld, CowOk;
    PageLength(m, q, u);
    InUse(m, pd, v);
    SameFrame(m, pd, v, q, u);
  }

  /** The store itself, through an entry that permits it. */
  ghost function StoreByte(m: Mem, pd: Ppn, v: Vpn, off: nat, b: Byte): Mem {
    var p := Lookup(m.tab, pd, v);
    if off < |PageAt(m, p)| then WriteFrame(m, p.ppn, Patch(PageAt(m, p), off, [b])) else m
  }

  /**
   A user store with its page faults: when a fault is served the processor tries
   again.  The flag says whether the store went through or ended in SIGSEGV.  No
   store faults again after a served fault and is served again (FaultOnce).
   */
  ghost function UserStore(m: Mem, pd: Ppn, v: Vpn, off: nat, b: Byte): Res<(Mem, bool)> {
    if UserWritable(Lookup(m.tab, pd, v)) then
      Ok((StoreByte(m, pd, v, off, b), true))
    else
      var (m1, again) :- FaultHandler(m, pd, true, v);
      if again && UserWritable(Lookup(m1.tab, pd, v)) then Ok((StoreByte(m1, pd, v, off, b), true))
      else Ok((m1, false))
  }

  lemma StoreByteViews(m: Mem, pd: Ppn, v: Vpn, off: nat, b: Byte, m': Mem)
    requires UserOk(m) && IsRoot(m.owner, pd) && off < PAGE_SIZE && UserWritable(Lookup(m.tab, pd, v))
    requires m' == StoreByte(m, pd, v, off, b)
    ensures UserOk(m') && AllKinds(m') == AllKinds(m)
    ensures AllViews(m') == PutAt(AllViews(m), AllKinds(m), pd, v, off, [b])
  {
    var p := Lookup(m.tab, pd, v);
    InUse(m, pd, v);
    PageLength(m, pd, v);
    WriteOk(m, p.ppn, Patch(PageAt(m, p), off, [b]));
    WriteViews(m, pd, v, off, [b], m');
  }

  /** After a served fault the entry is present and no longer copy-on-write, so a second fault is refused. */
  lemma FaultOnce(m: Mem, pd: Ppn, v: Vpn, m': Mem)
    requires UserOk(m) && IsRoot(m.owner, pd)
    requires FaultHandler(m, pd, true, v) == Ok((m', true))
    ensures !UserWritable(Lookup(m'.tab, pd, v)) ==> FaultHandler(m', pd, true, v) == Ok((m', false))
  {
    var p := Lookup(m.tab, pd, v);
    FaultIsRefill(m, pd, true, v, m');
    PageLength(m, pd, v);
    MapFreshRemaps(m, pd, v, PageAt(m, p), FaultPerm(p, true), m');
    assert UserEntry(m.boot, v, p);
    assert Lookup(m'.tab, pd, v) == FreshEntry(m, FaultPerm(p, true));
  }

  /**
   A store, faults included, is a store of the simple system: one that goes through
   changes one byte of that page and of the pages that are the same memory, and one
   that is refused changes no byte at all.
   */
  lemma StoreIsolated(m: Mem, pd: Ppn, v: Vpn, off: nat, b: Byte, m': Mem, done: bool)
    requires UserOk(m) && IsRoot(m.owner, pd) && off < PAGE_SIZE
    requires UserStore(m, pd, v, off, b) == Ok((m', done))
    ensures UserOk(m') && Stored(SimpleOf(m), pd, v, off, b, done, SimpleOf(m'))
  {
    hide FaultHandler, UserOk, PutAt, Touched, AllViews, AllKinds, Lookup, StoreByte;
    RootIs(m, pd);
    if UserWritable(Lookup(m.tab, pd, v)) {
      StoreByteViews(m, pd, v, off, b, m');
      TouchedNot(AllKinds(m), pd);
    } else {
      var (m1, again) := FaultHandler(m, pd, true, v).value;
      FaultKeepsViews(m, pd, true, v, m1, again);
      RootIs(m1, pd);
      if done {
        StoreByteViews(m1, pd, v, off, b, m');
      }
    }
  }

  /** A store through a private page leaves what every other entry of every process reads alone, shared pages included. */
  lemma PrivateStoreIsolated(m: Mem, pd: Ppn, v: Vpn, off: nat, b: Byte, m': Mem, done: bool, q: Ppn, u: Vpn)
    requires UserOk(m) && IsRoot(m.owner, pd) && off < PAGE_SIZE && IsRoot(m.owner, q) && !(q == pd && u == v)
    requires UserStore(m, pd, v, off, b) == Ok((m', done)) && !Lookup(m.tab, pd, v).perm.shared
    requires !Special(u) && Lookup(m.tab, q, u).perm.u
    ensures IsRoot(m'.owner, q) && Lookup(m'.tab, q, u).perm.u
    ensures PageAt(m', Lookup(m'.tab, q, u)) == PageAt(m, Lookup(m.tab, q, u))
  {
    hide UserStore, UserOk, AllViews, AllKinds, Lookup, PageAt, ViewOf, Stored, KindAt;
    StoreIsolated(m, pd, v, off, b, m', done);
    KindIs(m, pd, v);
    RootIs(m, q);
    RootIs(m', q);
    ViewPage(m, q, u);
    ViewPage(m', q, u);
    StoredElsewhere(SimpleOf(m), pd, v, off, b, done, SimpleOf(m'), q, u);
  }

  lemma ViewPage(m: Mem, q: Ppn, u: Vpn)
    ensures u in ViewOf(m, q) <==> !Special(u) && Lookup(m.tab, q, u).perm.u
    ensures u in ViewOf(m, q) ==> ViewOf(m, q)[u] == PageAt(m, Lookup(m.tab, q, u))
  {
  }

  predicate UserReadable(p: Pte) {
    p.v && p.perm.u && p.perm.r
  }

  ghost function ByteAt(m: Mem, p: Pte, off: nat): Byte {
    if off < |PageAt(m, p)| then PageAt(m, p)[off] else 0
  }

  /** A user load with its page faults: the state after it, whether it went through, and the byte. */
  ghost function UserLoad(m: Mem, pd: Ppn, v: Vpn, off: nat): Res<(Mem, bool, Byte)> {
    if UserReadable(Lookup(m.tab, pd, v)) then Ok((m, true, ByteAt(m, Lookup(m.tab, pd, v), off)))
    else
      var (m1, again) :- FaultHandler(m, pd, false, v);
      if again && UserReadable(Lookup(m1.tab, pd, v)) then Ok((m1, true, ByteAt(m1, Lookup(m1.tab, pd, v), off)))
      else Ok((m1, false, 0))
  }

  lemma ViewByte(m: Mem, pd: Ppn, v: Vpn, off: nat)
    requires Whole(m) && IsRoot(m.owner, pd) && off < PAGE_SIZE && v in ViewOf(m, pd)
    ensures off < |ViewOf(m, pd)[v]| && ByteAt(m, Lookup(m.tab, pd, v), off) == ViewOf(m, pd)[v][off]
  {
    PageLength(m, pd, v);
  }

  /** A load, faults included, is a load of the simple system: it returns the byte of the page, private or shared. */
  lemma LoadReads(m: Mem, pd: Ppn, v: Vpn, off: nat, m': Mem, done: bool, b: Byte)
    requires UserOk(m) && IsRoot(m.owner, pd) && off < PAGE_SIZE
    requires UserLoad(m, pd, v, off) == Ok((m', done, b))
    ensures UserOk(m') && Loaded(SimpleOf(m), pd, v, off, b, done, SimpleOf(m'))
  {
    hide FaultHandler, CowOk, UserPages, BootHeld, Touched, Whole, AllViews, AllKinds, ViewOf, Lookup, ByteAt;
    RootIs(m, pd);
    if UserReadable(Lookup(m.tab, pd, v)) {
      TouchedNot(AllKinds(m), pd);
      if v in ViewOf(m, pd) { ViewByte(m, pd, v, off); }
    } else {
      var (m1, again) := FaultHandler(m, pd, false, v).value;
      FaultKeepsViews(m, pd, false, v, m1, again);
      RootIs(m1, pd);
      if v in ViewOf(m1, pd) { ViewByte(m1, pd, v, off); }
    }
  }

  // ---- sys_map and sys_unmap, one page -------------------------------------------

  /** PASSIVE_THRESHOLD of kern/syscall/sys_mm.c */
  const PASSIVE_THRESHOLD := 0x200_0000

  /** sys_map at one page: low pages get a frame at once, the others when they are first touched. */
  ghost function MapPage(m: Mem, pd: Ppn, v: Vpn, perm: Perm): Res<Mem> {
    if Lookup(m.tab, pd, v).ppn != 0 then Ok(m)
    else if VaOf(v) < PASSIVE_THRESHOLD then MapFresh(m, pd, v, ZeroPage(), perm)
    else Map(m, pd, v, 0, perm)
  }

  lemma MapPassive(m: Mem, pd: Ppn, v: Vpn, perm: Perm, m': Mem)
    requires UserOk(m) && IsRoot(m.owner, pd) && perm.u && !perm.cow
    requires Map(m, pd, v, 0, perm) == Ok(m')
    ensures UserOk(m') && Mapped(SimpleOf(m), pd, v, perm.shared, SimpleOf(m'))
  {
    var p := Pte(false, 0, perm);
    MapRemaps(m, pd, v, 0, perm, m');
    BootNotFree(m);
    RemapUserOk(m, m', pd, v, p);
    RemapViews(m, m', pd, v, p);
    RemapKinds(m, m', pd, v, p);
    assert NewKind(AllKinds(m), perm.shared, KindOf(p));
  }

  lemma MapActive(m: Mem, pd: Ppn, v: Vpn, perm: Perm, m': Mem)
    requires UserOk(m) && IsRoot(m.owner, pd) && perm.u && !perm.cow
    requires MapFresh(m, pd, v, ZeroPage(), perm) == Ok(m')
    ensures UserOk(m') && Mapped(SimpleOf(m), pd, v, perm.shared, SimpleOf(m'))
  {
    MapFreshUser(m, pd, v, ZeroPage(), perm, m');
    MapFreshViews(m, pd, v, ZeroPage(), perm, m');
    MapFreshRemaps(m, pd, v, ZeroPage(), perm, m');
    RemapKinds(m, m', pd, v, FreshEntry(m, perm));
    FreshUnnamed(m);
    UnusedFrame(m, m.free[0]);
    assert NewKind(AllKinds(m), perm.shared, KindOf(FreshEntry(m, perm)));
  }

  /** sys_map shows the process a page of zeros where it had no frame, and changes nothing elsewhere. */
  lemma MapPageViews(m: Mem, pd: Ppn, v: Vpn, perm: Perm, m': Mem)
    requires UserOk(m) && IsRoot(m.owner, pd) && perm.u && !perm.cow
    requires MapPage(m, pd, v, perm) == Ok(m')
    ensures UserOk(m')
    ensures if Lookup(m.tab, pd, v).ppn == 0 then Mapped(SimpleOf(m), pd, v, perm.shared, SimpleOf(m')) else SimpleOf(m') == SimpleOf(m)
  {
    hide UserOk, Mapped;
    assert pd in AllViews(m);
    if Lookup(m.tab, pd, v).ppn != 0 {
      assert m' == m;
    } else if VaOf(v) < PASSIVE_THRESHOLD {
      MapActive(m, pd, v, perm, m');
    } else {
      MapPassive(m, pd, v, perm, m');
    }
  }

  /** Unmapping takes the page out of the one view; a frame that others still map keeps its bytes. */
  lemma UnmapViews(m: Mem, pd: Ppn, v: Vpn, m': Mem)
    requires UserOk(m) && IsRoot(m.owner, pd)
    requires Unmap(m, pd, v) == Ok(m')
    ensures UserOk(m') && Unmapped(SimpleOf(m), pd, v, SimpleOf(m'))
  {
    UnmapRemaps(m, pd, v);
    BootNotFree(m);
    RemapUserOk(m, m', pd, v, ZERO_PTE);
    RemapViews(m, m', pd, v, ZERO_PTE);
    RemapKinds(m, m', pd, v, ZERO_PTE);
    assert pd in AllViews(m) && ViewOf(m, pd) == AllViews(m)[pd];
    RemapOwn(m, m', pd, v, ZERO_PTE);
    assert SetPage(ViewOf(m, pd), v, false, PageAt(m', ZERO_PTE)) == SetPage(ViewOf(m, pd), v, false, ZeroPage());
  }
}
