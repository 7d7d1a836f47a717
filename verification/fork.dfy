/**
 Creation of address spaces: proc_initupt of kern/proc/procinit.c and the
 copy-on-write walk of kern/proc/fork.c.
 */
module Fork {
  import opened Panics
  import opened Sv39
  import opened PageTables
  import opened VmState
  import opened SimpleSystem
  import opened CopyOnWrite

  // ---- proc_initupt ----------------------------------------------------------

  /** kvmAlloc of a directory. */
  ghost function NewRoot(m: Mem): Mem
    requires m.free != [] && m.free[0] in m.ref && m.free[0] in m.hold
  {
    var n := m.free[0];
    var m1 := Alloc(m);
    m1.(ref := m1.ref[n := m1.ref[n] + 1],
        hold := m1.hold[n := m1.hold[n] + 1],
        pending := m1.pending - {n},
        tab := m1.tab[n := ZeroTable()],
        owner := m1.owner[n := Root])
  }

  lemma NewRootTree(tab: Tables, owner: Owners, n: Ppn)
    requires TreeOk(tab, owner, {}) && n !in tab && Unnamed(tab, n)
    ensures TreeOk(tab[n := ZeroTable()], owner[n := Root], {})
  {
    var tab', owner' := tab[n := ZeroTable()], owner[n := Root];
    assert forall s, j: Idx :: Ent(tab', s, j) == Ent(tab, s, j);
    forall s | s in owner' ensures Hangs(tab', owner', {}, s) {
      if s != n { assert Hangs(tab, owner, {}, s); }
    }
    forall s, j: Idx | Live(tab', {}, s, j) ensures Points(tab', owner', s, j) {
      assert Live(tab, {}, s, j);
      assert Ent(tab, s, j).ppn != n;
    }
  }

  lemma NewRootLookups(tab: Tables, n: Ppn)
    requires n !in tab
    ensures forall q, u {:trigger Lookup(tab[n := ZeroTable()], q, u)} ::
              Lookup(tab[n := ZeroTable()], q, u) == Lookup(tab, q, u)
    ensures forall u :: Lookup(tab, n, u) == ZERO_PTE
  {
    assert forall s, j: Idx :: Ent(tab[n := ZeroTable()], s, j) == Ent(tab, s, j);
  }

  lemma NewRootBase(m: Mem, m': Mem)
    requires Whole(m) && m.pending == {} && m.free != [] && m.free[0] in m.ref && m.free[0] in m.hold
    requires m' == NewRoot(m)
    ensures Base(m') && m'.pending == {} && Stable(m, m') && m'.hold[m.free[0]] == 1
  {
    hide CountOk, FreeOk, TreeOk, TablesHeld;
    var n := m.free[0];
    AllocBase(m);
    FreeHead(m);
    var m1 := Alloc(m);
    CountGrow(m1.ref, m1.tab, m1.hold, n);
    NoHold(m1.ref, m1.tab, m1.hold, n);
    HeldOnce(m1.ref, m1.tab[n := ZeroTable()], m1.hold, n);
    HeldFree(m1.ref, m1.free, m1.pending, n);
  }

  lemma NoHold(ref: map<Ppn, nat>, tab: Tables, hold: map<Ppn, nat>, n: Ppn)
    requires CountOk(ref, tab, {}, hold) && n in ref && ref[n] == 0
    ensures hold[n] == 0
  {
    assert ref[n] == |Slots(tab, {}, n)| + hold[n];
  }

  lemma HeldFree(ref: map<Ppn, nat>, free: seq<Ppn>, pending: set<Ppn>, n: Ppn)
    requires FreeOk(ref, free, pending) && n in pending
    ensures FreeOk(ref[n := ref[n] + 1], free, pending - {n})
  {
  }

  /** One reference more, and one hold more to account for it. */
  lemma HeldOnce(ref: map<Ppn, nat>, tab: Tables, hold: map<Ppn, nat>, n: Ppn)
    requires CountOk(ref, tab, {}, hold) && n in ref
    ensures CountOk(ref[n := ref[n] + 1], tab, {}, hold[n := hold[n] + 1])
  {
    var ref', hold' := ref[n := ref[n] + 1], hold[n := hold[n] + 1];
    forall f | f in ref' ensures ref'[f] == |Slots(tab, {}, f)| + hold'[f] {
      assert ref[f] == |Slots(tab, {}, f)| + hold[f];
    }
  }

  lemma NewRootWhole(m: Mem, m': Mem)
    requires Whole(m) && m.pending == {} && m.free != [] && m.free[0] in m.ref && m.free[0] in m.hold
    requires m' == NewRoot(m)
    ensures Whole(m')
  {
    NewRootBase(m, m');
    FreeHead(m);
    assert m.free[0] in m.free;
    FreeUnnamed(m, m.free[0]);
    NewRootTree(m.tab, m.owner, m.free[0]);
  }

  /** The state after a new, empty directory c has been made. */
  ghost predicate Rooted(m: Mem, m': Mem, c: Ppn) {
    && m'.ad == m.ad && m'.boot == m.boot && Stable(m, m')
    && c in m.free && !IsRoot(m.owner, c)
    && (forall q :: IsRoot(m'.owner, q) <==> IsRoot(m.owner, q) || q == c)
    && (forall q, u {:trigger Lookup(m'.tab, q, u)} :: Lookup(m'.tab, q, u) == Lookup(m.tab, q, u))
    && (forall u {:trigger Lookup(m'.tab, c, u)} :: Lookup(m'.tab, c, u) == ZERO_PTE)
    && (forall f | f in m.hold && f != c :: f in m'.hold && m'.hold[f] == m.hold[f])
    && m'.tab.Keys == m.tab.Keys + {c}
  }

  lemma NewRootRooted(m: Mem, m': Mem)
    requires Whole(m) && m.pending == {} && m.free != [] && m.free[0] in m.ref && m.free[0] in m.hold
    requires m' == NewRoot(m)
    ensures Rooted(m, m', m.free[0])
  {
    FreeHead(m);
    assert m.free[0] in m.free;
    NewRootLookups(m.tab, m.free[0]);
  }

  lemma RootedUser(m: Mem, m': Mem, c: Ppn)
    requires UserOk(m) && Rooted(m, m', c)
    ensures CowOk(m') && UserPages(m') && BootHeld(m')
  {
    BootNotFree(m);
    forall p, q, u: Vpn, w: Vpn | IsRoot(m'.owner, p) && IsRoot(m'.owner, q) && !(p == q && u == w)
      ensures Apart(Lookup(m'.tab, p, u), Lookup(m'.tab, q, w))
    {
      if p != c && q != c { assert Apart(Lookup(m.tab, p, u), Lookup(m.tab, q, w)); }
    }
    forall q, u: Vpn | IsRoot(m'.owner, q) ensures UserEntry(m'.boot, u, Lookup(m'.tab, q, u)) {
      if q != c { assert UserEntry(m.boot, u, Lookup(m.tab, q, u)); }
    }
  }

  lemma RootedViews(m: Mem, m': Mem, c: Ppn)
    requires Whole(m) && Rooted(m, m', c)
    ensures Spawned(SimpleOf(m), c, SimpleOf(m'))
  {
    hide Whole, Lookup, Stable, ViewOf, KindsOf;
    forall q | IsRoot(m.owner, q) ensures ViewOf(m', q) == ViewOf(m, q) && KindsOf(m', q) == KindsOf(m, q) {
      RootedView(m, m', c, q);
    }
    EmptyView(m', c);
    SpawnedBy(m, m', c);
  }

  lemma RootedView(m: Mem, m': Mem, c: Ppn, q: Ppn)
    requires Whole(m) && Rooted(m, m', c) && IsRoot(m.owner, q)
    ensures ViewOf(m', q) == ViewOf(m, q) && KindsOf(m', q) == KindsOf(m, q)
  {
    forall u: Vpn ensures PageAt(m', Lookup(m.tab, q, u)) == PageAt(m, Lookup(m.tab, q, u)) {
      if Lookup(m.tab, q, u).v { InUse(m, q, u); }
    }
    SameViewOf(m, m', q);
    SameKindsOf(m, m', q);
  }

  lemma EmptyView(m: Mem, c: Ppn)
    requires forall u: Vpn {:trigger Lookup(m.tab, c, u)} :: Lookup(m.tab, c, u) == ZERO_PTE
    ensures ViewOf(m, c) == imap[] && KindsOf(m, c) == imap[]
  {
  }

  lemma SpawnedBy(m: Mem, m': Mem, c: Ppn)
    requires !IsRoot(m.owner, c) && (forall q :: IsRoot(m'.owner, q) <==> IsRoot(m.owner, q) || q == c)
    requires forall q | IsRoot(m.owner, q) :: ViewOf(m', q) == ViewOf(m, q) && KindsOf(m', q) == KindsOf(m, q)
    requires ViewOf(m', c) == imap[] && KindsOf(m', c) == imap[]
    ensures Spawned(SimpleOf(m), c, SimpleOf(m'))
  {
    hide ViewOf, KindsOf, AllViews, AllKinds, IsRoot;
    RootIs(m, c);
    forall q ensures SpawnedAt(SimpleOf(m), SimpleOf(m'), c, q) {
      RootIs(m, q);
      RootIs(m', q);
    }
    SpawnedAll(SimpleOf(m), SimpleOf(m'), c);
  }

  ghost predicate SpawnedAt(s: Simple, s': Simple, c: Ppn, q: Ppn) {
    && (q in s'.views <==> q in s.views || q == c) && (q in s'.kinds <==> q in s.kinds || q == c)
    && (q in s'.views ==> s'.views[q] == if q == c then imap[] else s.views[q])
    && (q in s'.kinds ==> s'.kinds[q] == if q == c then imap[] else s.kinds[q])
  }

  lemma SpawnedAll(s: Simple, s': Simple, c: Ppn)
    requires c !in s.views && forall q {:trigger SpawnedAt(s, s', c, q)} :: SpawnedAt(s, s', c, q)
    ensures Spawned(s, c, s')
  {
    forall q ensures q in s'.views <==> q in s.views[c := imap[]] { assert SpawnedAt(s, s', c, q); }
    forall q ensures q in s'.kinds <==> q in s.kinds[c := imap[]] { assert SpawnedAt(s, s', c, q); }
    forall q | q in s'.views ensures s'.views[q] == s.views[c := imap[]][q] { assert SpawnedAt(s, s', c, q); }
    forall q | q in s'.kinds ensures s'.kinds[q] == s.kinds[c := imap[]][q] { assert SpawnedAt(s, s', c, q); }
  }

  const PERM_TRAMPOLINE := NO_PERM.(r := true, x := true, g := true)
  const PERM_SIGNAL := NO_PERM.(r := true, x := true, u := true)
  const PERM_TRAPFRAME := NO_PERM.(r := true, w := true)

  ghost predicate BootFrame(m: Mem, f: Ppn) {
    f in m.boot && f != 0
  }

  lemma BootMappable(m: Mem, f: Ppn)
    requires UserOk(m) && BootFrame(m, f)
    ensures Mappable(m, f)
  {
    BootNotFree(m);
    assert m.ref[f] == |Slots(m.tab, m.dead, f)| + m.hold[f];
  }

  /** Mapping one of the kernel's own pages above user memory shows in no view. */
  lemma MapBoot(m: Mem, c: Ppn, v: Vpn, f: Ppn, perm: Perm, m': Mem)
    requires UserOk(m) && IsRoot(m.owner, c) && Special(v) && BootFrame(m, f)
    requires !perm.w && !perm.shared && !perm.cow && !Lookup(m.tab, c, v).perm.shared
    requires Map(m, c, v, f, perm) == Ok(m')
    ensures UserOk(m') && SimpleOf(m') == SimpleOf(m) && m'.boot == m.boot
    ensures OnlyAt(m, m', c, v) && Lookup(m'.tab, c, v) == MapEntry(m.ad, f, perm)
  {
    var p := MapEntry(m.ad, f, perm);
    BootNotFree(m);
    assert m.ref[f] == |Slots(m.tab, m.dead, f)| + m.hold[f];
    MapRemaps(m, c, v, f, perm, m');
    assert Compatible(m, p, c, v) by {
      forall q, u: Vpn | IsRoot(m.owner, q) && !(q == c && u == v) ensures Apart(p, Lookup(m.tab, q, u)) {
        assert UserEntry(m.boot, u, Lookup(m.tab, q, u));
      }
    }
    RemapUserOk(m, m', c, v, p);
    SpecialViews(m, m', c, v, p);
  }

  /** Entries outside (c, v) are as before. */
  ghost predicate OnlyAt(m: Mem, m': Mem, c: Ppn, v: Vpn) {
    forall q, u: Vpn {:trigger Lookup(m'.tab, q, u)} | IsRoot(m.owner, q) && !(q == c && u == v) ::
      Lookup(m'.tab, q, u) == Lookup(m.tab, q, u)
  }

  lemma SpecialViews(m: Mem, m': Mem, c: Ppn, v: Vpn, p: Pte)
    requires Whole(m) && Remapped(m, m', c, v, p) && IsRoot(m.owner, c) && Special(v)
    requires !p.perm.shared && !Lookup(m.tab, c, v).perm.shared
    ensures SimpleOf(m') == SimpleOf(m)
  {
    RemapViews(m, m', c, v, p);
    SpecialHidden(m, c, v, InView(p), PageAt(m', p));
    RemapKinds(m, m', c, v, p);
    KindIs(m, c, v);
    KindSame(AllKinds(m), c, v);
    RootIs(m, c);
  }

  lemma SpecialHidden(m: Mem, c: Ppn, v: Vpn, visible: bool, page: Page)
    requires IsRoot(m.owner, c) && Special(v)
    ensures AllViews(m)[c := SetPage(ViewOf(m, c), v, visible, page)] == AllViews(m)
  {
    assert SetPage(ViewOf(m, c), v, visible, page) == ViewOf(m, c);
  }

  lemma MapTrapframe(m: Mem, c: Ppn, v: Vpn, m': Mem)
    requires UserOk(m) && IsRoot(m.owner, c) && Special(v) && !Lookup(m.tab, c, v).perm.shared
    requires MapFresh(m, c, v, ZeroPage(), PERM_TRAPFRAME) == Ok(m')
    ensures UserOk(m') && SimpleOf(m') == SimpleOf(m) && m'.boot == m.boot && OnlyAt(m, m', c, v)
    ensures Lookup(m'.tab, c, v).v && !Lookup(m'.tab, c, v).perm.shared
  {
    MapFreshRemaps(m, c, v, ZeroPage(), PERM_TRAPFRAME, m');
    MapFreshUser(m, c, v, ZeroPage(), PERM_TRAPFRAME, m');
    SpecialViews(m, m', c, v, FreshEntry(m, PERM_TRAPFRAME));
  }

  const V_TRAMPOLINE := Vpn(255, 511, 511)
  const V_SIGNAL := Vpn(255, 511, 510)
  const V_TRAPFRAME := Vpn(255, 511, 509)

  /** proc_initupt: a directory with the three pages above user memory. */
  ghost function InitUpt(m: Mem, tramp: Ppn, sig: Ppn): Res<(Mem, Ppn)> {
    if m.free == [] || m.free[0] !in m.ref || m.free[0] !in m.hold then Panic
    else
      var c := m.free[0];
      var m2 :- Map(NewRoot(m), c, V_TRAMPOLINE, tramp, PERM_TRAMPOLINE);
      var m3 :- Map(m2, c, V_SIGNAL, sig, PERM_SIGNAL);
      var m4 :- MapFresh(m3, c, V_TRAPFRAME, ZeroPage(), PERM_TRAPFRAME);
      Ok((m4, c))
  }

  lemma InitUptParts(m: Mem, tramp: Ppn, sig: Ppn, m': Mem, c: Ppn) returns (m1: Mem, m2: Mem, m3: Mem)
    requires InitUpt(m, tramp, sig) == Ok((m', c))
    ensures m.free != [] && m.free[0] == c && c in m.ref && c in m.hold && m1 == NewRoot(m)
    ensures Map(m1, c, V_TRAMPOLINE, tramp, PERM_TRAMPOLINE) == Ok(m2)
    ensures Map(m2, c, V_SIGNAL, sig, PERM_SIGNAL) == Ok(m3)
    ensures MapFresh(m3, c, V_TRAPFRAME, ZeroPage(), PERM_TRAPFRAME) == Ok(m')
  {
    hide Map, MapFresh, NewRoot;
    m1 := NewRoot(m);
    m2 := Map(m1, c, V_TRAMPOLINE, tramp, PERM_TRAMPOLINE).value;
    m3 := Map(m2, c, V_SIGNAL, sig, PERM_SIGNAL).value;
  }

  /** A new address space: no user page of its own, and nothing else changed. */
  ghost predicate Born(m: Mem, m': Mem, c: Ppn) {
    && UserOk(m') && m'.boot == m.boot
    && !IsRoot(m.owner, c) && IsRoot(m'.owner, c)
    && Spawned(SimpleOf(m), c, SimpleOf(m'))
    && (forall u: Vpn {:trigger Lookup(m'.tab, c, u)} | !Special(u) :: Lookup(m'.tab, c, u) == ZERO_PTE)
    && (forall u: Vpn {:trigger Lookup(m'.tab, c, u)} :: !Lookup(m'.tab, c, u).perm.shared)
    && (forall q, u: Vpn {:trigger Lookup(m'.tab, q, u)} | IsRoot(m.owner, q) :: Lookup(m'.tab, q, u) == Lookup(m.tab, q, u))
  }

  lemma NewRootBorn(m: Mem, m': Mem)
    requires UserOk(m) && m.free != [] && m.free[0] in m.ref && m.free[0] in m.hold && m' == NewRoot(m)
    ensures Born(m, m', m.free[0])
  {
    NewRootWhole(m, m');
    NewRootBase(m, m');
    NewRootRooted(m, m');
    RootedUser(m, m', m.free[0]);
    RootedViews(m, m', m.free[0]);
  }

  lemma BornStep(m: Mem, m1: Mem, m2: Mem, c: Ppn, v: Vpn)
    requires Born(m, m1, c) && Special(v)
    requires UserOk(m2) && SimpleOf(m2) == SimpleOf(m1) && m2.boot == m1.boot && OnlyAt(m1, m2, c, v)
    requires !Lookup(m2.tab, c, v).perm.shared
    ensures Born(m, m2, c)
  {
    hide UserOk, AllViews, AllKinds, Lookup;
    RootIs(m1, c);
    RootIs(m2, c);
    forall q, u: Vpn | IsRoot(m.owner, q) ensures Lookup(m2.tab, q, u) == Lookup(m.tab, q, u) {
      RootIs(m, q);
      RootIs(m1, q);
      assert Lookup(m1.tab, q, u) == Lookup(m.tab, q, u);
    }
    forall u: Vpn ensures !Lookup(m2.tab, c, u).perm.shared && (!Special(u) ==> Lookup(m2.tab, c, u) == ZERO_PTE) {
      assert u != v ==> Lookup(m2.tab, c, u) == Lookup(m1.tab, c, u);
    }
  }

  /** The three pages above user memory are there. */
  ghost predicate HasSpecials(m: Mem, c: Ppn) {
    forall u: Vpn {:trigger Lookup(m.tab, c, u)} | Special(u) :: Lookup(m.tab, c, u) != ZERO_PTE
  }

  lemma InitUptBorn(m: Mem, tramp: Ppn, sig: Ppn, m': Mem, c: Ppn)
    requires UserOk(m) && BootFrame(m, tramp) && BootFrame(m, sig)
    requires InitUpt(m, tramp, sig) == Ok((m', c))
    ensures Born(m, m', c) && HasSpecials(m', c)
  {
    hide InitUpt, Map, MapFresh, UserOk, AllViews, AllKinds, NewRoot, Lookup;
    var m1, m2, m3 := InitUptParts(m, tramp, sig, m', c);
    NewRootBorn(m, m1);
    MapBoot(m1, c, V_TRAMPOLINE, tramp, PERM_TRAMPOLINE, m2);
    BornStep(m, m1, m2, c, V_TRAMPOLINE);
    MapBoot(m2, c, V_SIGNAL, sig, PERM_SIGNAL, m3);
    BornStep(m, m2, m3, c, V_SIGNAL);
    MapTrapframe(m3, c, V_TRAPFRAME, m');
    BornStep(m, m3, m', c, V_TRAPFRAME);
    forall u: Vpn | Special(u) ensures Lookup(m'.tab, c, u) != ZERO_PTE {
      assert u == V_TRAMPOLINE || u == V_SIGNAL || u == V_TRAPFRAME;
      assert Lookup(m3.tab, c, V_TRAMPOLINE) == Lookup(m2.tab, c, V_TRAMPOLINE);
      assert Lookup(m'.tab, c, V_TRAMPOLINE) == Lookup(m3.tab, c, V_TRAMPOLINE);
      assert Lookup(m'.tab, c, V_SIGNAL) == Lookup(m3.tab, c, V_SIGNAL);
    }
  }

  // ---- duppage and its walk ------------------------------------------------------

  /** (perm & ~PTE_W) | PTE_COW */
  function CowPerm(perm: Perm): Perm {
    perm.(w := false, cow := true)
  }

  /** duppage at a page where the parent has an entry. */
  ghost function Dup(m: Mem, p: Ppn, c: Ppn, v: Vpn): Res<Mem> {
    var e := Lookup(m.tab, p, v);
    if Lookup(m.tab, c, v) != ZERO_PTE then Ok(m)
    else if Passive(e) then Map(m, c, v, 0, e.perm)
    else if e.perm.w && e.perm.u && !e.perm.shared then
      var m1 :- Map(m, c, v, e.ppn, CowPerm(e.perm));
      Map(m1, p, v, e.ppn, CowPerm(e.perm))
    else if e.perm.u then Map(m, c, v, e.ppn, e.perm)
    else Panic
  }

  /** The position of a place of the walk, 512 entries to a table. */
  function Place(i: nat, j: nat, k: nat): nat {
    i * 262144 + j * 512 + k
  }

  /** 512 * 512 * 512 */
  const PAGE_COUNT := 134217728

  lemma PlaceEnds()
    ensures Place(0, 0, 0) == 0 && Place(512, 0, 0) == PAGE_COUNT
  {
  }

  lemma PlaceNext(i: nat, j: nat, k: nat)
    ensures Place(i, j, k + 1) == Place(i, j, k) + 1
    ensures Place(i, j, 512) == Place(i, j + 1, 0) && Place(i, 512, 0) == Place(i + 1, 0, 0)
  {
  }

  function Num(v: Vpn): nat {
    Place(v.i, v.j, v.k)
  }

  /** duppage leaves the page alone: the parent has none there, or the child already has one. */
  ghost predicate Skipped(m: Mem, p: Ppn, c: Ppn, v: Vpn) {
    Lookup(m.tab, p, v) == ZERO_PTE || Lookup(m.tab, c, v) != ZERO_PTE
  }

  ghost function ChildEntry(m: Mem, p: Ppn, c: Ppn, v: Vpn): Pte {
    var e := Lookup(m.tab, p, v);
    if Skipped(m, p, c, v) then Lookup(m.tab, c, v)
    else if PrivateWritable(e) then Pte(true, e.ppn, Machine(m.ad, CowPerm(e.perm)))
    else if e.v then Pte(true, e.ppn, Machine(m.ad, e.perm))
    else e
  }

  ghost function ParentEntry(m: Mem, p: Ppn, c: Ppn, v: Vpn): Pte {
    var e := Lookup(m.tab, p, v);
    if !Skipped(m, p, c, v) && PrivateWritable(e) then Pte(true, e.ppn, Machine(m.ad, CowPerm(e.perm))) else e
  }

  /** What the walk has made of every entry once it has passed position n. */
  ghost function Expect(m: Mem, p: Ppn, c: Ppn, n: nat, q: Ppn, u: Vpn): Pte {
    if Num(u) < n && q == c then ChildEntry(m, p, c, u)
    else if Num(u) < n && q == p then ParentEntry(m, p, c, u)
    else Lookup(m.tab, q, u)
  }

  /** m differs from m0 only in entries and added tables; no frame in use has been freed. */
  ghost predicate Carried(m0: Mem, m: Mem) {
    && SameView(m0, m) && m.pending == {} && m.dead == {}
    && (forall f | f in m.free :: f in m0.free)
    && (forall f | f in m.tab :: f in m0.tab || f in m0.free)
  }

  ghost predicate Dupd(m0: Mem, m: Mem, p: Ppn, c: Ppn, n: nat) {
    && Carried(m0, m)
    && (forall q, u {:trigger Lookup(m.tab, q, u)} | IsRoot(m0.owner, q) ::
          Lookup(m.tab, q, u) == Expect(m0, p, c, n, q, u))
  }

  /** The walk may start from a whole state with two different address spaces. */
  ghost predicate Forkable(m: Mem, p: Ppn, c: Ppn) {
    Whole(m) && m.pending == {} && IsRoot(m.owner, p) && IsRoot(m.owner, c) && p != c
  }

  lemma ShareFrame(m: Mem, p: Ppn, v: Vpn)
    requires Whole(m) && IsRoot(m.owner, p)
    ensures Mappable(m, Lookup(m.tab, p, v).ppn)
    ensures !Lookup(m.tab, p, v).v ==> Lookup(m.tab, p, v).ppn == 0
  {
    if Lookup(m.tab, p, v).v {
      InUse(m, p, v);
    } else if HasPath(m.tab, p, v) {
      LeafOwner(m.tab, m.owner, p, v);
    }
  }

  lemma CarriedOn(m0: Mem, m: Mem, m': Mem, q: Ppn, v: Vpn, e: Pte)
    requires Carried(m0, m) && Remapped(m, m', q, v, e) && KeepsFrame(Lookup(m.tab, q, v), e)
    ensures Carried(m0, m')
  {
  }

  lemma NumInjective(u: Vpn, v: Vpn)
    ensures Num(u) == Num(v) ==> u == v
  {
    if u.i != v.i {
      var a, b := if u.i < v.i then u else v, if u.i < v.i then v else u;
      assert Num(a) < (a.i + 1) * 262144 <= Num(b);
    } else if u.j != v.j {
      var a, b := if u.j < v.j then u else v, if u.j < v.j then v else u;
      assert a.j * 512 + a.k < (a.j + 1) * 512 <= b.j * 512 + b.k;
    }
  }

  lemma DupSkip(m0: Mem, m: Mem, p: Ppn, c: Ppn, v: Vpn)
    requires Dupd(m0, m, p, c, Num(v)) && Skipped(m0, p, c, v)
    ensures Dupd(m0, m, p, c, Num(v) + 1)
  {
    forall q, u | IsRoot(m0.owner, q) ensures Lookup(m.tab, q, u) == Expect(m0, p, c, Num(v) + 1, q, u) {
      NumInjective(u, v);
    }
  }

  lemma DupOne(m0: Mem, m: Mem, m': Mem, p: Ppn, c: Ppn, v: Vpn, e: Pte)
    requires Dupd(m0, m, p, c, Num(v)) && Remapped(m, m', c, v, e) && p != c
    requires IsRoot(m0.owner, c) && IsRoot(m0.owner, p)
    requires Lookup(m0.tab, c, v) == ZERO_PTE && e == ChildEntry(m0, p, c, v) && ParentEntry(m0, p, c, v) == Lookup(m0.tab, p, v)
    ensures Dupd(m0, m', p, c, Num(v) + 1)
  {
    CarriedOn(m0, m, m', c, v, e);
    forall q, u | IsRoot(m0.owner, q) ensures Lookup(m'.tab, q, u) == Expect(m0, p, c, Num(v) + 1, q, u) {
      NumInjective(u, v);
      assert IsRoot(m.owner, q);
    }
  }

  lemma DupTwo(m0: Mem, m: Mem, m1: Mem, m': Mem, p: Ppn, c: Ppn, v: Vpn, e: Pte)
    requires Dupd(m0, m, p, c, Num(v)) && Remapped(m, m1, c, v, e) && Remapped(m1, m', p, v, e) && p != c
    requires IsRoot(m0.owner, c) && IsRoot(m0.owner, p)
    requires Lookup(m0.tab, c, v) == ZERO_PTE && e == ChildEntry(m0, p, c, v) == ParentEntry(m0, p, c, v)
    requires KeepsFrame(Lookup(m0.tab, p, v), e)
    ensures Dupd(m0, m', p, c, Num(v) + 1)
  {
    assert IsRoot(m.owner, p) && IsRoot(m.owner, c);
    CarriedOn(m0, m, m1, c, v, e);
    assert Lookup(m1.tab, p, v) == Lookup(m0.tab, p, v);
    CarriedOn(m0, m1, m', p, v, e);
    forall q, u | IsRoot(m0.owner, q) ensures Lookup(m'.tab, q, u) == Expect(m0, p, c, Num(v) + 1, q, u) {
      NumInjective(u, v);
      assert IsRoot(m.owner, q) && IsRoot(m1.owner, q);
      assert Lookup(m1.tab, q, u) == if q == c && u == v then e else Lookup(m.tab, q, u);
    }
  }

  lemma DupParts(m: Mem, p: Ppn, c: Ppn, v: Vpn, m': Mem) returns (m1: Mem)
    requires Dup(m, p, c, v) == Ok(m') && Lookup(m.tab, c, v) == ZERO_PTE
    requires Lookup(m.tab, p, v).perm.w && Lookup(m.tab, p, v).perm.u && !Lookup(m.tab, p, v).perm.shared
    requires !Passive(Lookup(m.tab, p, v))
    ensures var e := Lookup(m.tab, p, v);
            && Map(m, c, v, e.ppn, CowPerm(e.perm)) == Ok(m1)
            && Map(m1, p, v, e.ppn, CowPerm(e.perm)) == Ok(m')
  {
    m1 := Map(m, c, v, Lookup(m.tab, p, v).ppn, CowPerm(Lookup(m.tab, p, v).perm)).value;
  }

  /** A user-writable private page becomes copy-on-write on both sides. */
  lemma DupCow(m0: Mem, m: Mem, p: Ppn, c: Ppn, v: Vpn, m': Mem)
    requires Forkable(m0, p, c) && Whole(m) && Dupd(m0, m, p, c, Num(v))
    requires Dup(m, p, c, v) == Ok(m') && Lookup(m0.tab, c, v) == ZERO_PTE && PrivateWritable(Lookup(m0.tab, p, v))
    ensures Whole(m') && Dupd(m0, m', p, c, Num(v) + 1)
  {
    var e := Lookup(m0.tab, p, v);
    assert IsRoot(m.owner, p) && IsRoot(m.owner, c);
    assert Lookup(m.tab, p, v) == e && Lookup(m.tab, c, v) == ZERO_PTE;
    var m1 := DupParts(m, p, c, v, m');
    MapBoth(m, p, c, v, e, m1, m');
    DupTwo(m0, m, m1, m', p, c, v, Pte(true, e.ppn, Machine(m.ad, CowPerm(e.perm))));
  }

  lemma MapBoth(m: Mem, p: Ppn, c: Ppn, v: Vpn, e: Pte, m1: Mem, m': Mem)
    requires Whole(m) && IsRoot(m.owner, p) && IsRoot(m.owner, c) && p != c && Lookup(m.tab, p, v) == e && e.v
    requires Map(m, c, v, e.ppn, CowPerm(e.perm)) == Ok(m1) && Map(m1, p, v, e.ppn, CowPerm(e.perm)) == Ok(m')
    ensures var e' := Pte(true, e.ppn, Machine(m.ad, CowPerm(e.perm)));
            Remapped(m, m1, c, v, e') && Remapped(m1, m', p, v, e') && Whole(m')
  {
    InUse(m, p, v);
    MapRemaps(m, c, v, e.ppn, CowPerm(e.perm), m1);
    assert IsRoot(m1.owner, p);
    assert Lookup(m1.tab, p, v) == e;
    InUse(m1, p, v);
    MapRemaps(m1, p, v, e.ppn, CowPerm(e.perm), m');
  }

  /** Any other page is passed on as it is. */
  lemma DupPlain(m0: Mem, m: Mem, p: Ppn, c: Ppn, v: Vpn, m': Mem)
    requires Forkable(m0, p, c) && Whole(m) && Dupd(m0, m, p, c, Num(v))
    requires Dup(m, p, c, v) == Ok(m') && Lookup(m0.tab, c, v) == ZERO_PTE
    requires !PrivateWritable(Lookup(m0.tab, p, v)) && Lookup(m0.tab, p, v) != ZERO_PTE
    ensures Whole(m') && Dupd(m0, m', p, c, Num(v) + 1)
  {
    var e := Lookup(m0.tab, p, v);
    assert IsRoot(m.owner, p) && IsRoot(m.owner, c);
    assert Lookup(m.tab, p, v) == e && Lookup(m.tab, c, v) == ZERO_PTE;
    ShareFrame(m, p, v);
    if e.v { InUse(m, p, v); }
    assert Map(m, c, v, e.ppn, e.perm) == Ok(m');
    MapRemaps(m, c, v, e.ppn, e.perm, m');
    DupOne(m0, m, m', p, c, v, MapEntry(m.ad, e.ppn, e.perm));
  }

  lemma DupStep(m0: Mem, m: Mem, p: Ppn, c: Ppn, v: Vpn, m': Mem)
    requires Forkable(m0, p, c) && Whole(m) && Dupd(m0, m, p, c, Num(v))
    requires Lookup(m0.tab, p, v) != ZERO_PTE && Dup(m, p, c, v) == Ok(m')
    ensures Whole(m') && Dupd(m0, m', p, c, Num(v) + 1)
  {
    assert Lookup(m.tab, c, v) == Lookup(m0.tab, c, v);
    if Lookup(m0.tab, c, v) != ZERO_PTE {
      assert m' == m;
      DupSkip(m0, m, p, c, v);
    } else if PrivateWritable(Lookup(m0.tab, p, v)) {
      DupCow(m0, m, p, c, v, m');
    } else {
      DupPlain(m0, m, p, c, v, m');
    }
  }
}
