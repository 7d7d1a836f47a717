/**
 Physical pages and page tables: the state of kern/mm/pmm.c and kern/mm/vmm.c as
 a value, its invariant, and what each elementary update does to it.
 */
module VmState {
  import opened Panics
  import opened Words
  import opened Sv39
  import opened PageTables

  type Page = seq<Byte>

  function ZeroPage(): (s: Page)
    ensures |s| == PAGE_SIZE && forall i | 0 <= i < |s| :: s[i] == 0
  {
    Zeros(PAGE_SIZE)
  }

  /**
   ref and free are pages[].ref and pageFreeList; tab and data are memory, by what
   each frame is used for.  The rest is bookkeeping of the proof: where each table
   hangs, the references kvmAlloc and the boot code hold, the frames vmAlloc has
   handed out that are not mapped yet, and the entries whose table has already
   been returned while an address space is taken apart.  ad is the build option
   MMU_AD_ENABLE, and boot are the kernel frames that are mapped into every process.
   */
  datatype Mem = Mem(
    ad: bool,
    boot: set<Ppn>,
    ref: map<Ppn, nat>,
    free: seq<Ppn>,
    tab: Tables,
    data: map<Ppn, Page>,
    owner: Owners,
    hold: map<Ppn, nat>,
    pending: set<Ppn>,
    dead: set<Slot>)

  /** Every reference count is the number of live entries naming the frame plus the holds on it. */
  ghost predicate CountOk(ref: map<Ppn, nat>, tab: Tables, dead: set<Slot>, hold: map<Ppn, nat>) {
    && ref.Keys == hold.Keys && 0 !in ref
    && (forall f {:trigger Slots(tab, dead, f)} | f in ref :: ref[f] == |Slots(tab, dead, f)| + hold[f])
    && (forall t, i: Idx {:trigger Live(tab, dead, t, i)} | Live(tab, dead, t, i) :: Ent(tab, t, i).ppn in ref)
  }

  /** The free list is exactly the unreferenced frames that have not been handed out. */
  ghost predicate FreeOk(ref: map<Ppn, nat>, free: seq<Ppn>, pending: set<Ppn>) {
    && NoDup(free)
    && (forall f :: f in free <==> f in ref && ref[f] == 0 && f !in pending)
    && (forall f | f in pending :: f in ref && ref[f] == 0)
  }

  ghost predicate DataOk(ref: map<Ppn, nat>, data: map<Ppn, Page>) {
    data.Keys == ref.Keys && forall f {:trigger data[f]} | f in data :: |data[f]| == PAGE_SIZE
  }

  /** A directory is held once, by kvmAlloc; the tables below it only by the entry above them. */
  ghost predicate TablesHeld(owner: Owners, hold: map<Ppn, nat>) {
    forall t | t in owner :: t in hold && hold[t] == if owner[t].Root? then 1 else 0
  }

  /** Counts, free list and memory agree. */
  ghost predicate Base(m: Mem) {
    && CountOk(m.ref, m.tab, m.dead, m.hold)
    && FreeOk(m.ref, m.free, m.pending)
    && DataOk(m.ref, m.data)
  }

  /** Base, and the tables are trees whose directories are held. */
  ghost predicate Inv(m: Mem) {
    && Base(m)
    && TreeOk(m.tab, m.owner, m.dead)
    && TablesHeld(m.owner, m.hold)
    && (forall f | f in m.pending :: f !in m.tab)
  }

  /** Frames outside the old free list keep their bytes; nothing referenced becomes free here. */
  ghost predicate Stable(m: Mem, m': Mem) {
    && m'.data.Keys == m.data.Keys
    && (forall f | f in m.data && f !in m.free :: m'.data[f] == m.data[f])
  }

  // ---- elementary updates --------------------------------------------------

  /** pmAlloc when a frame is left. */
  ghost function Alloc(m: Mem): Mem
    requires m.free != []
  {
    m.(free := m.free[1..], data := m.data[m.free[0] := ZeroPage()], pending := m.pending + {m.free[0]})
  }

  /** The counts after an entry changes from cur to value. */
  ghost function RefMove(ref: map<Ppn, nat>, cur: Pte, value: Pte): map<Ppn, nat>
    requires cur.v ==> cur.ppn in ref && ref[cur.ppn] > 0
  {
    map f | f in ref :: ref[f] + OneIf(value.v && f == value.ppn) - OneIf(cur.v && f == cur.ppn)
  }

  ghost function FreeAfter(ref: map<Ppn, nat>, free: seq<Ppn>, cur: Pte, value: Pte): seq<Ppn>
    requires cur.v ==> cur.ppn in ref && ref[cur.ppn] > 0
  {
    if cur.v && !(value.v && cur.ppn == value.ppn) && ref[cur.ppn] == 1 then [cur.ppn] + free else free
  }

  ghost function PendingAfter(pending: set<Ppn>, value: Pte): set<Ppn> {
    if value.v then pending - {value.ppn} else pending
  }

  /** An entry that may be rewritten. */
  ghost predicate Writable(m: Mem, t: Ppn, i: Idx) {
    && t in m.tab && |m.tab[t]| == PAGE_INDEX_MAX
    && (Ent(m.tab, t, i).v ==> Ent(m.tab, t, i).ppn in m.ref && m.ref[Ent(m.tab, t, i).ppn] > 0)
  }

  /** ptModify and ptClear: the reference moves with the entry. */
  ghost function SetPte(m: Mem, t: Ppn, i: Idx, value: Pte): Mem {
    var cur := Ent(m.tab, t, i);
    if !Writable(m, t, i) then m else
    m.(ref := RefMove(m.ref, cur, value),
       free := FreeAfter(m.ref, m.free, cur, value),
       tab := SetEnt(m.tab, t, i, value),
       pending := PendingAfter(m.pending, value))
  }

  lemma AllocBase(m: Mem)
    requires Base(m) && m.free != []
    ensures Base(Alloc(m)) && Stable(m, Alloc(m))
    ensures m.free[0] in m.ref && m.ref[m.free[0]] == 0 && m.free[0] !in m.pending
    ensures m.free[0] !in Alloc(m).free
    ensures forall f :: f in m.free <==> f == m.free[0] || f in Alloc(m).free
  {
    assert m.free[0] in m.free;
  }

  /** The same counts, reached by one decrement and one increment. */
  lemma RefMoveSteps(ref: map<Ppn, nat>, cur: Pte, value: Pte)
    requires cur.v ==> cur.ppn in ref && ref[cur.ppn] > 0
    requires value.v ==> value.ppn in ref
    ensures cur.v == value.v && cur.ppn == value.ppn ==> RefMove(ref, cur, value) == ref
    ensures cur.ppn != value.ppn ==>
              var r := if cur.v then ref[cur.ppn := ref[cur.ppn] - 1] else ref;
              RefMove(ref, cur, value) == if value.v then r[value.ppn := r[value.ppn] + 1] else r
    ensures !value.v ==> RefMove(ref, cur, value) == if cur.v then ref[cur.ppn := ref[cur.ppn] - 1] else ref
  {
  }

  lemma CountMove(ref: map<Ppn, nat>, tab: Tables, dead: set<Slot>, hold: map<Ppn, nat>, t: Ppn, i: Idx, value: Pte)
    requires CountOk(ref, tab, dead, hold)
    requires t in tab && |tab[t]| == PAGE_INDEX_MAX && Slot(t, i) !in dead
    requires value.v ==> value.ppn in ref
    ensures var cur := Ent(tab, t, i);
            && (cur.v ==> cur.ppn in ref && ref[cur.ppn] > 0)
            && CountOk(RefMove(ref, cur, value), SetEnt(tab, t, i, value), dead, hold)
  {
    var cur, tab' := Ent(tab, t, i), SetEnt(tab, t, i, value);
    if cur.v {
      assert Live(tab, dead, t, i);
      SlotsAfterWrite(tab, dead, t, i, value, cur.ppn);
    }
    var ref' := RefMove(ref, cur, value);
    forall f | f in ref' ensures ref'[f] == |Slots(tab', dead, f)| + hold[f] {
      SlotsAfterWrite(tab, dead, t, i, value, f);
    }
    forall s, j: Idx | Live(tab', dead, s, j) ensures Ent(tab', s, j).ppn in ref' {
      if s != t || j != i { assert Live(tab, dead, s, j); }
    }
  }

  lemma FreeMove(ref: map<Ppn, nat>, free: seq<Ppn>, pending: set<Ppn>, cur: Pte, value: Pte)
    requires FreeOk(ref, free, pending)
    requires cur.v ==> cur.ppn in ref && ref[cur.ppn] > 0
    requires value.v ==> value.ppn in ref && value.ppn !in free
    ensures FreeOk(RefMove(ref, cur, value), FreeAfter(ref, free, cur, value), PendingAfter(pending, value))
  {
  }

  /** Rewriting a leaf entry keeps the whole invariant and changes one lookup. */
  lemma SetLeaf(m: Mem, t: Ppn, k: Idx, value: Pte)
    requires Inv(m) && t in m.owner && m.owner[t].Low?
    requires if value.v then value.ppn in m.ref && value.ppn !in m.free && value.ppn !in m.tab else value.ppn == 0
    ensures Writable(m, t, k) && Inv(SetPte(m, t, k, value))
    ensures forall q, u {:trigger Lookup(SetPte(m, t, k, value).tab, q, u)} | IsRoot(m.owner, q) ::
              Lookup(SetPte(m, t, k, value).tab, q, u) ==
              if q == m.owner[t].pd && u == Vpn(m.owner[t].i, m.owner[t].j, k) then value else Lookup(m.tab, q, u)
  {
    CountMove(m.ref, m.tab, m.dead, m.hold, t, k, value);
    FreeMove(m.ref, m.free, m.pending, Ent(m.tab, t, k), value);
    LeafWrite(m.tab, m.owner, m.dead, t, k, value);
  }

  // ---- ptWalk and ptMap ------------------------------------------------------

  /** What ptWalk does at a missing level: a zeroed frame becomes the table below entry i of t. */
  ghost function Hang(m: Mem, t: Ppn, i: Idx): Mem
    requires m.free != [] && t in m.owner && !m.owner[t].Low?
  {
    var n := m.free[0];
    var m1 := Alloc(m);
    SetPte(m1.(tab := m1.tab[n := ZeroTable()], owner := m1.owner[n := ChildNode(m1.owner, t, i)]),
           t, i, Pte(true, n, NO_PERM))
  }

  /** The tables are whole, so that walks may add levels. */
  ghost predicate Whole(m: Mem) {
    Inv(m) && m.dead == {}
  }

  /** A change that leaves every lookup, every hold and the bytes of every frame in use alone. */
  ghost predicate SameView(m: Mem, m': Mem) {
    && m'.ad == m.ad && m'.boot == m.boot && m'.hold == m.hold && m'.ref.Keys == m.ref.Keys
    && (forall q :: IsRoot(m'.owner, q) <==> IsRoot(m.owner, q))
    && Stable(m, m')
  }

  lemma TableInUse(m: Mem, t: Ppn)
    requires Whole(m) && t in m.tab
    ensures t in m.ref && m.ref[t] > 0 && t !in m.free
  {
    assert Hangs(m.tab, m.owner, {}, t);
    match m.owner[t]
    case Root =>
    case Mid(pd, i) => assert Slot(pd, i) in Slots(m.tab, {}, t);
    case Low(pd, i, j) => assert Slot(Ent(m.tab, pd, i).ppn, j) in Slots(m.tab, {}, t);
  }

  lemma FreeUnnamed(m: Mem, n: Ppn)
    requires Whole(m) && n in m.ref && m.ref[n] == 0
    ensures n !in m.tab && Unnamed(m.tab, n)
  {
    if n in m.tab { TableInUse(m, n); }
    forall s, j: Idx | Live(m.tab, {}, s, j) ensures Ent(m.tab, s, j).ppn != n {
      assert Slot(s, j) in Slots(m.tab, {}, Ent(m.tab, s, j).ppn);
    }
  }

  /** m' is m with tables added: nothing that could be seen before has changed. */
  ghost predicate Grown(m: Mem, m': Mem) {
    && SameView(m, m') && m'.pending == m.pending && m'.dead == m.dead
    && (forall q, u {:trigger Lookup(m'.tab, q, u)} :: IsRoot(m.owner, q) ==> Lookup(m'.tab, q, u) == Lookup(m.tab, q, u))
    && (forall f | f in m.owner :: f in m'.owner && m'.owner[f] == m.owner[f])
    && (forall s, j: Idx {:trigger Ent(m'.tab, s, j)} | Ent(m.tab, s, j).v :: Ent(m'.tab, s, j) == Ent(m.tab, s, j))
    && (forall f | f in m'.free :: f in m.free)
    && (forall f | f in m'.tab :: f in m.tab || f in m.free)
  }

  lemma HangWhole(m: Mem, t: Ppn, i: Idx, m': Mem)
    requires Whole(m) && m.free != []
    requires t in m.owner && !m.owner[t].Low? && !Ent(m.tab, t, i).v
    requires m' == Hang(m, t, i)
    ensures Whole(m')
  {
    var n := m.free[0];
    AllocBase(m);
    FreeUnnamed(m, n);
    GrowTree(m.tab, m.owner, t, i, n);
    HangCount(m, t, i);
    HangHeld(m, n, ChildNode(m.owner, t, i));
  }

  lemma HangHeld(m: Mem, n: Ppn, node: Node)
    requires CountOk(m.ref, m.tab, m.dead, m.hold) && TablesHeld(m.owner, m.hold)
    requires n in m.ref && m.ref[n] == 0 && !node.Root?
    ensures TablesHeld(m.owner[n := node], m.hold)
  {
    assert m.ref[n] == |Slots(m.tab, m.dead, n)| + m.hold[n];
  }

  lemma HangGrown(m: Mem, t: Ppn, i: Idx, m': Mem)
    requires TreeOk(m.tab, m.owner, {}) && m.free != []
    requires t in m.owner && !m.owner[t].Low? && !Ent(m.tab, t, i).v
    requires var n := m.free[0]; n in m.ref && n in m.data && n !in m.pending && n !in m.tab
    requires m' == Hang(m, t, i)
    ensures Grown(m, m') && Ent(m'.tab, t, i).v
  {
    HangFrame(m, t, i);
    HangLookups(m, t, i, m.free[0]);
  }

  lemma FreeHead(m: Mem)
    requires Whole(m) && m.free != []
    ensures var n := m.free[0]; n in m.ref && n in m.data && n !in m.pending && n !in m.tab
  {
    assert m.free[0] in m.free;
    if m.free[0] in m.tab { TableInUse(m, m.free[0]); }
  }

  lemma HangLookups(m: Mem, t: Ppn, i: Idx, n: Ppn)
    requires TreeOk(m.tab, m.owner, {})
    requires t in m.owner && !m.owner[t].Low? && !Ent(m.tab, t, i).v && n !in m.tab
    ensures forall q, u {:trigger Lookup(Hung(m.tab, t, i, n), q, u)} | IsRoot(m.owner, q) ::
              Lookup(Hung(m.tab, t, i, n), q, u) == Lookup(m.tab, q, u)
  {
    forall q, u | IsRoot(m.owner, q) ensures Lookup(Hung(m.tab, t, i, n), q, u) == Lookup(m.tab, q, u) {
      GrowLookup(m.tab, m.owner, t, i, n, q, u);
    }
  }

  /** The parts of Grown that do not follow a path. */
  lemma HangFrame(m: Mem, t: Ppn, i: Idx)
    requires m.free != [] && t in m.tab && |m.tab[t]| == PAGE_INDEX_MAX
    requires m.tab.Keys == m.owner.Keys
    requires t in m.owner && !m.owner[t].Low? && !Ent(m.tab, t, i).v && m.free[0] !in m.tab
    requires m.free[0] in m.ref && m.free[0] in m.data && m.free[0] !in m.pending
    ensures var m' := Hang(m, t, i);
            && SameView(m, m') && m'.pending == m.pending
            && m'.owner == m.owner[m.free[0] := ChildNode(m.owner, t, i)]
            && m'.tab == Hung(m.tab, t, i, m.free[0])
            && (forall s, j: Idx :: Ent(m'.tab, s, j) == if s == t && j == i then Pte(true, m.free[0], NO_PERM) else Ent(m.tab, s, j))
            && (forall f | f in m'.free :: f in m.free)
            && (forall f | f in m'.tab :: f in m.tab || f in m.free)
  {
    assert m.free[0] in m.free;
    GrowEnt(m.tab, t, i, m.free[0]);
  }

  lemma CountGrow(ref: map<Ppn, nat>, tab: Tables, hold: map<Ppn, nat>, n: Ppn)
    requires CountOk(ref, tab, {}, hold) && n !in tab
    ensures CountOk(ref, tab[n := ZeroTable()], {}, hold)
  {
    var tab1 := tab[n := ZeroTable()];
    forall f | f in ref ensures ref[f] == |Slots(tab1, {}, f)| + hold[f] {
      SlotsAfterGrow(tab, {}, n, f);
    }
    forall s, j: Idx | Live(tab1, {}, s, j) ensures Ent(tab1, s, j).ppn in ref {
      assert Live(tab, {}, s, j);
    }
  }

  lemma HangCount(m: Mem, t: Ppn, i: Idx)
    requires Base(m) && m.dead == {} && m.free != []
    requires t in m.tab && |m.tab[t]| == PAGE_INDEX_MAX
    requires t in m.owner && !m.owner[t].Low? && !Ent(m.tab, t, i).v && m.free[0] !in m.tab
    ensures var m' := Hang(m, t, i);
            && Base(m') && m'.pending == m.pending && m'.free == m.free[1..]
            && m'.tab == Hung(m.tab, t, i, m.free[0])
  {
    var n := m.free[0];
    AllocBase(m);
    var m1 := Alloc(m);
    var tab1 := m1.tab[n := ZeroTable()];
    CountGrow(m1.ref, m1.tab, m1.hold, n);
    CountMove(m1.ref, tab1, {}, m1.hold, t, i, Pte(true, n, NO_PERM));
    FreeMove(m1.ref, m1.free, m1.pending, ZERO_PTE.(perm := Ent(tab1, t, i).perm), Pte(true, n, NO_PERM));
    assert m1.pending - {n} == m.pending;
  }

  /** One level of ptWalk with create set. */
  ghost function Descend(m: Mem, t: Ppn, i: Idx): Res<Mem> {
    if Ent(m.tab, t, i).v then Ok(m)
    else if m.free == [] || t !in m.owner || m.owner[t].Low? then Panic
    else Ok(Hang(m, t, i))
  }

  lemma DescendInv(m: Mem, t: Ppn, i: Idx, m': Mem)
    requires Whole(m) && t in m.owner && !m.owner[t].Low?
    requires Descend(m, t, i) == Ok(m')
    ensures Whole(m') && Grown(m, m') && Ent(m'.tab, t, i).v
  {
    if Ent(m.tab, t, i).v {
      assert m' == m;
    } else {
      HangWhole(m, t, i, m');
      FreeHead(m);
      HangGrown(m, t, i, m');
    }
  }

  /** ptWalk with create set. */
  ghost function WalkCreate(m: Mem, pd: Ppn, v: Vpn): Res<Mem> {
    var m1 :- Descend(m, pd, v.i);
    Descend(m1, MidOf(m1.tab, pd, v), v.j)
  }

  lemma GrownTwice(m: Mem, m1: Mem, m2: Mem)
    requires Grown(m, m1) && Grown(m1, m2)
    ensures Grown(m, m2)
  {
    forall q, u | IsRoot(m.owner, q) ensures Lookup(m2.tab, q, u) == Lookup(m.tab, q, u) {
      assert IsRoot(m1.owner, q);
      assert Lookup(m1.tab, q, u) == Lookup(m.tab, q, u);
    }
    forall s, j: Idx | Ent(m.tab, s, j).v ensures Ent(m2.tab, s, j) == Ent(m.tab, s, j) {
      assert Ent(m1.tab, s, j) == Ent(m.tab, s, j);
    }
  }

  lemma MidOwner(m: Mem, pd: Ppn, v: Vpn)
    requires Whole(m) && IsRoot(m.owner, pd) && Ent(m.tab, pd, v.i).v
    ensures MidOf(m.tab, pd, v) in m.owner && m.owner[MidOf(m.tab, pd, v)] == Mid(pd, v.i)
  {
    assert Live(m.tab, {}, pd, v.i);
  }

  /** After ptWalk with create set both upper levels exist for v, and no lookup has changed. */
  lemma WalkInv(m: Mem, pd: Ppn, v: Vpn, m': Mem)
    requires Whole(m) && IsRoot(m.owner, pd)
    requires WalkCreate(m, pd, v) == Ok(m')
    ensures Whole(m') && Grown(m, m') && HasPath(m'.tab, pd, v)
  {
    var m1 := Descend(m, pd, v.i).value;
    DescendInv(m, pd, v.i, m1);
    assert IsRoot(m1.owner, pd);
    WalkRest(m1, pd, v, m');
    GrownTwice(m, m1, m');
  }

  lemma WalkRest(m: Mem, pd: Ppn, v: Vpn, m': Mem)
    requires Whole(m) && IsRoot(m.owner, pd) && Ent(m.tab, pd, v.i).v
    requires Descend(m, MidOf(m.tab, pd, v), v.j) == Ok(m')
    ensures Whole(m') && Grown(m, m') && HasPath(m'.tab, pd, v)
  {
    MidOwner(m, pd, v);
    DescendInv(m, MidOf(m.tab, pd, v), v.j, m');
    assert Ent(m'.tab, pd, v.i) == Ent(m.tab, pd, v.i);
  }

  /** PTE_MACHINE */
  function Machine(ad: bool, perm: Perm): Perm {
    if ad then perm.(a := true, d := true) else perm
  }

  /** The entry ptMap stores: page number 0 asks for a passive mapping. */
  function MapEntry(ad: bool, ppn: Ppn, perm: Perm): Pte {
    if ppn == 0 then Pte(false, 0, perm) else Pte(true, ppn, Machine(ad, perm))
  }

  /** ptMap walks without creating first. */
  ghost function MakePath(m: Mem, pd: Ppn, v: Vpn): Res<Mem> {
    if HasPath(m.tab, pd, v) then Ok(m) else WalkCreate(m, pd, v)
  }

  /** ptMap.  A valid entry cannot become passive, and a passive mapping must be for user mode. */
  ghost function Map(m: Mem, pd: Ppn, v: Vpn, ppn: Ppn, perm: Perm): Res<Mem> {
    var m1 :- MakePath(m, pd, v);
    var t := LowOf(m1.tab, pd, v);
    if Ent(m1.tab, t, v.k).v && ppn == 0 then Panic
    else if ppn == 0 && !perm.u then Panic
    else Ok(SetPte(m1, t, v.k, MapEntry(m.ad, ppn, perm)))
  }

  /** Only the entry of page v of address space pd has changed, to p; bytes in use are untouched. */
  ghost predicate Remapped(m: Mem, m': Mem, pd: Ppn, v: Vpn, p: Pte) {
    && SameView(m, m') && m'.dead == m.dead && m'.pending == PendingAfter(m.pending, p)
    && (forall q, u {:trigger Lookup(m'.tab, q, u)} | IsRoot(m.owner, q) ::
          Lookup(m'.tab, q, u) == if q == pd && u == v then p else Lookup(m.tab, q, u))
    && (forall f | f in m'.free :: f in m.free || (f in m.ref && m.ref[f] > 0))
    && (forall f | f in m'.tab :: f in m.tab || f in m.free)
    && (KeepsFrame(Lookup(m.tab, pd, v), p) ==> forall f | f in m'.free :: f in m.free)
  }

  /** Replacing old by p drops no reference. */
  predicate KeepsFrame(old': Pte, p: Pte) {
    old'.v ==> p.v && p.ppn == old'.ppn
  }

  lemma SetPteFree(m: Mem, t: Ppn, k: Idx, value: Pte)
    ensures forall f | f in SetPte(m, t, k, value).free :: f in m.free || (f in m.ref && m.ref[f] > 0)
    ensures KeepsFrame(Ent(m.tab, t, k), value) ==> SetPte(m, t, k, value).free == m.free
  {
  }

  lemma SetLeafRemaps(m: Mem, pd: Ppn, v: Vpn, value: Pte)
    requires Whole(m) && IsRoot(m.owner, pd) && HasPath(m.tab, pd, v)
    requires if value.v then value.ppn in m.ref && value.ppn !in m.free && value.ppn !in m.tab else value.ppn == 0
    ensures var m' := SetPte(m, LowOf(m.tab, pd, v), v.k, value);
            Whole(m') && Remapped(m, m', pd, v, value)
  {
    var t := LowOf(m.tab, pd, v);
    LeafOwner(m.tab, m.owner, pd, v);
    SetLeaf(m, t, v.k, value);
    SetPteFree(m, t, v.k, value);
    SetLeafFrame(m, pd, v, t, value, SetPte(m, t, v.k, value));
  }

  lemma SetLeafFrame(m: Mem, pd: Ppn, v: Vpn, t: Ppn, value: Pte, m': Mem)
    requires m' == SetPte(m, t, v.k, value) && Writable(m, t, v.k) && Lookup(m.tab, pd, v) == Ent(m.tab, t, v.k)
    requires forall q, u {:trigger Lookup(m'.tab, q, u)} | IsRoot(m.owner, q) ::
               Lookup(m'.tab, q, u) == if q == pd && u == v then value else Lookup(m.tab, q, u)
    requires forall f | f in m'.free :: f in m.free || (f in m.ref && m.ref[f] > 0)
    requires KeepsFrame(Ent(m.tab, t, v.k), value) ==> m'.free == m.free
    ensures Remapped(m, m', pd, v, value)
  {
  }

  /** A frame a caller may hand to ptMap: none, or a frame in use that is no table. */
  ghost predicate Mappable(m: Mem, ppn: Ppn) {
    ppn == 0 || (ppn in m.ref && ppn !in m.free && ppn !in m.tab)
  }

  lemma PathFor(m: Mem, pd: Ppn, v: Vpn, m': Mem)
    requires Whole(m) && IsRoot(m.owner, pd)
    requires MakePath(m, pd, v) == Ok(m')
    ensures Whole(m') && Grown(m, m') && HasPath(m'.tab, pd, v)
  {
    if HasPath(m.tab, pd, v) {
      assert m' == m;
    } else {
      WalkInv(m, pd, v, m');
    }
  }

  /** ptMap changes the one entry it is asked to change, in the flat map of one address space. */
  lemma MapRemaps(m: Mem, pd: Ppn, v: Vpn, ppn: Ppn, perm: Perm, m': Mem)
    requires Whole(m) && IsRoot(m.owner, pd) && Mappable(m, ppn)
    requires Map(m, pd, v, ppn, perm) == Ok(m')
    ensures Whole(m') && Remapped(m, m', pd, v, MapEntry(m.ad, ppn, perm))
  {
    var m1 := MakePath(m, pd, v).value;
    PathFor(m, pd, v, m1);
    assert m' == SetPte(m1, LowOf(m1.tab, pd, v), v.k, MapEntry(m.ad, ppn, perm));
    MapLeaf(m, m1, pd, v, MapEntry(m.ad, ppn, perm));
  }

  lemma MapLeaf(m: Mem, m1: Mem, pd: Ppn, v: Vpn, value: Pte)
    requires Whole(m1) && Grown(m, m1) && HasPath(m1.tab, pd, v) && Base(m)
    requires IsRoot(m.owner, pd)
    requires if value.v then value.ppn in m.ref && value.ppn !in m.free && value.ppn !in m.tab else value.ppn == 0
    ensures var m' := SetPte(m1, LowOf(m1.tab, pd, v), v.k, value);
            Whole(m') && Remapped(m, m', pd, v, value)
  {
    SetLeafRemaps(m1, pd, v, value);
    GrownRemapped(m, m1, SetPte(m1, LowOf(m1.tab, pd, v), v.k, value), pd, v, value);
  }

  lemma GrownRemapped(m: Mem, m1: Mem, m2: Mem, pd: Ppn, v: Vpn, value: Pte)
    requires Grown(m, m1) && Remapped(m1, m2, pd, v, value) && IsRoot(m.owner, pd)
    requires Base(m) && Base(m1)
    ensures Remapped(m, m2, pd, v, value)
  {
    forall q, u | IsRoot(m.owner, q)
      ensures Lookup(m2.tab, q, u) == if q == pd && u == v then value else Lookup(m.tab, q, u)
    {
      assert IsRoot(m1.owner, q);
      assert Lookup(m1.tab, q, u) == Lookup(m.tab, q, u);
    }
  }

  // ---- which tables a mapping touches ------------------------------------------

  /** Table t belongs to the address space of directory pd. */
  ghost predicate Under(owner: Owners, t: Ppn, pd: Ppn)
    requires t in owner
  {
    t == pd || (!owner[t].Root? && owner[t].pd == pd)
  }

  predicate SameTarget(a: Pte, b: Pte) {
    a.v == b.v && a.ppn == b.ppn
  }

  /** Tables of other address spaces keep their places and targets; new tables are below pd. */
  ghost predicate Kept(m: Mem, m': Mem, pd: Ppn) {
    && (forall t | t in m.owner :: t in m'.owner && m'.owner[t] == m.owner[t])
    && (forall t | t in m'.owner && t !in m.owner :: Under(m'.owner, t, pd))
    && (forall t, i: Idx {:trigger Ent(m'.tab, t, i)} | t in m.owner && !Under(m.owner, t, pd) ::
          SameTarget(Ent(m'.tab, t, i), Ent(m.tab, t, i)))
  }

  lemma KeptTwice(m: Mem, m1: Mem, m2: Mem, pd: Ppn)
    requires Kept(m, m1, pd) && Kept(m1, m2, pd)
    ensures Kept(m, m2, pd)
  {
    forall t, i: Idx | t in m.owner && !Under(m.owner, t, pd) ensures SameTarget(Ent(m2.tab, t, i), Ent(m.tab, t, i)) {
      assert SameTarget(Ent(m1.tab, t, i), Ent(m.tab, t, i));
    }
  }

  lemma DescendKept(m: Mem, t: Ppn, i: Idx, pd: Ppn, m': Mem)
    requires Whole(m) && t in m.owner && !m.owner[t].Low? && Under(m.owner, t, pd) && IsRoot(m.owner, pd)
    requires Descend(m, t, i) == Ok(m')
    ensures Kept(m, m', pd)
  {
    if Ent(m.tab, t, i).v {
      assert m' == m;
    } else {
      FreeHead(m);
      HangFrame(m, t, i);
      HungKept(m, t, i, m.free[0], pd, m');
    }
  }

  lemma HungKept(m: Mem, t: Ppn, i: Idx, n: Ppn, pd: Ppn, m': Mem)
    requires t in m.owner && !m.owner[t].Low? && Under(m.owner, t, pd) && IsRoot(m.owner, pd) && n !in m.owner
    requires m'.owner == m.owner[n := ChildNode(m.owner, t, i)]
    requires forall s, j: Idx {:trigger Ent(m'.tab, s, j)} :: (s == t && j == i) || Ent(m'.tab, s, j) == Ent(m.tab, s, j)
    ensures Kept(m, m', pd)
  {
  }

  lemma MakePathKept(m: Mem, pd: Ppn, v: Vpn, m': Mem)
    requires Whole(m) && IsRoot(m.owner, pd)
    requires MakePath(m, pd, v) == Ok(m')
    ensures Kept(m, m', pd)
  {
    if !HasPath(m.tab, pd, v) {
      var m1 := WalkParts(m, pd, v, m');
      DescendInv(m, pd, v.i, m1);
      DescendKept(m, pd, v.i, pd, m1);
      assert IsRoot(m1.owner, pd);
      MidOwner(m1, pd, v);
      DescendKept(m1, MidOf(m1.tab, pd, v), v.j, pd, m');
      KeptTwice(m, m1, m', pd);
    }
  }

  lemma WalkParts(m: Mem, pd: Ppn, v: Vpn, m': Mem) returns (m1: Mem)
    requires WalkCreate(m, pd, v) == Ok(m')
    ensures Descend(m, pd, v.i) == Ok(m1) && Descend(m1, MidOf(m1.tab, pd, v), v.j) == Ok(m')
  {
    m1 := Descend(m, pd, v.i).value;
  }

  lemma MapParts(m: Mem, pd: Ppn, v: Vpn, ppn: Ppn, perm: Perm, m': Mem) returns (m1: Mem)
    requires Map(m, pd, v, ppn, perm) == Ok(m')
    ensures MakePath(m, pd, v) == Ok(m1)
    ensures m' == SetPte(m1, LowOf(m1.tab, pd, v), v.k, MapEntry(m.ad, ppn, perm))
  {
    m1 := MakePath(m, pd, v).value;
  }

  /** ptMap on one address space leaves the tables of all others as they are. */
  lemma MapKept(m: Mem, pd: Ppn, v: Vpn, ppn: Ppn, perm: Perm, m': Mem)
    requires Whole(m) && IsRoot(m.owner, pd)
    requires Map(m, pd, v, ppn, perm) == Ok(m')
    ensures Kept(m, m', pd)
  {
    var m1 := MapParts(m, pd, v, ppn, perm, m');
    MakePathKept(m, pd, v, m1);
    PathFor(m, pd, v, m1);
    assert IsRoot(m1.owner, pd);
    LeafOwner(m1.tab, m1.owner, pd, v);
    SetLeafKept(m1, LowOf(m1.tab, pd, v), v.k, MapEntry(m.ad, ppn, perm), pd);
    KeptTwice(m, m1, m', pd);
  }

  lemma SetLeafKept(m: Mem, t: Ppn, k: Idx, value: Pte, pd: Ppn)
    requires t in m.owner && Under(m.owner, t, pd)
    ensures Kept(m, SetPte(m, t, k, value), pd)
  {
  }

  /** Where the tables exist already and the frame stays, ptMap moves nothing at all. */
  lemma MapInPlace(m: Mem, pd: Ppn, v: Vpn, ppn: Ppn, perm: Perm, m': Mem, c: Ppn)
    requires Map(m, pd, v, ppn, perm) == Ok(m') && HasPath(m.tab, pd, v)
    requires SameTarget(Lookup(m.tab, pd, v), MapEntry(m.ad, ppn, perm))
    ensures Kept(m, m', c)
  {
  }

  /** ptUnmap on a page that has an entry; a missing level is a null dereference in the original. */
  ghost function Unmap(m: Mem, pd: Ppn, v: Vpn): Res<Mem> {
    if !HasPath(m.tab, pd, v) then Panic
    else if Lookup(m.tab, pd, v) == ZERO_PTE then Ok(m)
    else Ok(SetPte(m, LowOf(m.tab, pd, v), v.k, ZERO_PTE))
  }

  /** ptUnmap clears the one entry, or finds it already clear. */
  lemma UnmapRemaps(m: Mem, pd: Ppn, v: Vpn)
    requires Whole(m) && IsRoot(m.owner, pd) && HasPath(m.tab, pd, v)
    ensures var r := Unmap(m, pd, v);
            r.Ok? && Whole(r.value) && Remapped(m, r.value, pd, v, ZERO_PTE)
  {
    if Lookup(m.tab, pd, v) != ZERO_PTE {
      SetLeafRemaps(m, pd, v, ZERO_PTE);
    }
  }
}
