/**
 Which accesses go through.  The permission bits of the entries, with copy-on-write
 counted as writable, act in every run as a plain table of rights: sys_map and
 sys_unmap set them, fork passes them on, and page faults, copies and frames never show.
 */
module AccessRights {
  import opened Panics
  import opened Words
  import opened Sv39
  import opened PageTables
  import opened VmState
  import opened SimpleSystem
  import opened SimpleRuns
  import opened CopyOnWrite
  import opened Transfer
  import opened PageSupply
  import opened Fork
  import opened TableWalk
  import opened ForkWalk
  import opened Recycle
  import opened Processes

  // ---- the table of rights ----------------------------------------------------------------

  datatype Right = Right(read: bool, write: bool)

  const NO_RIGHT := Right(false, false)

  /** The rights of one process at its user pages. */
  type Row = imap<Vpn, Right>

  type Rights = imap<Ppn, Row>

  ghost function NoRow(): Row {
    imap v: Vpn | !Special(v) :: NO_RIGHT
  }

  ghost function SetRight(r: Rights, p: Ppn, v: Vpn, x: Right): Rights {
    if p in r && v in r[p] then r[p := r[p][v := x]] else r
  }

  /** Where the process has the page, the access goes through exactly if it has the right. */
  ghost predicate Decides(r: Rights, p: Ppn, v: Vpn, write: bool, done: bool) {
    p in r && (v in r[p] ==> (done <==> if write then r[p][v].write else r[p][v].read))
  }

  /** The process has the right at every user page from va on, for n bytes. */
  ghost predicate MayCopy(r: Rights, p: Ppn, va: nat, n: nat, write: bool) {
    forall a: nat {:trigger VpnOf(a)} | va <= a < va + n :: Decides(r, p, VpnOf(a), write, true)
  }

  ghost predicate RightsStep(r: Rights, op: Op, r': Rights) {
    match op
    case Spawn(p) => p !in r && r' == r[p := NoRow()]
    case Fork(p, child) => p in r && child !in r && r' == r[child := r[p]]
    case Exit(p) => p in r && r' == Without(r, p)
    case Load(p, v, off, b, done) => Decides(r, p, v, false, done) && r' == r
    case Store(p, v, off, b, done) => Decides(r, p, v, true, done) && r' == r
    case MapAt(p, v, perm, added) => p in r && r' == if added then SetRight(r, p, v, Right(perm.r, perm.w)) else r
    case UnmapAt(p, v) => p in r && r' == SetRight(r, p, v, NO_RIGHT)
    case Read(p, uptr, bytes) => p in r && r' == r && MayCopy(r, p, uptr, |bytes|, false)
    case Write(p, uptr, bytes) => p in r && r' == r && MayCopy(r, p, uptr, |bytes|, true)
  }

  // ---- the rights in the page tables ------------------------------------------------------

  function RightOf(e: Pte): Right {
    Right(e.perm.u && e.perm.r, e.perm.u && (e.perm.w || e.perm.cow))
  }

  ghost function RowOf(m: Mem, p: Ppn): Row {
    imap v: Vpn | !Special(v) :: RightOf(Lookup(m.tab, p, v))
  }

  ghost function RightsOf(m: Mem): Rights {
    imap p | IsRoot(m.owner, p) :: RowOf(m, p)
  }

  lemma RightsAt(m: Mem, p: Ppn)
    ensures p in RightsOf(m) <==> IsRoot(m.owner, p)
    ensures p in RightsOf(m) ==> RightsOf(m)[p] == RowOf(m, p)
  {
  }

  lemma RowBy(m: Mem, q: Ppn, m': Mem, q': Ppn)
    requires forall u: Vpn {:trigger Lookup(m'.tab, q', u)} | !Special(u) :: RightOf(Lookup(m'.tab, q', u)) == RightOf(Lookup(m.tab, q, u))
    ensures RowOf(m', q') == RowOf(m, q)
  {
  }

  lemma RemapRow(m: Mem, m': Mem, p: Ppn, v: Vpn, e: Pte)
    requires IsRoot(m.owner, p) && Remapped(m, m', p, v, e)
    ensures RowOf(m', p) == if Special(v) then RowOf(m, p) else RowOf(m, p)[v := RightOf(e)]
  {
    hide Lookup, SameView, RightOf;
    var a, b := RowOf(m', p), RowOf(m, p)[v := RightOf(e)];
    if !Special(v) {
      forall u: Vpn | u in a ensures a[u] == b[u] { }
      assert a == b;
    } else {
      RowBy(m, p, m', p);
    }
  }

  lemma RemapRights(m: Mem, m': Mem, p: Ppn, v: Vpn, e: Pte)
    requires IsRoot(m.owner, p) && Remapped(m, m', p, v, e)
    ensures IsRoot(m'.owner, p) && RightsOf(m') == SetRight(RightsOf(m), p, v, RightOf(e))
  {
    hide Lookup, Stable, RightOf, RowOf, RightsOf, IsRoot;
    var a, b := RightsOf(m'), SetRight(RightsOf(m), p, v, RightOf(e));
    RightsAt(m, p);
    RowHas(m, p, v);
    RemapRow(m, m', p, v, e);
    forall q ensures (q in a <==> q in b) && (q in a ==> a[q] == b[q]) {
      RightsAt(m, q);
      RightsAt(m', q);
      if q != p && IsRoot(m.owner, q) { RowBy(m, q, m', q); }
    }
  }

  lemma RowHas(m: Mem, p: Ppn, v: Vpn)
    ensures v in RowOf(m, p) <==> !Special(v)
    ensures v in RowOf(m, p) ==> RowOf(m, p)[v] == RightOf(Lookup(m.tab, p, v))
  {
  }

  lemma SameRight(r: Rights, p: Ppn, v: Vpn, x: Right)
    requires p in r && (v in r[p] ==> r[p][v] == x)
    ensures SetRight(r, p, v, x) == r
  {
    if v in r[p] { assert r[p][v := x] == r[p]; }
  }

  /** A page fault, served or refused, gives and takes no right. */
  lemma FaultRights(m: Mem, p: Ppn, write: bool, v: Vpn, m': Mem, again: bool)
    requires UserOk(m) && IsRoot(m.owner, p)
    requires FaultHandler(m, p, write, v) == Ok((m', again))
    ensures UserOk(m') && IsRoot(m'.owner, p) && RightsOf(m') == RightsOf(m)
    ensures again ==> m.free != [] && Lookup(m'.tab, p, v) == FreshEntry(m, FaultPerm(Lookup(m.tab, p, v), write))
  {
    hide AllViews, AllKinds, Touched, SetRight, FaultHandler, UserOk, Lookup, PageAt, RightsOf, RightOf;
    FaultKeepsViews(m, p, write, v, m', again);
    if again {
      var e := Lookup(m.tab, p, v);
      FaultRefills(m, p, write, v, m');
      RemapRights(m, m', p, v, FreshEntry(m, FaultPerm(e, write)));
      RefillRight(m, e, write);
      RightsAt(m, p);
      RowHas(m, p, v);
      SameRight(RightsOf(m), p, v, RightOf(e));
    } else {
      RefusedSame(m, p, write, v, m');
    }
  }

  lemma RefusedSame(m: Mem, p: Ppn, write: bool, v: Vpn, m': Mem)
    requires FaultHandler(m, p, write, v) == Ok((m', false))
    ensures m' == m
  {
  }

  lemma FaultRefills(m: Mem, p: Ppn, write: bool, v: Vpn, m': Mem)
    requires UserOk(m) && IsRoot(m.owner, p) && FaultHandler(m, p, write, v) == Ok((m', true))
    ensures m.free != [] && Remapped(m, m', p, v, FreshEntry(m, FaultPerm(Lookup(m.tab, p, v), write)))
  {
    hide FaultHandler, MapFresh, CowOk, BootHeld, Lookup, PageAt;
    FaultIsRefill(m, p, write, v, m');
    PageLength(m, p, v);
    MapFreshRemaps(m, p, v, PageAt(m, Lookup(m.tab, p, v)), FaultPerm(Lookup(m.tab, p, v), write), m');
  }

  lemma RefillRight(m: Mem, e: Pte, write: bool)
    requires m.free != []
    ensures RightOf(FreshEntry(m, FaultPerm(e, write))) == RightOf(e)
  {
  }

  // ---- loads, stores and copies -----------------------------------------------------------

  lemma SameRights(m: Mem, m': Mem)
    requires m'.tab == m.tab && m'.owner == m.owner
    ensures RightsOf(m') == RightsOf(m)
  {
    hide Lookup, RightOf;
    forall q | IsRoot(m.owner, q) ensures RowOf(m', q) == RowOf(m, q) { }
  }

  lemma StoreByteTables(m: Mem, p: Ppn, v: Vpn, off: nat, b: Byte)
    ensures StoreByte(m, p, v, off, b).tab == m.tab && StoreByte(m, p, v, off, b).owner == m.owner
  {
  }

  /** Which faults make a store possible: the entry is copy-on-write, or passive and writable. */
  lemma StoreServed(m: Mem, p: Ppn, v: Vpn, m1: Mem, again: bool)
    requires UserOk(m) && IsRoot(m.owner, p) && !UserWritable(Lookup(m.tab, p, v))
    requires FaultHandler(m, p, true, v) == Ok((m1, again))
    ensures again && UserWritable(Lookup(m1.tab, p, v)) <==> RightOf(Lookup(m.tab, p, v)).write
  {
    hide CowOk, BootHeld, Whole, CowHandler, PassiveHandler, Lookup, RightsOf, MapFresh;
    FaultRights(m, p, true, v, m1, again);
    assert UserEntry(m.boot, v, Lookup(m.tab, p, v));
  }

  /** A store goes through exactly if the entry is for user mode and writable or copy-on-write. */
  lemma StoreGoesThrough(m: Mem, p: Ppn, v: Vpn, off: nat, b: Byte, m': Mem, done: bool)
    requires UserOk(m) && IsRoot(m.owner, p) && UserStore(m, p, v, off, b) == Ok((m', done))
    ensures done <==> Lookup(m.tab, p, v).perm.u && (Lookup(m.tab, p, v).perm.w || Lookup(m.tab, p, v).perm.cow)
    ensures RightsOf(m') == RightsOf(m)
  {
    hide FaultHandler, UserOk, Lookup, StoreByte, RightsOf;
    if UserWritable(Lookup(m.tab, p, v)) {
      StoreByteTables(m, p, v, off, b);
      SameRights(m, m');
    } else {
      var (m1, again) := FaultHandler(m, p, true, v).value;
      FaultRights(m, p, true, v, m1, again);
      StoreServed(m, p, v, m1, again);
      StoreByteTables(m1, p, v, off, b);
      if done { SameRights(m1, m'); }
    }
  }

  lemma LoadServed(m: Mem, p: Ppn, v: Vpn, m1: Mem, again: bool)
    requires UserOk(m) && IsRoot(m.owner, p) && !UserReadable(Lookup(m.tab, p, v))
    requires FaultHandler(m, p, false, v) == Ok((m1, again))
    ensures again && UserReadable(Lookup(m1.tab, p, v)) <==> RightOf(Lookup(m.tab, p, v)).read
  {
    hide CowOk, BootHeld, Whole, CowHandler, PassiveHandler, Lookup, RightsOf, MapFresh;
    FaultRights(m, p, false, v, m1, again);
  }

  /** A load goes through exactly if the entry is for user mode and readable. */
  lemma LoadGoesThrough(m: Mem, p: Ppn, v: Vpn, off: nat, m': Mem, done: bool, b: Byte)
    requires UserOk(m) && IsRoot(m.owner, p) && UserLoad(m, p, v, off) == Ok((m', done, b))
    ensures done <==> Lookup(m.tab, p, v).perm.u && Lookup(m.tab, p, v).perm.r
    ensures RightsOf(m') == RightsOf(m)
  {
    hide FaultHandler, UserOk, Lookup, ByteAt, RightsOf;
    if !UserReadable(Lookup(m.tab, p, v)) {
      var (m1, again) := FaultHandler(m, p, false, v).value;
      FaultRights(m, p, false, v, m1, again);
      LoadServed(m, p, v, m1, again);
    }
  }

  lemma PrepareRights(m: Mem, p: Ppn, v: Vpn, write: bool, m': Mem)
    requires UserOk(m) && IsRoot(m.owner, p) && Prepare(m, p, v, write) == Ok(m')
    ensures RightsOf(m') == RightsOf(m)
  {
    hide FaultHandler, UserOk, Lookup, RightsOf;
    var m1, again := TestFaultParts(m, p, v, write, m');
    if !Lookup(m.tab, p, v).v { FaultRights(m, p, write, v, m1, again); }
    if !Allowed(Lookup(m.tab, p, v), write) { FaultRights(m1, p, write, v, m', true); }
  }

  /** A copy touches a user page only with the right to. */
  lemma PrepareDecides(m: Mem, p: Ppn, v: Vpn, write: bool)
    requires UserOk(m) && IsRoot(m.owner, p) && Prepare(m, p, v, write).Ok?
    ensures Decides(RightsOf(m), p, v, write, true)
  {
    hide Prepare, UserOk, Lookup;
    RightsAt(m, p);
    RowHas(m, p, v);
    if !Special(v) { PrepareExactly(m, p, v, write); }
  }

  lemma MayCopyMore(r: Rights, p: Ppn, va: nat, k: nat, n: nat, write: bool)
    requires Decides(r, p, VpnOf(va), write, true) && va % PAGE_SIZE + k <= PAGE_SIZE && MayCopy(r, p, va + k, n, write)
    ensures MayCopy(r, p, va, k + n, write)
  {
    hide VpnOf, Decides;
    forall a: nat | va <= a < va + k + n ensures Decides(r, p, VpnOf(a), write, true) {
      if a < va + k {
        SamePage(va, a - va);
        assert va + (a - va) == a;
      }
    }
  }

  lemma PutChunkRights(m: Mem, p: Ppn, uptr: nat, bytes: seq<Byte>)
    ensures RightsOf(PutChunk(m, p, uptr, bytes)) == RightsOf(m)
  {
    hide Lookup, VpnOf, PageAt, Patch, RightsOf;
    SameRights(m, PutChunk(m, p, uptr, bytes));
  }

  lemma {:induction false} CopyOutRights(m: Mem, p: Ppn, uptr: nat, bytes: seq<Byte>, m': Mem)
    requires UserOk(m) && IsRoot(m.owner, p) && CopyOut(m, p, uptr, bytes) == Ok(m')
    ensures RightsOf(m') == RightsOf(m) && MayCopy(RightsOf(m), p, uptr, |bytes|, true)
    decreases |bytes|
  {
    hide AllViews, AllKinds, Prepare, VpnOf, PutAt, PutChunk, Touched, UserOk, Lookup, RightsOf, Decides;
    if |bytes| != 0 {
      var m1, m2, next, first, rest := CopyOutParts(m, p, uptr, bytes, m');
      PrepareOk(m, p, VpnOf(uptr), true, m1);
      PrepareRights(m, p, VpnOf(uptr), true, m1);
      PutChunkViews(m1, p, uptr, first, m2);
      PutChunkRights(m1, p, uptr, first);
      CopyOutRights(m2, p, next, rest, m');
      PrepareDecides(m, p, VpnOf(uptr), true);
      MayCopyMore(RightsOf(m), p, uptr, |first|, |rest|, true);
    }
  }

  lemma {:induction false} CopyInRights(m: Mem, p: Ppn, uptr: nat, n: nat, m': Mem, bytes: seq<Byte>)
    requires UserOk(m) && IsRoot(m.owner, p) && CopyIn(m, p, uptr, n) == Ok((m', bytes))
    ensures RightsOf(m') == RightsOf(m) && MayCopy(RightsOf(m), p, uptr, n, false)
    decreases n
  {
    hide AllViews, AllKinds, Prepare, VpnOf, GetChunk, Touched, UserOk, Lookup, RightsOf, Decides;
    if n != 0 {
      var m1, k, next, left, first, rest := CopyInParts(m, p, uptr, n, m', bytes);
      PrepareOk(m, p, VpnOf(uptr), false, m1);
      PrepareRights(m, p, VpnOf(uptr), false, m1);
      CopyInRights(m1, p, next, left, m', rest);
      PrepareDecides(m, p, VpnOf(uptr), false);
      MayCopyMore(RightsOf(m), p, uptr, k, left, false);
    }
  }

  // ---- mappings and processes --------------------------------------------------------------

  lemma MapPageRights(m: Mem, p: Ppn, v: Vpn, perm: Perm, m': Mem)
    requires UserOk(m) && IsRoot(m.owner, p) && perm.u && !perm.cow && MapPage(m, p, v, perm) == Ok(m')
    ensures RightsOf(m') == if Lookup(m.tab, p, v).ppn == 0 then SetRight(RightsOf(m), p, v, Right(perm.r, perm.w)) else RightsOf(m)
  {
    hide Map, MapFresh, Lookup, CowOk, UserPages, BootHeld, RightsOf, SetRight, VaOf;
    if Lookup(m.tab, p, v).ppn == 0 {
      if VaOf(v) < PASSIVE_THRESHOLD {
        MapFreshRemaps(m, p, v, ZeroPage(), perm, m');
        RemapRights(m, m', p, v, FreshEntry(m, perm));
      } else {
        MapRemaps(m, p, v, 0, perm, m');
        RemapRights(m, m', p, v, Pte(false, 0, perm));
      }
    }
  }

  lemma UnmapRights(m: Mem, p: Ppn, v: Vpn, m': Mem)
    requires UserOk(m) && IsRoot(m.owner, p) && Unmap(m, p, v) == Ok(m')
    ensures RightsOf(m') == SetRight(RightsOf(m), p, v, NO_RIGHT)
  {
    hide Lookup, CowOk, UserPages, BootHeld, RightsOf, SetRight;
    UnmapRemaps(m, p, v);
    RemapRights(m, m', p, v, ZERO_PTE);
  }

  lemma SpawnRights(m: Mem, tramp: Ppn, sig: Ppn, m': Mem, c: Ppn)
    requires UserOk(m) && BootFrame(m, tramp) && BootFrame(m, sig) && InitUpt(m, tramp, sig) == Ok((m', c))
    ensures c !in RightsOf(m) && RightsOf(m') == RightsOf(m)[c := NoRow()]
  {
    hide InitUpt, AllViews, AllKinds, UserOk, Lookup, RightsOf, RowOf, IsRoot;
    InitUptBorn(m, tramp, sig, m', c);
    EmptyRow(m', c);
    RightsAt(m, c);
    var a, b := RightsOf(m'), RightsOf(m)[c := NoRow()];
    forall q ensures (q in a <==> q in b) && (q in a ==> a[q] == b[q]) {
      RightsAt(m, q);
      RightsAt(m', q);
      RootIs(m, q);
      RootIs(m', q);
      if q != c && IsRoot(m.owner, q) { RowBy(m, q, m', q); }
    }
  }

  lemma EmptyRow(m: Mem, c: Ppn)
    requires forall u: Vpn {:trigger Lookup(m.tab, c, u)} | !Special(u) :: Lookup(m.tab, c, u) == ZERO_PTE
    ensures RowOf(m, c) == NoRow()
  {
    hide Lookup;
  }

  lemma PermitsRight(a: Pte, b: Pte)
    requires Permits(a, b)
    ensures RightOf(a) == RightOf(b)
  {
  }

  /** Fork gives the child the parent's rights, and leaves the parent its own. */
  lemma ForkRow(m: Mem, p: Ppn, tramp: Ppn, sig: Ppn, m': Mem, c: Ppn, q: Ppn)
    requires UserOk(m) && IsRoot(m.owner, p) && BootFrame(m, tramp) && BootFrame(m, sig)
    requires ForkSpace(m, p, tramp, sig) == Ok((m', c)) && IsRoot(m'.owner, q)
    ensures RowOf(m', q) == RowOf(m, if q == c then p else q)
  {
    hide ForkSpace, UserOk, Lookup, RowOf, RightOf, Permits;
    var o := if q == c then p else q;
    forall u: Vpn | !Special(u) ensures RightOf(Lookup(m'.tab, q, u)) == RightOf(Lookup(m.tab, o, u)) {
      ForkEntries(m, p, tramp, sig, m', c, q, u);
      PermitsRight(Lookup(m'.tab, q, u), Lookup(m.tab, o, u));
    }
    RowBy(m, o, m', q);
  }

  lemma ForkRights(m: Mem, p: Ppn, tramp: Ppn, sig: Ppn, m': Mem, c: Ppn)
    requires UserOk(m) && IsRoot(m.owner, p) && BootFrame(m, tramp) && BootFrame(m, sig)
    requires ForkSpace(m, p, tramp, sig) == Ok((m', c))
    ensures p in RightsOf(m) && c !in RightsOf(m) && RightsOf(m') == RightsOf(m)[c := RightsOf(m)[p]]
  {
    hide ForkSpace, AllViews, AllKinds, UserOk, RightsOf, RowOf, UserKinds;
    ForkViews(m, p, tramp, sig, m', c);
    RightsAt(m, p);
    RightsAt(m, c);
    RootIs(m, c);
    var a, b := RightsOf(m'), RightsOf(m)[c := RightsOf(m)[p]];
    forall q ensures (q in a <==> q in b) && (q in a ==> a[q] == b[q]) {
      RightsAt(m, q);
      RightsAt(m', q);
      RootIs(m, q);
      RootIs(m', q);
      if IsRoot(m'.owner, q) { ForkRow(m, p, tramp, sig, m', c, q); }
    }
  }

  lemma ExitRights(m: Mem, p: Ppn, m': Mem)
    requires UserOk(m) && IsRoot(m.owner, p) && RecycleSpace(m, p) == Ok(m')
    ensures RightsOf(m') == Without(RightsOf(m), p)
  {
    hide RecycleSpace, Recycled, RightsOf, RowOf, Lookup, RightOf, CowOk, UserPages, BootHeld, IsRoot;
    RecycleRemoves(m, p);
    RecycledRoots(m, m', p);
    var a, b := RightsOf(m'), Without(RightsOf(m), p);
    forall q ensures (q in a <==> q in b) && (q in a ==> a[q] == b[q]) {
      RightsAt(m, q);
      RightsAt(m', q);
      if IsRoot(m'.owner, q) {
        forall u: Vpn ensures Lookup(m'.tab, q, u) == Lookup(m.tab, q, u) { RecycledLookup(m, m', p, q, u); }
        RowBy(m, q, m', q);
      }
    }
  }

  // ---- runs --------------------------------------------------------------------------------

  lemma Decided(m: Mem, p: Ppn, v: Vpn, write: bool, done: bool)
    requires IsRoot(m.owner, p)
    requires done <==> if write then RightOf(Lookup(m.tab, p, v)).write else RightOf(Lookup(m.tab, p, v)).read
    ensures Decides(RightsOf(m), p, v, write, done)
  {
    RightsAt(m, p);
    RowHas(m, p, v);
  }

  lemma AccessSteps(tramp: Ppn, sig: Ppn, m: Mem, op: Op, m': Mem)
    requires UserOk(m) && Step(tramp, sig, m, op, m') && (op.Load? || op.Store? || op.Read? || op.Write?)
    ensures RightsStep(RightsOf(m), op, RightsOf(m'))
  {
    hide UserOk, UserLoad, UserStore, CopyIn, CopyOut, RightsOf, Decides, Lookup;
    RightsAt(m, op.p);
    match op
    case Load(p, v, off, b, done) =>
      LoadGoesThrough(m, p, v, off, m', done, b);
      Decided(m, p, v, false, done);
    case Store(p, v, off, b, done) =>
      StoreGoesThrough(m, p, v, off, b, m', done);
      Decided(m, p, v, true, done);
    case Read(p, uptr, bytes) => CopyInRights(m, p, uptr, |bytes|, m', bytes);
    case Write(p, uptr, bytes) => CopyOutRights(m, p, uptr, bytes, m');
  }

  /** Every step of the kernel is a step of the table of rights. */
  lemma StepRights(tramp: Ppn, sig: Ppn, m: Mem, op: Op, m': Mem)
    requires Started(tramp, sig, m) && Step(tramp, sig, m, op, m')
    ensures RightsStep(RightsOf(m), op, RightsOf(m'))
  {
    hide UserOk, InitUpt, ForkSpace, RecycleSpace, MapPage, Unmap, RightsOf, SetRight, Lookup, UserLoad, UserStore, CopyIn, CopyOut;
    if !op.Spawn? { RightsAt(m, op.p); }
    match op
    case Spawn(p) => SpawnRights(m, tramp, sig, m', p);
    case Fork(p, child) => ForkRights(m, p, tramp, sig, m', child);
    case Exit(p) => ExitRights(m, p, m');
    case MapAt(p, v, perm, added) => MapPageRights(m, p, v, perm, m');
    case UnmapAt(p, v) => UnmapRights(m, p, v, m');
    case _ => AccessSteps(tramp, sig, m, op, m');
  }

  /** In every run: which loads and stores go through follows from the mappings and forks alone. */
  lemma RunRights(tramp: Ppn, sig: Ppn, states: seq<Mem>, ops: seq<Op>, i: nat)
    requires Run(tramp, sig, states, ops) && Started(tramp, sig, states[0]) && i < |ops|
    ensures RightsStep(RightsOf(states[i]), ops[i], RightsOf(states[i + 1]))
  {
    hide Step, UserOk, RightsOf, RightsStep;
    RunKeeps(tramp, sig, states, ops, i);
    assert ops[i] == ops[i];
    StepRights(tramp, sig, states[i], ops[i], states[i + 1]);
  }

  lemma RightKept(r: Rights, op: Op, r': Rights, p: Ppn, v: Vpn)
    requires RightsStep(r, op, r') && p in r && v in r[p] && !Ends(op, p) && !Remaps(op, p, v)
    ensures p in r' && v in r'[p] && r'[p][v] == r[p][v]
  {
  }

  /** A right stays what it is until its process ends or maps the page anew, whatever faults and forks come between. */
  lemma {:induction false} RightsStay(tramp: Ppn, sig: Ppn, states: seq<Mem>, ops: seq<Op>, p: Ppn, v: Vpn, k: nat, n: nat)
    requires Run(tramp, sig, states, ops) && Started(tramp, sig, states[0]) && k <= n <= |ops|
    requires IsRoot(states[k].owner, p) && !Special(v) && Undisturbed(ops[k..], p, v)
    ensures IsRoot(states[n].owner, p)
    ensures RightOf(Lookup(states[n].tab, p, v)) == RightOf(Lookup(states[k].tab, p, v))
    decreases n
  {
    hide Step, UserOk, RightsOf, RightsStep, Lookup, RightOf, RowOf;
    if k < n {
      RightsStay(tramp, sig, states, ops, p, v, k, n - 1);
      RunRights(tramp, sig, states, ops, n - 1);
      RightsAt(states[n - 1], p);
      RowHas(states[n - 1], p, v);
      assert ops[k..][n - 1 - k] == ops[n - 1];
      RightKept(RightsOf(states[n - 1]), ops[n - 1], RightsOf(states[n]), p, v);
      RightsAt(states[n], p);
      RowHas(states[n], p, v);
    }
  }

  /** In every run after a fork, a store of the child goes through exactly if the parent could store there when it forked. */
  lemma ForkedStore(tramp: Ppn, sig: Ppn, states: seq<Mem>, ops: seq<Op>, k: nat, i: nat)
    requires Run(tramp, sig, states, ops) && Started(tramp, sig, states[0]) && k < i < |ops|
    requires ops[k].Fork? && ops[i].Store? && ops[i].p == ops[k].child && !Special(ops[i].v)
    requires Undisturbed(ops[k + 1..], ops[i].p, ops[i].v)
    ensures ops[i].done <==> RightOf(Lookup(states[k].tab, ops[k].p, ops[i].v)).write
  {
    hide Step, UserOk, RightsOf, Lookup, RightOf, RowOf;
    var p, c, v := ops[k].p, ops[k].child, ops[i].v;
    RunRights(tramp, sig, states, ops, k);
    RightsAt(states[k], p);
    RowHas(states[k], p, v);
    RightsAt(states[k + 1], c);
    RowHas(states[k + 1], c, v);
    RightsStay(tramp, sig, states, ops, c, v, k + 1, i);
    RunRights(tramp, sig, states, ops, i);
    RightsAt(states[i], c);
    RowHas(states[i], c, v);
  }
}
