/**
 Processes over shared memory: every run of process creation, fork, exit, loads,
 stores, mappings and kernel copies is a run of the simple system, and giving a
 forked address space back returns every frame it took.
 */
module Processes {
  import opened Panics
  import opened Words
  import opened Sv39
  import opened PageTables
  import opened VmState
  import opened Boot
  import opened SimpleSystem
  import opened SimpleRuns
  import opened CopyOnWrite
  import opened Transfer
  import opened Fork
  import opened TableWalk
  import opened ForkWalk
  import opened Recycle

  // ---- the kernel's own pages stay the kernel's --------------------------------------

  lemma DescendBoot(m: Mem, t: Ppn, i: Idx, m': Mem)
    requires Descend(m, t, i) == Ok(m')
    ensures m'.boot == m.boot && m'.hold == m.hold && m'.ad == m.ad
  {
  }

  lemma MapBootSame(m: Mem, pd: Ppn, v: Vpn, ppn: Ppn, perm: Perm, m': Mem)
    requires Map(m, pd, v, ppn, perm) == Ok(m')
    ensures m'.boot == m.boot && m'.hold == m.hold && m'.ad == m.ad
  {
    var m1 := MapParts(m, pd, v, ppn, perm, m');
    PathBoot(m, pd, v, m1);
  }

  lemma PathBoot(m: Mem, pd: Ppn, v: Vpn, m': Mem)
    requires MakePath(m, pd, v) == Ok(m')
    ensures m'.boot == m.boot && m'.hold == m.hold && m'.ad == m.ad
  {
    if !HasPath(m.tab, pd, v) {
      var m1 := WalkParts(m, pd, v, m');
      DescendBoot(m, pd, v.i, m1);
      DescendBoot(m1, MidOf(m1.tab, pd, v), v.j, m');
    }
  }

  lemma MapFreshBoot(m: Mem, pd: Ppn, v: Vpn, page: Page, perm: Perm, m': Mem)
    requires MapFresh(m, pd, v, page, perm) == Ok(m')
    ensures m'.boot == m.boot && m'.hold == m.hold && m'.ad == m.ad
  {
    MapBootSame(Filled(m, page), pd, v, m.free[0], perm, m');
  }

  lemma FaultBoot(m: Mem, pd: Ppn, write: bool, v: Vpn, m': Mem, again: bool)
    requires FaultHandler(m, pd, write, v) == Ok((m', again))
    ensures m'.boot == m.boot
  {
  }

  lemma StoreBoot(m: Mem, pd: Ppn, v: Vpn, off: nat, b: Byte, m': Mem, done: bool)
    requires UserStore(m, pd, v, off, b) == Ok((m', done))
    ensures m'.boot == m.boot
  {
    if !UserWritable(Lookup(m.tab, pd, v)) {
      var (m1, again) := FaultHandler(m, pd, true, v).value;
      FaultBoot(m, pd, true, v, m1, again);
    }
  }

  lemma LoadBoot(m: Mem, pd: Ppn, v: Vpn, off: nat, m': Mem, done: bool, b: Byte)
    requires UserLoad(m, pd, v, off) == Ok((m', done, b))
    ensures m'.boot == m.boot
  {
    if !UserReadable(Lookup(m.tab, pd, v)) {
      var (m1, again) := FaultHandler(m, pd, false, v).value;
      FaultBoot(m, pd, false, v, m1, again);
    }
  }

  lemma MapPageBoot(m: Mem, pd: Ppn, v: Vpn, perm: Perm, m': Mem)
    requires MapPage(m, pd, v, perm) == Ok(m')
    ensures m'.boot == m.boot
  {
    if Lookup(m.tab, pd, v).ppn != 0 {
    } else if VaOf(v) < PASSIVE_THRESHOLD {
      MapFreshBoot(m, pd, v, ZeroPage(), perm, m');
    } else {
      MapBootSame(m, pd, v, 0, perm, m');
    }
  }

  lemma PrepareBoot(m: Mem, pd: Ppn, v: Vpn, write: bool, m': Mem)
    requires Prepare(m, pd, v, write) == Ok(m')
    ensures m'.boot == m.boot
  {
    hide FaultHandler, Lookup;
    var m1, again := TestFaultParts(m, pd, v, write, m');
    if !Lookup(m.tab, pd, v).v { FaultBoot(m, pd, write, v, m1, again); }
    if !Allowed(Lookup(m.tab, pd, v), write) { FaultBoot(m1, pd, write, v, m', true); }
  }

  lemma {:induction false} CopyOutBoot(m: Mem, pd: Ppn, uptr: nat, bytes: seq<Byte>, m': Mem)
    requires CopyOut(m, pd, uptr, bytes) == Ok(m')
    ensures m'.boot == m.boot
    decreases |bytes|
  {
    hide Prepare, VpnOf;
    if |bytes| != 0 {
      var m1, m2, next, first, rest := CopyOutParts(m, pd, uptr, bytes, m');
      PrepareBoot(m, pd, VpnOf(uptr), true, m1);
      CopyOutBoot(m2, pd, next, rest, m');
    }
  }

  lemma {:induction false} CopyInBoot(m: Mem, pd: Ppn, uptr: nat, n: nat, m': Mem, bytes: seq<Byte>)
    requires CopyIn(m, pd, uptr, n) == Ok((m', bytes))
    ensures m'.boot == m.boot
    decreases n
  {
    hide Prepare, VpnOf, GetChunk;
    if n != 0 {
      var m1, k, next, left, first, rest := CopyInParts(m, pd, uptr, n, m', bytes);
      PrepareBoot(m, pd, VpnOf(uptr), false, m1);
      CopyInBoot(m1, pd, next, left, m', rest);
    }
  }

  lemma ForkBoot(m: Mem, p: Ppn, tramp: Ppn, sig: Ppn, m': Mem, c: Ppn)
    requires UserOk(m) && IsRoot(m.owner, p) && BootFrame(m, tramp) && BootFrame(m, sig)
    requires ForkSpace(m, p, tramp, sig) == Ok((m', c))
    ensures m'.boot == m.boot
  {
    hide InitUpt, PdWalk, AllViews, AllKinds;
    var m0 := ForkParts(m, p, tramp, sig, m', c);
    InitUptBorn(m, tramp, sig, m0, c);
    RootIs(m, p);
    RootIs(m0, p);
    DupWalk(m0, p, c, m');
  }

  // ---- runs ------------------------------------------------------------------------------

  /** One step of the kernel, over the page tables. */
  ghost predicate Step(tramp: Ppn, sig: Ppn, m: Mem, op: Op, m': Mem) {
    match op
    case Spawn(p) => InitUpt(m, tramp, sig) == Ok((m', p))
    case Fork(p, child) => IsRoot(m.owner, p) && ForkSpace(m, p, tramp, sig) == Ok((m', child))
    case Exit(p) => IsRoot(m.owner, p) && RecycleSpace(m, p) == Ok(m')
    case Load(p, v, off, b, done) => IsRoot(m.owner, p) && off < PAGE_SIZE && UserLoad(m, p, v, off) == Ok((m', done, b))
    case Store(p, v, off, b, done) => IsRoot(m.owner, p) && off < PAGE_SIZE && UserStore(m, p, v, off, b) == Ok((m', done))
    case MapAt(p, v, perm, added) =>
      IsRoot(m.owner, p) && perm.u && !perm.cow && MapPage(m, p, v, perm) == Ok(m') && added == (Lookup(m.tab, p, v).ppn == 0)
    case UnmapAt(p, v) => IsRoot(m.owner, p) && Unmap(m, p, v) == Ok(m')
    case Read(p, uptr, bytes) => IsRoot(m.owner, p) && CopyIn(m, p, uptr, |bytes|) == Ok((m', bytes))
    case Write(p, uptr, bytes) => IsRoot(m.owner, p) && CopyOut(m, p, uptr, bytes) == Ok(m')
  }

  lemma AccessRefines(tramp: Ppn, sig: Ppn, m: Mem, op: Op, m': Mem)
    requires UserOk(m) && Step(tramp, sig, m, op, m') && (op.Load? || op.Store? || op.Read? || op.Write?)
    ensures UserOk(m') && m'.boot == m.boot && SimpleStep(SimpleOf(m), op, SimpleOf(m'))
  {
    hide UserOk, SimpleOf, UserLoad, UserStore, CopyIn, CopyOut, Loaded, Stored, CopiedIn, CopiedOut;
    match op
    case Load(p, v, off, b, done) =>
      LoadReads(m, p, v, off, m', done, b);
      LoadBoot(m, p, v, off, m', done, b);
    case Store(p, v, off, b, done) =>
      StoreIsolated(m, p, v, off, b, m', done);
      StoreBoot(m, p, v, off, b, m', done);
    case Read(p, uptr, bytes) =>
      CopyInReads(m, p, uptr, |bytes|, m', bytes);
      CopyInBoot(m, p, uptr, |bytes|, m', bytes);
    case Write(p, uptr, bytes) =>
      CopyOutViews(m, p, uptr, bytes, m');
      CopyOutBoot(m, p, uptr, bytes, m');
  }

  lemma MappingRefines(tramp: Ppn, sig: Ppn, m: Mem, op: Op, m': Mem)
    requires UserOk(m) && Step(tramp, sig, m, op, m') && (op.MapAt? || op.UnmapAt?)
    ensures UserOk(m') && m'.boot == m.boot && SimpleStep(SimpleOf(m), op, SimpleOf(m'))
  {
    hide UserOk, AllViews, AllKinds, MapPage, Unmap, Mapped, Unmapped;
    RootIs(m, op.p);
    match op
    case MapAt(p, v, perm, added) =>
      MapPageViews(m, p, v, perm, m');
      MapPageBoot(m, p, v, perm, m');
    case UnmapAt(p, v) =>
      UnmapViews(m, p, v, m');
      UnmapBoot(m, p, v, m');
  }

  lemma UnmapBoot(m: Mem, pd: Ppn, v: Vpn, m': Mem)
    requires Unmap(m, pd, v) == Ok(m')
    ensures m'.boot == m.boot
  {
  }

  lemma ProcessRefines(tramp: Ppn, sig: Ppn, m: Mem, op: Op, m': Mem)
    requires UserOk(m) && BootFrame(m, tramp) && BootFrame(m, sig) && Step(tramp, sig, m, op, m')
    requires op.Spawn? || op.Fork? || op.Exit?
    ensures UserOk(m') && m'.boot == m.boot && SimpleStep(SimpleOf(m), op, SimpleOf(m'))
  {
    hide UserOk, SimpleOf, InitUpt, ForkSpace, RecycleSpace, Spawned, Forked, Exited;
    match op
    case Spawn(p) => InitUptBorn(m, tramp, sig, m', p);
    case Fork(p, child) =>
      ForkViews(m, p, tramp, sig, m', child);
      ForkBoot(m, p, tramp, sig, m', child);
    case Exit(p) =>
      RecycleViews(m, p);
      ExitBoot(m, p, m');
  }

  lemma ExitBoot(m: Mem, p: Ppn, m': Mem)
    requires UserOk(m) && IsRoot(m.owner, p) && RecycleSpace(m, p) == Ok(m')
    ensures m'.boot == m.boot
  {
    hide RecycleSpace;
    RecycleRemoves(m, p);
  }

  /** Every step of the kernel is the same step of the simple system. */
  lemma StepRefines(tramp: Ppn, sig: Ppn, m: Mem, op: Op, m': Mem)
    requires UserOk(m) && BootFrame(m, tramp) && BootFrame(m, sig) && Step(tramp, sig, m, op, m')
    ensures UserOk(m') && m'.boot == m.boot && SimpleStep(SimpleOf(m), op, SimpleOf(m'))
  {
    hide UserOk, SimpleOf, SimpleStep, Step;
    if op.Spawn? || op.Fork? || op.Exit? {
      ProcessRefines(tramp, sig, m, op, m');
    } else if op.MapAt? || op.UnmapAt? {
      MappingRefines(tramp, sig, m, op, m');
    } else {
      AccessRefines(tramp, sig, m, op, m');
    }
  }

  /** A run: each state follows from the one before by one step. */
  ghost predicate Run(tramp: Ppn, sig: Ppn, states: seq<Mem>, ops: seq<Op>) {
    |states| == |ops| + 1 && forall i {:trigger ops[i]} | 0 <= i < |ops| :: Step(tramp, sig, states[i], ops[i], states[i + 1])
  }

  ghost predicate Started(tramp: Ppn, sig: Ppn, m: Mem) {
    UserOk(m) && BootFrame(m, tramp) && BootFrame(m, sig)
  }

  lemma {:induction false} RunKeeps(tramp: Ppn, sig: Ppn, states: seq<Mem>, ops: seq<Op>, n: nat)
    requires Run(tramp, sig, states, ops) && Started(tramp, sig, states[0]) && n <= |ops|
    ensures Started(tramp, sig, states[n])
  {
    hide Step, UserOk, SimpleOf, SimpleStep;
    if n > 0 {
      RunKeeps(tramp, sig, states, ops, n - 1);
      assert ops[n - 1] == ops[n - 1];
      StepRefines(tramp, sig, states[n - 1], ops[n - 1], states[n]);
    }
  }

  ghost function Simples(states: seq<Mem>): (s: seq<Simple>)
    ensures |s| == |states| && forall i | 0 <= i < |s| :: s[i] == SimpleOf(states[i])
  {
    seq(|states|, i requires 0 <= i < |states| => SimpleOf(states[i]))
  }

  /**
   Every run of the kernel is a run of the simple system: copying, lazy filling,
   reference counts and table frames never show, at private pages or at shared ones.
   */
  lemma RunRefines(tramp: Ppn, sig: Ppn, states: seq<Mem>, ops: seq<Op>)
    requires Run(tramp, sig, states, ops) && Started(tramp, sig, states[0])
    ensures SimpleRun(Simples(states), ops) && SimpleOk(SimpleOf(states[0]))
  {
    hide Step, SimpleOf, SimpleStep, UserOk;
    forall i | 0 <= i < |ops| ensures SimpleStep(Simples(states)[i], ops[i], Simples(states)[i + 1]) {
      RunKeeps(tramp, sig, states, ops, i);
      StepRefines(tramp, sig, states[i], ops[i], states[i + 1]);
    }
    SimpleOfOk(states[0]);
  }

  lemma SimpleOfOk(m: Mem)
    requires UserOk(m)
    ensures SimpleOk(SimpleOf(m))
  {
    ViewsSized(m);
  }

  /** A run that begins when the machine has started, with no process at all. */
  lemma RunsFromBoot(tramp: Ppn, sig: Ppn, ad: bool, base: Ppn, used: nat, npage: nat, states: seq<Mem>, ops: seq<Op>)
    requires base > 0 && used <= npage && base <= tramp < base + used && base <= sig < base + used
    requires Run(tramp, sig, states, ops) && states[0] == Booted(ad, base, used, npage)
    ensures SimpleRun(Simples(states), ops) && Simples(states)[0] == Simple(imap[], imap[])
  {
    hide Step, SimpleStep;
    BootedOk(ad, base, used, npage);
    RunRefines(tramp, sig, states, ops);
    BootedEmpty(states[0]);
  }

  lemma BootedEmpty(m: Mem)
    requires m.owner == map[]
    ensures SimpleOf(m) == Simple(imap[], imap[])
  {
    assert AllViews(m) == imap[] && AllKinds(m) == imap[];
  }

  /** Isolation in every run: what a process reads at its private pages follows from its own steps alone. */
  lemma RunIsolated(tramp: Ppn, sig: Ppn, states: seq<Mem>, ops: seq<Op>, q: Ppn)
    requires Run(tramp, sig, states, ops) && Started(tramp, sig, states[0]) && IsRoot(states[0].owner, q) && Lives(ops, q)
    ensures IsRoot(states[|ops|].owner, q) && q in SimpleOf(states[0]).views && q in SimpleOf(states[|ops|]).views
    ensures OwnView(SimpleOf(states[|ops|]), q) == ReplayOwn(OwnView(SimpleOf(states[0]), q), OwnOps(ops, q))
  {
    hide Step, SimpleStep, UserOk, AllViews, AllKinds, OwnView, ReplayOwn, OwnOps;
    RootIs(states[0], q);
    RunRefines(tramp, sig, states, ops);
    Noninterference(Simples(states), ops, q);
    RootIs(states[|ops|], q);
  }

  /**
   In every run after a fork, parent and child have one common shared frame at a page
   exactly if the parent had it there before: a shared page that had no frame yet is
   filled for each of them separately.
   */
  lemma RunForkSharing(tramp: Ppn, sig: Ppn, states: seq<Mem>, ops: seq<Op>, k: nat, n: nat, v: Vpn)
    requires Run(tramp, sig, states, ops) && Started(tramp, sig, states[0]) && k < n <= |ops| && ops[k].Fork? && !Special(v)
    requires Undisturbed(ops[k + 1..], ops[k].p, v) && Undisturbed(ops[k + 1..], ops[k].child, v)
    ensures var p, c, m := ops[k].p, ops[k].child, states[n];
            var a, b, before := Lookup(m.tab, p, v), Lookup(m.tab, c, v), Lookup(states[k].tab, p, v);
            a.v && b.v && a.perm.shared && b.perm.shared && a.ppn == b.ppn <==> before.v && before.perm.shared
  {
    hide Step, SimpleStep, UserOk, AllViews, AllKinds, Lookup, Undisturbed, SimpleOk;
    RunRefines(tramp, sig, states, ops);
    ForkSharing(Simples(states), ops, k, n, v);
    ForkAlive(tramp, sig, states, ops, k, n, v);
    KindIs(states[k], ops[k].p, v);
    KindIs(states[n], ops[k].p, v);
    KindIs(states[n], ops[k].child, v);
  }

  /** Parent and child are there until they end. */
  lemma ForkAlive(tramp: Ppn, sig: Ppn, states: seq<Mem>, ops: seq<Op>, k: nat, n: nat, v: Vpn)
    requires Run(tramp, sig, states, ops) && Started(tramp, sig, states[0]) && k < n <= |ops| && ops[k].Fork?
    requires SimpleRun(Simples(states), ops) && SimpleOk(Simples(states)[0])
    requires Undisturbed(ops[k + 1..], ops[k].p, v) && Undisturbed(ops[k + 1..], ops[k].child, v)
    ensures ops[k].p != ops[k].child && IsRoot(states[k].owner, ops[k].p)
    ensures IsRoot(states[n].owner, ops[k].p) && IsRoot(states[n].owner, ops[k].child)
  {
    hide Step, UserOk, AllViews, AllKinds, Undisturbed, SimpleOk;
    var p, c := ops[k].p, ops[k].child;
    assert SimpleStep(Simples(states)[k], ops[k], Simples(states)[k + 1]);
    SharingKept(Simples(states), ops, k + 1, n, p, v, c, v);
    RootIs(states[k], p);
    RootIs(states[n], p);
    RootIs(states[n], c);
  }

  /**
   And at every page, shared ones included: a process that does nothing reads the
   same bytes as long as nobody stores into the frame it shares there.
   */
  lemma RunReadsStay(tramp: Ppn, sig: Ppn, states: seq<Mem>, ops: seq<Op>, q: Ppn, u: Vpn)
    requires Run(tramp, sig, states, ops) && Started(tramp, sig, states[0])
    requires IsRoot(states[0].owner, q) && u in ViewOf(states[0], q) && LeftAlone(Simples(states), ops, q, u)
    ensures IsRoot(states[|ops|].owner, q) && u in ViewOf(states[|ops|], q)
    ensures ViewOf(states[|ops|], q)[u] == ViewOf(states[0], q)[u]
  {
    hide Step, SimpleStep, UserOk, AllViews, AllKinds, ViewOf, LeftAlone;
    RootIs(states[0], q);
    RunRefines(tramp, sig, states, ops);
    ReadsStay(Simples(states), ops, q, u, |ops|);
    RootIs(states[|ops|], q);
  }

  // ---- conservation ---------------------------------------------------------------------

  lemma NewRootKept(m: Mem, m': Mem)
    requires Whole(m) && m.free != [] && m.free[0] in m.ref && m.free[0] in m.hold && m' == NewRoot(m)
    ensures Kept(m, m', m.free[0])
  {
    FreeHead(m);
    assert forall s, j: Idx :: Ent(m'.tab, s, j) == Ent(m.tab, s, j);
  }

  lemma MapFreshKept(m: Mem, pd: Ppn, v: Vpn, page: Page, perm: Perm, m': Mem)
    requires Whole(m) && m.pending == {} && IsRoot(m.owner, pd) && |page| == PAGE_SIZE
    requires MapFresh(m, pd, v, page, perm) == Ok(m')
    ensures Kept(m, m', pd)
  {
    FilledOk(m, page);
    MapKept(Filled(m, page), pd, v, m.free[0], perm, m');
  }

  /** Building a new address space takes frames for it and touches no table of another. */
  lemma InitUptKept(m: Mem, tramp: Ppn, sig: Ppn, m': Mem, c: Ppn)
    requires UserOk(m) && BootFrame(m, tramp) && BootFrame(m, sig)
    requires InitUpt(m, tramp, sig) == Ok((m', c))
    ensures Kept(m, m', c) && m'.hold == m.hold[c := 1] && c in m.free
  {
    var m1, m2, m3 := InitUptParts(m, tramp, sig, m', c);
    NewRootBorn(m, m1);
    NewRootBase(m, m1);
    NewRootKept(m, m1);
    MapStepKept(m, m1, c, V_TRAMPOLINE, tramp, PERM_TRAMPOLINE, m2);
    MapStepKept(m, m2, c, V_SIGNAL, sig, PERM_SIGNAL, m3);
    MapFreshKept(m3, c, V_TRAPFRAME, ZeroPage(), PERM_TRAPFRAME, m');
    MapFreshBoot(m3, c, V_TRAPFRAME, ZeroPage(), PERM_TRAPFRAME, m');
    KeptTwice(m, m3, m', c);
  }

  lemma MapStepKept(m: Mem, m1: Mem, c: Ppn, v: Vpn, f: Ppn, perm: Perm, m2: Mem)
    requires Born(m, m1, c) && Special(v) && BootFrame(m, f) && !perm.w && !perm.shared && !perm.cow
    requires Kept(m, m1, c) && Map(m1, c, v, f, perm) == Ok(m2)
    ensures Born(m, m2, c) && Kept(m, m2, c) && m2.hold == m1.hold
  {
    MapBoot(m1, c, v, f, perm, m2);
    BornStep(m, m1, m2, c, v);
    MapKept(m1, c, v, f, perm, m2);
    KeptTwice(m, m1, m2, c);
    MapBootSame(m1, c, v, f, perm, m2);
  }

  lemma ForkKept(m: Mem, p: Ppn, tramp: Ppn, sig: Ppn, m': Mem, c: Ppn)
    requires UserOk(m) && IsRoot(m.owner, p) && BootFrame(m, tramp) && BootFrame(m, sig)
    requires ForkSpace(m, p, tramp, sig) == Ok((m', c))
    ensures Kept(m, m', c) && m'.hold == m.hold[c := 1] && c in m.free
  {
    var m0 := ForkParts(m, p, tramp, sig, m', c);
    InitUptKept(m, tramp, sig, m0, c);
    InitUptBorn(m, tramp, sig, m0, c);
    RootIs(m, p);
    RootIs(m0, p);
    WalkKept(m0, p, c, m');
    KeptTwice(m, m0, m', c);
  }

  lemma WalkKept(m: Mem, p: Ppn, c: Ppn, m': Mem)
    requires Forkable(m, p, c) && PdWalk(DupCall(p, c), NoTable(), m, p) == Ok(m')
    ensures Kept(m, m', c) && m'.hold == m.hold
  {
    DupWalk(m, p, c, m');
  }

  /** Two whole states with the same tables, targets and holds have the same counts and free frames. */
  lemma SameCounts(m: Mem, m': Mem)
    requires Whole(m) && Whole(m') && m.pending == m'.pending && m.hold == m'.hold && m.owner == m'.owner
    requires forall t, i: Idx {:trigger Ent(m'.tab, t, i)} | t in m.owner :: SameTarget(Ent(m'.tab, t, i), Ent(m.tab, t, i))
    ensures m'.ref == m.ref && (forall f :: f in m'.free <==> f in m.free)
  {
    forall f | f in m.ref ensures m'.ref[f] == m.ref[f] {
      SameSlots(m, m', f);
      assert m.ref[f] == |Slots(m.tab, m.dead, f)| + m.hold[f];
      assert m'.ref[f] == |Slots(m'.tab, m'.dead, f)| + m'.hold[f];
    }
  }

  lemma SameSlots(m: Mem, m': Mem, f: Ppn)
    requires m.tab.Keys == m'.tab.Keys && m.dead == m'.dead
    requires forall t, i: Idx {:trigger Ent(m'.tab, t, i)} | t in m.tab :: SameTarget(Ent(m'.tab, t, i), Ent(m.tab, t, i))
    ensures Slots(m'.tab, m'.dead, f) == Slots(m.tab, m.dead, f)
  {
    forall s: Slot ensures s in Slots(m'.tab, m'.dead, f) <==> s in Slots(m.tab, m.dead, f) {
      assert s.t in m.tab ==> SameTarget(Ent(m'.tab, s.t, s.i), Ent(m.tab, s.t, s.i));
    }
  }

  ghost function Elems(a: seq<Ppn>): set<Ppn> {
    set f | f in a
  }

  lemma SameLength(a: seq<Ppn>, b: seq<Ppn>)
    requires NoDup(a) && NoDup(b) && forall f :: f in a <==> f in b
    ensures |a| == |b|
  {
    SetLength(a);
    SetLength(b);
    assert Elems(a) == Elems(b);
  }

  lemma {:induction false} SetLength(a: seq<Ppn>)
    requires NoDup(a)
    ensures |Elems(a)| == |a|
  {
    if a == [] {
      assert Elems(a) == {};
    } else {
      SetLength(a[1..]);
      assert Elems(a) == {a[0]} + Elems(a[1..]);
    }
  }

  lemma ChildGone(m: Mem, m': Mem, m'': Mem, c: Ppn)
    requires Whole(m) && c !in m.owner && Kept(m, m', c) && Recycled(m', m'', c)
    ensures m''.owner == m.owner
    ensures forall t, i: Idx {:trigger Ent(m''.tab, t, i)} | t in m.owner :: SameTarget(Ent(m''.tab, t, i), Ent(m.tab, t, i))
  {
    forall t | t in m.owner ensures t in m'.owner && !Under(m'.owner, t, c) {
      assert Hangs(m.tab, m.owner, {}, t);
    }
    forall t, i: Idx | t in m.owner ensures SameTarget(Ent(m''.tab, t, i), Ent(m.tab, t, i)) {
      assert t in m''.owner;
      assert SameTarget(Ent(m'.tab, t, i), Ent(m.tab, t, i));
    }
  }

  /**
   Conservation: when a forked child's address space is given back, every frame
   has the reference count it had before the fork, the same frames are free, and
   every process reads what it read.
   */
  lemma ForkExitConserves(m: Mem, p: Ppn, tramp: Ppn, sig: Ppn, m': Mem, c: Ppn)
    requires UserOk(m) && IsRoot(m.owner, p) && BootFrame(m, tramp) && BootFrame(m, sig)
    requires ForkSpace(m, p, tramp, sig) == Ok((m', c))
    ensures var r := RecycleSpace(m', c);
            && r.Ok? && r.value.ref == m.ref
            && (forall f :: f in r.value.free <==> f in m.free) && |r.value.free| == |m.free|
            && SimpleOf(r.value) == SimpleOf(m)
  {
    hide ForkSpace, RecycleSpace, AllViews, AllKinds, CowOk, UserPages, BootHeld, Whole, Forked, Exited;
    ForkViews(m, p, tramp, sig, m', c);
    ForkKept(m, p, tramp, sig, m', c);
    ForkedRoot(m, m', p, c);
    RecycleViews(m', c);
    RecycleRemoves(m', c);
    ReturnsAll(m, m', RecycleSpace(m', c).value, c);
    SimpleBack(m, SimpleOf(m), SimpleOf(m'), SimpleOf(RecycleSpace(m', c).value), p, c);
  }

  lemma ForkedRoot(m: Mem, m': Mem, p: Ppn, c: Ppn)
    requires Forked(SimpleOf(m), p, c, SimpleOf(m'))
    ensures IsRoot(m'.owner, c)
  {
    hide AllViews, AllKinds;
    RootIs(m', c);
  }

  lemma SimpleBack(m: Mem, a: Simple, b: Simple, a': Simple, p: Ppn, c: Ppn)
    requires a == SimpleOf(m) && Forked(a, p, c, b) && Exited(b, c, a')
    ensures a' == a
  {
    hide AllViews, AllKinds;
    RootIs(m, c);
    assert Without(b.views, c) == a.views && Without(b.kinds, c) == a.kinds;
  }

  lemma ReturnsAll(m: Mem, m': Mem, m'': Mem, c: Ppn)
    requires Whole(m) && m.pending == {} && m'.pending == {} && c in m.free && Kept(m, m', c)
    requires m'.hold == m.hold[c := 1] && Recycled(m', m'', c)
    ensures m''.ref == m.ref && (forall f :: f in m''.free <==> f in m.free) && |m''.free| == |m.free|
  {
    FreeFrame(m, c);
    ChildGone(m, m', m'', c);
    assert m''.hold == m.hold;
    SameCounts(m, m'');
    SameLength(m''.free, m.free);
  }

  lemma FreeFrame(m: Mem, c: Ppn)
    requires Whole(m) && c in m.free
    ensures c !in m.owner && c in m.hold && m.hold[c] == 0
  {
    if c in m.tab { TableInUse(m, c); }
    assert m.ref[c] == |Slots(m.tab, m.dead, c)| + m.hold[c];
  }
}
