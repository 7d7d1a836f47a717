/**
 What every run of the simple system keeps: private pages depend on their own
 process alone, shared pages change only when someone writes to that memory.
 */
module SimpleRuns {
  import opened Words
  import opened Sv39
  import opened PageTables
  import opened VmState
  import opened SimpleSystem

  ghost predicate SimpleOk(s: Simple) {
    Sized(s.views) && forall q :: q in s.views <==> q in s.kinds
  }

  lemma OkKept(s: Simple, op: Op, s': Simple)
    requires SimpleOk(s) && SimpleStep(s, op, s')
    ensures SimpleOk(s')
  {
    hide Stored, CopiedOut, Mapped, Unmapped, Forked, Spawned, Exited, SimpleOk;
    match op
    case Store(p, v, off, b, done) => StoreOk(s, p, v, off, b, done, s');
    case Write(p, uptr, bytes) => CopiedOk(s, p, uptr, bytes, s');
    case Load(p, _, _, _, _) => TouchOk(s, p, s');
    case Read(p, _, _) => TouchOk(s, p, s');
    case MapAt(p, v, perm, added) => if added { MapOk(s, p, v, perm.shared, s'); }
    case UnmapAt(p, v) => UnmapOk(s, p, v, s');
    case Fork(p, child) => ForkOk(s, p, child, s');
    case Spawn(p) => SpawnOk(s, p, s');
    case Exit(p) => ExitOk(s, p, s');
  }

  lemma StoreOk(s: Simple, p: Ppn, v: Vpn, off: nat, b: Byte, done: bool, s': Simple)
    requires SimpleOk(s) && Stored(s, p, v, off, b, done, s')
    ensures SimpleOk(s')
  {
    hide PutAt, Sized, KindAt;
    PutSized(s.views, s'.kinds, p, v, off, [b]);
    PutShape(s.views, s'.kinds, p, v, off, [b]);
  }

  lemma CopiedOk(s: Simple, p: Ppn, uptr: nat, bytes: seq<Byte>, s': Simple)
    requires SimpleOk(s) && CopiedOut(s, p, uptr, bytes, s')
    ensures SimpleOk(s')
  {
    hide PutBytes, Sized, KindAt;
    PutBytesSized(s.views, s'.kinds, p, uptr, bytes);
    PutBytesKeys(s.views, s'.kinds, p, uptr, bytes);
  }

  lemma TouchOk(s: Simple, p: Ppn, s': Simple)
    requires SimpleOk(s) && s'.views == s.views && Touched(s.kinds, p, s'.kinds)
    ensures SimpleOk(s')
  {
  }

  lemma MapOk(s: Simple, p: Ppn, v: Vpn, shared: bool, s': Simple)
    requires SimpleOk(s) && Mapped(s, p, v, shared, s')
    ensures SimpleOk(s')
  {
  }

  lemma UnmapOk(s: Simple, p: Ppn, v: Vpn, s': Simple)
    requires SimpleOk(s) && Unmapped(s, p, v, s')
    ensures SimpleOk(s')
  {
  }

  lemma ForkOk(s: Simple, p: Ppn, child: Ppn, s': Simple)
    requires SimpleOk(s) && Forked(s, p, child, s')
    ensures SimpleOk(s')
  {
  }

  lemma SpawnOk(s: Simple, p: Ppn, s': Simple)
    requires SimpleOk(s) && Spawned(s, p, s')
    ensures SimpleOk(s')
  {
  }

  lemma ExitOk(s: Simple, p: Ppn, s': Simple)
    requires SimpleOk(s) && Exited(s, p, s')
    ensures SimpleOk(s')
  {
  }

  /** The same processes with the same pages. */
  ghost predicate SameShape(views: Views, views': Views) {
    && (forall q :: q in views' <==> q in views)
    && (forall q, u {:trigger u in views'[q]} | q in views' && q in views :: u in views'[q] <==> u in views[q])
  }

  lemma PutShape(views: Views, kinds: Kinds, p: Ppn, v: Vpn, off: nat, bytes: seq<Byte>)
    ensures SameShape(views, PutAt(views, kinds, p, v, off, bytes))
  {
    hide Same;
  }

  lemma ShapeTwice(a: Views, b: Views, c: Views)
    requires SameShape(a, b) && SameShape(b, c)
    ensures SameShape(a, c)
  {
    forall q, u | q in c && q in a ensures u in c[q] <==> u in a[q] {
      assert u in b[q] <==> u in a[q];
    }
  }

  lemma {:induction false} PutBytesKeys(views: Views, kinds: Kinds, p: Ppn, va: nat, bytes: seq<Byte>)
    ensures SameShape(views, PutBytes(views, kinds, p, va, bytes))
    decreases |bytes|
  {
    hide SameShape, PutAt;
    if bytes == [] {
      ShapeSame(views);
    } else {
      var next := PutAt(views, kinds, p, VpnOf(va), va % PAGE_SIZE, bytes[..1]);
      PutShape(views, kinds, p, VpnOf(va), va % PAGE_SIZE, bytes[..1]);
      PutBytesKeys(next, kinds, p, va + 1, bytes[1..]);
      ShapeTwice(views, next, PutBytes(next, kinds, p, va + 1, bytes[1..]));
    }
  }

  lemma ShapeSame(views: Views)
    ensures SameShape(views, views)
  {
  }

  // ---- pages nobody writes to -------------------------------------------------------------

  /** The step stores into the memory that page u of process q is. */
  ghost predicate WritesTo(op: Op, kinds: Kinds, q: Ppn, u: Vpn) {
    match op
    case Store(p, v, _, _, done) => done && Same(kinds, p, v, q, u)
    case Write(p, uptr, bytes) => exists k :: 0 <= k < |bytes| && InPage(kinds, p, uptr, k, q, u)
    case _ => false
  }

  /** Byte k of a range at va lies in the memory that page u of process q is. */
  ghost predicate InPage(kinds: Kinds, p: Ppn, va: nat, k: nat, q: Ppn, u: Vpn) {
    Same(kinds, p, VpnOf(va + k), q, u)
  }

  lemma PutMisses(views: Views, kinds: Kinds, p: Ppn, va: nat, bytes: seq<Byte>, q: Ppn, u: Vpn)
    requires Sized(views) && q in views && u in views[q]
    requires forall k: nat {:trigger InPage(kinds, p, va, k, q, u)} | k < |bytes| :: !InPage(kinds, p, va, k, q, u)
    ensures var views' := PutBytes(views, kinds, p, va, bytes);
            q in views' && u in views'[q] && views'[q][u] == views[q][u]
  {
    hide PutBytes, HitBy, InPage;
    var views' := PutBytes(views, kinds, p, va, bytes);
    PutBytesKeys(views, kinds, p, va, bytes);
    PutBytesSized(views, kinds, p, va, bytes);
    assert |views[q][u]| == |views'[q][u]| == PAGE_SIZE;
    forall o | 0 <= o < PAGE_SIZE ensures views'[q][u][o] == views[q][u][o] {
      Misses(kinds, p, va, |bytes|, q, u, o);
      LastWins(views, kinds, p, va, bytes, q, u, o, -1);
    }
  }

  lemma Misses(kinds: Kinds, p: Ppn, va: nat, len: nat, q: Ppn, u: Vpn, o: nat)
    requires forall k: nat {:trigger InPage(kinds, p, va, k, q, u)} | k < len :: !InPage(kinds, p, va, k, q, u)
    ensures LastHit(kinds, p, va, len, q, u, o, -1)
  {
    hide VpnOf, Same;
    forall k: nat | k < len ensures !HitBy(kinds, p, va, k, q, u, o) {
      assert !InPage(kinds, p, va, k, q, u);
    }
  }

  /** What another process reads, at private and shared pages alike, changes only by a store into that memory. */
  lemma OthersKeep(s: Simple, op: Op, s': Simple, q: Ppn, u: Vpn)
    requires SimpleOk(s) && SimpleStep(s, op, s') && q in s.views && u in s.views[q]
    requires op.p != q && !WritesTo(op, s'.kinds, q, u)
    ensures q in s'.views && u in s'.views[q] && s'.views[q][u] == s.views[q][u]
    ensures KindAt(s'.kinds, q, u) == KindAt(s.kinds, q, u)
  {
    hide Stored, CopiedOut, Loaded, CopiedIn, Mapped, Unmapped, Forked, Spawned, Exited, KindAt, Same, InPage, Sized;
    match op
    case Write(p, uptr, bytes) => WriteKeeps(s, p, uptr, bytes, s', q, u);
    case Store(p, v, off, b, done) => StoreKeeps(s, p, v, off, b, done, s', q, u);
    case _ => QuietStep(s, op, s', q);
  }

  lemma WriteKeeps(s: Simple, p: Ppn, uptr: nat, bytes: seq<Byte>, s': Simple, q: Ppn, u: Vpn)
    requires SimpleOk(s) && CopiedOut(s, p, uptr, bytes, s') && q in s.views && u in s.views[q] && p != q
    requires !exists k :: 0 <= k < |bytes| && InPage(s'.kinds, p, uptr, k, q, u)
    ensures q in s'.views && u in s'.views[q] && s'.views[q][u] == s.views[q][u]
    ensures KindAt(s'.kinds, q, u) == KindAt(s.kinds, q, u)
  {
    hide PutBytes, InPage, Sized, Named;
    PutMisses(s.views, s'.kinds, p, uptr, bytes, q, u);
    assert KindAt(s'.kinds, q, u) == KindAt(s.kinds, q, u);
  }

  lemma StoreKeeps(s: Simple, p: Ppn, v: Vpn, off: nat, b: Byte, done: bool, s': Simple, q: Ppn, u: Vpn)
    requires SimpleOk(s) && Stored(s, p, v, off, b, done, s') && q in s.views && u in s.views[q] && p != q
    requires !(done && Same(s'.kinds, p, v, q, u))
    ensures q in s'.views && u in s'.views[q] && s'.views[q][u] == s.views[q][u]
    ensures KindAt(s'.kinds, q, u) == KindAt(s.kinds, q, u)
  {
    hide Named, Sized;
    assert KindAt(s'.kinds, q, u) == KindAt(s.kinds, q, u);
  }

  /** A step that stores nothing leaves every other process as it is. */
  lemma QuietStep(s: Simple, op: Op, s': Simple, q: Ppn)
    requires SimpleOk(s) && SimpleStep(s, op, s') && q in s.views && op.p != q && !op.Store? && !op.Write?
    ensures q in s'.views && s'.views[q] == s.views[q]
    ensures forall u {:trigger KindAt(s'.kinds, q, u)} :: KindAt(s'.kinds, q, u) == KindAt(s.kinds, q, u)
  {
    hide ReadsAs, SetPage, SetShared, UserKinds, NewKind, Sized, Named, PutBytes;
  }

  /** A store to a private page changes no other page of any process, shared ones included. */
  lemma PrivateStore(s: Simple, op: Op, s': Simple, q: Ppn, u: Vpn)
    requires SimpleOk(s) && SimpleStep(s, op, s') && op.Store? && KindAt(s.kinds, op.p, op.v) == Private
    requires q in s.views && u in s.views[q] && !(q == op.p && u == op.v)
    ensures q in s'.views && u in s'.views[q] && s'.views[q][u] == s.views[q][u]
  {
    hide Stored, KindAt, Sized;
    StoredElsewhere(s, op.p, op.v, op.off, op.b, op.done, s', q, u);
  }

  // ---- private pages ------------------------------------------------------------------------

  /** The pages a process has to itself. */
  ghost function OwnView(s: Simple, q: Ppn): View
    requires q in s.views
  {
    OwnIn(s.views[q], s.kinds, q)
  }

  ghost function OwnIn(view: View, kinds: Kinds, q: Ppn): View {
    imap v | v in view && KindAt(kinds, q, v) == Private :: view[v]
  }

  /** Setting one byte of one page. */
  ghost function Poke(view: View, v: Vpn, off: nat, b: Byte): View {
    if v in view && off < |view[v]| then view[v := Patch(view[v], off, [b])] else view
  }

  ghost function PokeAll(view: View, va: nat, bytes: seq<Byte>): View
    decreases |bytes|
  {
    if bytes == [] then view else PokeAll(Poke(view, VpnOf(va), va % PAGE_SIZE, bytes[0]), va + 1, bytes[1..])
  }

  /** What a step of a process does to its own private pages. */
  ghost function OwnEffect(view: View, op: Op): View {
    match op
    case Store(p, v, off, b, done) => if done then Poke(view, v, off, b) else view
    case MapAt(p, v, perm, added) => if added then SetPage(view, v, !perm.shared, ZeroPage()) else view
    case UnmapAt(p, v) => SetPage(view, v, false, ZeroPage())
    case Write(p, uptr, bytes) => PokeAll(view, uptr, bytes)
    case _ => view
  }

  lemma OwnOther(s: Simple, op: Op, s': Simple, q: Ppn)
    requires SimpleOk(s) && SimpleStep(s, op, s') && q in s.views && op.p != q
    ensures q in s'.views && OwnView(s', q) == OwnView(s, q)
  {
    hide SimpleStep, SimpleOk, KindAt, WritesTo;
    StaysThere(s, op, s', q);
    forall u | u in s.views[q] && KindAt(s.kinds, q, u) == Private
      ensures u in s'.views[q] && s'.views[q][u] == s.views[q][u] && KindAt(s'.kinds, q, u) == Private
    {
      NotWritten(s, op, s', q, u);
      OthersKeep(s, op, s', q, u);
    }
  }

  /** A process that takes no step keeps its pages and their kinds. */
  lemma StaysThere(s: Simple, op: Op, s': Simple, q: Ppn)
    requires SimpleOk(s) && SimpleStep(s, op, s') && q in s.views && op.p != q
    ensures q in s'.views && (forall u :: u in s'.views[q] <==> u in s.views[q])
    ensures forall u {:trigger KindAt(s'.kinds, q, u)} :: KindAt(s'.kinds, q, u) == KindAt(s.kinds, q, u)
  {
    hide Stored, CopiedOut, Loaded, CopiedIn, Mapped, Unmapped, Forked, Spawned, Exited, KindAt, Sized, PutBytes, PutAt;
    match op
    case Write(p, uptr, bytes) =>
      PutBytesKeys(s.views, s'.kinds, p, uptr, bytes);
      WriteThere(s, p, uptr, bytes, s', q);
    case Store(p, v, off, b, done) =>
      PutShape(s.views, s'.kinds, p, v, off, [b]);
      StoreThere(s, p, v, off, b, done, s', q);
    case _ => QuietStep(s, op, s', q);
  }

  lemma WriteThere(s: Simple, p: Ppn, uptr: nat, bytes: seq<Byte>, s': Simple, q: Ppn)
    requires CopiedOut(s, p, uptr, bytes, s') && SameShape(s.views, PutBytes(s.views, s'.kinds, p, uptr, bytes)) && q in s.views && p != q
    ensures q in s'.views && (forall u :: u in s'.views[q] <==> u in s.views[q])
    ensures forall u {:trigger KindAt(s'.kinds, q, u)} :: KindAt(s'.kinds, q, u) == KindAt(s.kinds, q, u)
  {
    hide PutBytes, Named, KindAt;
  }

  lemma StoreThere(s: Simple, p: Ppn, v: Vpn, off: nat, b: Byte, done: bool, s': Simple, q: Ppn)
    requires Stored(s, p, v, off, b, done, s') && SameShape(s.views, PutAt(s.views, s'.kinds, p, v, off, [b])) && q in s.views && p != q
    ensures q in s'.views && (forall u :: u in s'.views[q] <==> u in s.views[q])
    ensures forall u {:trigger KindAt(s'.kinds, q, u)} :: KindAt(s'.kinds, q, u) == KindAt(s.kinds, q, u)
  {
    hide PutAt, Named, KindAt;
  }

  lemma NotWritten(s: Simple, op: Op, s': Simple, q: Ppn, u: Vpn)
    requires SimpleStep(s, op, s') && op.p != q && KindAt(s.kinds, q, u) == Private
    ensures !WritesTo(op, s'.kinds, q, u)
  {
    if op.Store? || op.Write? { assert KindAt(s'.kinds, q, u) == Private; }
  }

  lemma OwnKinds(view: View, a: Kinds, p: Ppn, b: Kinds)
    requires Touched(a, p, b)
    ensures OwnIn(view, a, p) == OwnIn(view, b, p)
  {
    forall u ensures KindAt(a, p, u) == Private <==> KindAt(b, p, u) == Private {
      assert KindAt(b, p, u) == KindAt(a, p, u) || Named(a, b, p, u);
    }
  }

  /** One byte stored at a private page is one byte of that page; stored elsewhere it leaves the private pages alone. */
  lemma OwnPut(view: View, kinds: Kinds, p: Ppn, v: Vpn, off: nat, b: Byte)
    ensures OwnIn(PutIn(view, kinds, p, v, off, [b], p), kinds, p) == Poke(OwnIn(view, kinds, p), v, off, b)
  {
    hide Patch;
    forall u | u in view && KindAt(kinds, p, u) == Private ensures Same(kinds, p, v, p, u) <==> u == v {
    }
  }

  lemma {:induction false} OwnPutBytes(views: Views, kinds: Kinds, p: Ppn, va: nat, bytes: seq<Byte>)
    requires p in views
    ensures p in PutBytes(views, kinds, p, va, bytes)
    ensures OwnIn(PutBytes(views, kinds, p, va, bytes)[p], kinds, p) == PokeAll(OwnIn(views[p], kinds, p), va, bytes)
    decreases |bytes|
  {
    hide OwnIn, PutIn, Poke, VpnOf;
    if bytes != [] {
      var next := PutAt(views, kinds, p, VpnOf(va), va % PAGE_SIZE, bytes[..1]);
      assert bytes[..1] == [bytes[0]];
      OwnPut(views[p], kinds, p, VpnOf(va), va % PAGE_SIZE, bytes[0]);
      OwnPutBytes(next, kinds, p, va + 1, bytes[1..]);
    }
  }

  lemma OwnWrite(s: Simple, op: Op, s': Simple)
    requires op.Write? && SimpleStep(s, op, s')
    ensures op.p in s'.views && OwnView(s', op.p) == OwnEffect(OwnView(s, op.p), op)
  {
    hide PutBytes, PokeAll, OwnIn, Touched;
    OwnPutBytes(s.views, s'.kinds, op.p, op.uptr, op.bytes);
    OwnKinds(s.views[op.p], s.kinds, op.p, s'.kinds);
  }

  lemma OwnStore(s: Simple, op: Op, s': Simple)
    requires op.Store? && SimpleStep(s, op, s')
    ensures op.p in s'.views && OwnView(s', op.p) == OwnEffect(OwnView(s, op.p), op)
  {
    hide PutIn, Poke, OwnIn, Touched;
    OwnKinds(s.views[op.p], s.kinds, op.p, s'.kinds);
    OwnPut(s.views[op.p], s'.kinds, op.p, op.v, op.off, op.b);
  }

  /** A step of its own changes the private pages of a process in a way that depends on them alone. */
  lemma OwnSelf(s: Simple, op: Op, s': Simple)
    requires SimpleOk(s) && SimpleStep(s, op, s') && op.p in s.views && !op.Exit?
    ensures op.p in s'.views && OwnView(s', op.p) == OwnEffect(OwnView(s, op.p), op)
  {
    hide PutBytes, VaOf, VpnOf, ReadsAs, Same;
    match op
    case Store(_, _, _, _, _) => OwnStore(s, op, s');
    case Write(_, _, _) => OwnWrite(s, op, s');
    case MapAt(_, _, _, _) => OwnMap(s, op, s');
    case UnmapAt(p, v) => OwnUnmap(s, op, s');
    case _ => OwnSame(s, op, s');
  }

  /** A new page, or none, at v: it is among the private pages if its kind is. */
  lemma OwnSetPage(view: View, kinds: Kinds, p: Ppn, v: Vpn, k: Kind, visible: bool, page: Page)
    requires p in kinds
    ensures OwnIn(SetPage(view, v, visible, page), SetKind(kinds, p, v, k), p)
            == SetPage(OwnIn(view, kinds, p), v, visible && k == Private, page)
  {
    var kinds' := SetKind(kinds, p, v, k);
    forall u ensures KindAt(kinds', p, u) == if u == v then k else KindAt(kinds, p, u) { }
    hide KindAt, SetKind;
  }

  lemma OwnMap(s: Simple, op: Op, s': Simple)
    requires SimpleOk(s) && op.MapAt? && SimpleStep(s, op, s')
    ensures op.p in s'.views && OwnView(s', op.p) == OwnEffect(OwnView(s, op.p), op)
  {
    hide OwnIn, SetPage, SetKind, Sized, Unused;
    if op.added {
      var k :| NewKind(s.kinds, op.perm.shared, k) && s'.kinds == SetKind(s.kinds, op.p, op.v, k);
      assert k == Private <==> !op.perm.shared;
      OwnSetPage(s.views[op.p], s.kinds, op.p, op.v, k, true, ZeroPage());
    }
  }

  lemma OwnUnmap(s: Simple, op: Op, s': Simple)
    requires SimpleOk(s) && op.UnmapAt? && SimpleStep(s, op, s')
    ensures op.p in s'.views && OwnView(s', op.p) == OwnEffect(OwnView(s, op.p), op)
  {
    hide OwnIn, SetPage, SetKind, Sized;
    OwnSetPage(s.views[op.p], s.kinds, op.p, op.v, Private, false, ZeroPage());
  }

  lemma ForkOwn(s: Simple, op: Op, s': Simple)
    requires SimpleOk(s) && op.Fork? && SimpleStep(s, op, s')
    ensures op.p in s'.views && OwnView(s', op.p) == OwnView(s, op.p)
  {
    assert forall u :: KindAt(s'.kinds, op.p, u) == KindAt(s.kinds, op.p, u);
  }

  lemma OwnSame(s: Simple, op: Op, s': Simple)
    requires SimpleOk(s) && SimpleStep(s, op, s') && op.p in s.views && (op.Fork? || op.Load? || op.Read?)
    ensures op.p in s'.views && OwnView(s', op.p) == OwnView(s, op.p)
  {
    hide Touched, OwnIn, UserKinds;
    if !op.Fork? { OwnKinds(s.views[op.p], s.kinds, op.p, s'.kinds); } else { ForkOwn(s, op, s'); }
  }

  // ---- runs ------------------------------------------------------------------------------------

  ghost predicate SimpleRun(states: seq<Simple>, ops: seq<Op>) {
    |states| == |ops| + 1 && forall i {:trigger ops[i]} | 0 <= i < |ops| :: SimpleStep(states[i], ops[i], states[i + 1])
  }

  lemma {:induction false} RunOk(states: seq<Simple>, ops: seq<Op>, n: nat)
    requires SimpleRun(states, ops) && SimpleOk(states[0]) && n <= |ops|
    ensures SimpleOk(states[n])
  {
    hide SimpleStep, SimpleOk;
    if n > 0 {
      RunOk(states, ops, n - 1);
      assert ops[n - 1] == ops[n - 1];
      OkKept(states[n - 1], ops[n - 1], states[n]);
    }
  }

  /** The steps that process q takes itself. */
  ghost function OwnOps(ops: seq<Op>, q: Ppn): seq<Op> {
    if ops == [] then []
    else
      var rest := OwnOps(ops[..|ops| - 1], q);
      if ops[|ops| - 1].p == q then rest + [ops[|ops| - 1]] else rest
  }

  ghost function ReplayOwn(view: View, ops: seq<Op>): View {
    if ops == [] then view else OwnEffect(ReplayOwn(view, ops[..|ops| - 1]), ops[|ops| - 1])
  }

  /** Process q does not exit in the run. */
  ghost predicate Lives(ops: seq<Op>, q: Ppn) {
    forall i {:trigger ops[i]} | 0 <= i < |ops| :: !(ops[i].Exit? && ops[i].p == q)
  }

  /** Isolation: what a process reads at its private pages depends on its own steps alone. */
  lemma {:induction false} Noninterference(states: seq<Simple>, ops: seq<Op>, q: Ppn)
    requires SimpleRun(states, ops) && SimpleOk(states[0]) && q in states[0].views && Lives(ops, q)
    ensures q in states[|ops|].views
    ensures OwnView(states[|ops|], q) == ReplayOwn(OwnView(states[0], q), OwnOps(ops, q))
    decreases |ops|
  {
    hide SimpleStep, SimpleOk, OwnEffect, OwnView;
    if ops != [] {
      var n := |ops| - 1;
      Shorter(states, ops, n);
      Noninterference(states[..n + 1], ops[..n], q);
      RunOk(states, ops, n);
      assert ops[n] == ops[n];
      if ops[n].p == q {
        OwnSelf(states[n], ops[n], states[n + 1]);
        var own := OwnOps(ops[..n], q);
        assert (own + [ops[n]])[..|own|] == own;
      } else {
        OwnOther(states[n], ops[n], states[n + 1], q);
      }
    }
  }

  lemma Shorter(states: seq<Simple>, ops: seq<Op>, n: nat)
    requires SimpleRun(states, ops) && n <= |ops|
    ensures SimpleRun(states[..n + 1], ops[..n])
  {
    hide SimpleStep;
    forall i | 0 <= i < n ensures SimpleStep(states[..n + 1][i], ops[..n][i], states[..n + 1][i + 1]) {
      assert ops[i] == ops[i];
    }
  }

  /** Nobody else stores into the memory that page u of process q is. */
  ghost predicate LeftAlone(states: seq<Simple>, ops: seq<Op>, q: Ppn, u: Vpn)
    requires |states| == |ops| + 1
  {
    forall i {:trigger ops[i]} | 0 <= i < |ops| :: ops[i].p != q && !WritesTo(ops[i], states[i + 1].kinds, q, u)
  }

  /**
   A process that does nothing reads the same bytes at every page, shared or private,
   as long as nobody stores into the memory it shares there.
   */
  lemma {:induction false} ReadsStay(states: seq<Simple>, ops: seq<Op>, q: Ppn, u: Vpn, n: nat)
    requires SimpleRun(states, ops) && SimpleOk(states[0]) && n <= |ops|
    requires q in states[0].views && u in states[0].views[q] && LeftAlone(states, ops, q, u)
    ensures q in states[n].views && u in states[n].views[q] && states[n].views[q][u] == states[0].views[q][u]
  {
    hide SimpleStep, SimpleOk, WritesTo;
    if n > 0 {
      ReadsStay(states, ops, q, u, n - 1);
      RunOk(states, ops, n - 1);
      assert ops[n - 1] == ops[n - 1];
      OthersKeep(states[n - 1], ops[n - 1], states[n], q, u);
    }
  }

  // ---- what stays shared after a fork ------------------------------------------------------------

  /** Exactly the shared pages that had been touched before the fork are common to parent and child after it. */
  lemma SharedAfterFork(s: Simple, op: Op, s': Simple, v: Vpn)
    requires SimpleOk(s) && op.Fork? && SimpleStep(s, op, s') && !Special(v)
    ensures Same(s'.kinds, op.p, v, op.child, v) <==> KindAt(s.kinds, op.p, v).Linked?
  {
  }

  /** The step maps or unmaps page v of p. */
  predicate Remaps(op: Op, p: Ppn, v: Vpn) {
    (op.MapAt? || op.UnmapAt?) && op.p == p && op.v == v
  }

  predicate Ends(op: Op, p: Ppn) {
    op.Exit? && op.p == p
  }

  /** A step leaves a page's kind alone, or touches it, unless it maps or unmaps it or ends its process. */
  lemma KindStep(s: Simple, op: Op, s': Simple, p: Ppn, v: Vpn)
    requires SimpleOk(s) && SimpleStep(s, op, s') && p in s.views && !Ends(op, p) && !Remaps(op, p, v)
    ensures p in s'.views
    ensures KindAt(s'.kinds, p, v) == KindAt(s.kinds, p, v) || Named(s.kinds, s'.kinds, p, v)
  {
    if op.p != p {
      hide SimpleStep, SimpleOk;
      StaysThere(s, op, s', p);
    } else {
      OwnKindStep(s, op, s', v);
    }
  }

  lemma OwnKindStep(s: Simple, op: Op, s': Simple, v: Vpn)
    requires SimpleOk(s) && SimpleStep(s, op, s') && op.p in s.views && !op.Exit? && !Remaps(op, op.p, v)
    ensures op.p in s'.views
    ensures KindAt(s'.kinds, op.p, v) == KindAt(s.kinds, op.p, v) || Named(s.kinds, s'.kinds, op.p, v)
  {
    hide Sized, ReadsAs, SetPage, PutBytes, PutAt, UserKinds, NewKind, Named;
    match op
    case Write(r, uptr, bytes) => PutBytesKeys(s.views, s'.kinds, r, uptr, bytes);
    case Store(r, w, off, b, done) => PutShape(s.views, s'.kinds, r, w, off, [b]);
    case _ =>
  }

  /** Which pages are one memory does not change under them. */
  lemma SameStep(s: Simple, op: Op, s': Simple, p: Ppn, v: Vpn, q: Ppn, u: Vpn)
    requires SimpleOk(s) && SimpleStep(s, op, s') && p in s.views && q in s.views && !(p == q && v == u)
    requires !Ends(op, p) && !Ends(op, q) && !Remaps(op, p, v) && !Remaps(op, q, u)
    ensures p in s'.views && q in s'.views && (Same(s'.kinds, p, v, q, u) <==> Same(s.kinds, p, v, q, u))
  {
    hide SimpleStep, SimpleOk;
    KindStep(s, op, s', p, v);
    KindStep(s, op, s', q, u);
  }

  /** No step maps or unmaps page v of p, or ends p. */
  ghost predicate Undisturbed(ops: seq<Op>, p: Ppn, v: Vpn) {
    forall i {:trigger ops[i]} | 0 <= i < |ops| :: !Ends(ops[i], p) && !Remaps(ops[i], p, v)
  }

  lemma {:induction false} SharingKept(states: seq<Simple>, ops: seq<Op>, k: nat, n: nat, p: Ppn, v: Vpn, q: Ppn, u: Vpn)
    requires SimpleRun(states, ops) && SimpleOk(states[0]) && k <= n <= |ops| && !(p == q && v == u)
    requires p in states[k].views && q in states[k].views && Undisturbed(ops[k..], p, v) && Undisturbed(ops[k..], q, u)
    ensures p in states[n].views && q in states[n].views
    ensures Same(states[n].kinds, p, v, q, u) <==> Same(states[k].kinds, p, v, q, u)
    decreases n
  {
    hide SimpleStep, SimpleOk, Same;
    if k < n {
      SharingKept(states, ops, k, n - 1, p, v, q, u);
      RunOk(states, ops, n - 1);
      assert ops[k..][n - 1 - k] == ops[n - 1];
      SameStep(states[n - 1], ops[n - 1], states[n], p, v, q, u);
    }
  }

  /**
   In every run after a fork, parent and child share a page they both keep exactly if
   it was shared and had been touched before the fork: one that was still lazy is
   filled separately for each.
   */
  lemma ForkSharing(states: seq<Simple>, ops: seq<Op>, k: nat, n: nat, v: Vpn)
    requires SimpleRun(states, ops) && SimpleOk(states[0]) && k < n <= |ops| && ops[k].Fork? && !Special(v)
    requires Undisturbed(ops[k + 1..], ops[k].p, v) && Undisturbed(ops[k + 1..], ops[k].child, v)
    ensures Same(states[n].kinds, ops[k].p, v, ops[k].child, v) <==> KindAt(states[k].kinds, ops[k].p, v).Linked?
  {
    hide SimpleOk, Same, Undisturbed;
    RunOk(states, ops, k);
    SharedAfterFork(states[k], ops[k], states[k + 1], v);
    SharingKept(states, ops, k + 1, n, ops[k].p, v, ops[k].child, v);
  }

  // ---- storing and reading back --------------------------------------------------------------------

  /** Bytes i and j of a range fall on one place. */
  ghost predicate Overlap(kinds: Kinds, p: Ppn, va: nat, i: nat, j: nat) {
    Same(kinds, p, VpnOf(va + i), p, VpnOf(va + j)) && (va + i) % PAGE_SIZE == (va + j) % PAGE_SIZE
  }

  ghost predicate Agreeing(kinds: Kinds, p: Ppn, va: nat, bytes: seq<Byte>) {
    forall i: nat, j: nat {:trigger Overlap(kinds, p, va, i, j)} | i < |bytes| && j < |bytes| && Overlap(kinds, p, va, i, j) ::
      bytes[i] == bytes[j]
  }

  /** Every address of the range lies in a user page. */
  ghost predicate Covered(view: View, va: nat, len: nat) {
    forall k: nat {:trigger AddressIn(view, va, k)} | k < len :: AddressIn(view, va, k)
  }

  ghost predicate AddressIn(view: View, va: nat, k: nat) {
    VpnOf(va + k) in view
  }

  /** Address k of the range reads as the last byte stored on its place. */
  lemma LastRead(views: Views, kinds: Kinds, p: Ppn, va: nat, bytes: seq<Byte>, read: seq<Byte>, i: nat) returns (j: nat)
    requires Sized(views) && p in views && |read| == |bytes| && i < |bytes| && AddressIn(views[p], va, i)
    requires p in PutBytes(views, kinds, p, va, bytes) && ReadsAs(PutBytes(views, kinds, p, va, bytes)[p], va, read)
    ensures j < |bytes| && read[i] == bytes[j] && LastHit(kinds, p, va, |bytes|, p, VpnOf(va + i), (va + i) % PAGE_SIZE, j)
  {
    hide VpnOf, PutBytes, LastHit;
    var u, o := VpnOf(va + i), (va + i) % PAGE_SIZE;
    var last := FindLast(kinds, p, va, |bytes|, p, u, o);
    HitsItself(kinds, p, va, |bytes|, i, last);
    j := last;
    LastWins(views, kinds, p, va, bytes, p, u, o, j);
    assert ByteIs(PutBytes(views, kinds, p, va, bytes)[p], va + i, read[i]);
  }

  lemma HitsItself(kinds: Kinds, p: Ppn, va: nat, len: nat, i: nat, j: int)
    requires i < len && LastHit(kinds, p, va, len, p, VpnOf(va + i), (va + i) % PAGE_SIZE, j)
    ensures i <= j < len && Overlap(kinds, p, va, i, j)
  {
    hide VpnOf;
    assert HitBy(kinds, p, va, i, p, VpnOf(va + i), (va + i) % PAGE_SIZE);
  }

  /** Two places that are one have the same last byte. */
  lemma SameLast(kinds: Kinds, p: Ppn, va: nat, len: nat, u: Vpn, u': Vpn, o: nat, j: nat, j': nat)
    requires Same(kinds, p, u, p, u') && LastHit(kinds, p, va, len, p, u, o, j) && LastHit(kinds, p, va, len, p, u', o, j')
    ensures j == j'
  {
    hide VpnOf;
    assert HitBy(kinds, p, va, j, p, u, o) && HitBy(kinds, p, va, j', p, u', o);
    assert HitBy(kinds, p, va, j, p, u', o) && HitBy(kinds, p, va, j', p, u, o);
  }

  lemma OverlapLast(kinds: Kinds, p: Ppn, va: nat, len: nat, i: nat, j: nat, x: nat, y: nat)
    requires Overlap(kinds, p, va, i, j)
    requires LastHit(kinds, p, va, len, p, VpnOf(va + i), (va + i) % PAGE_SIZE, x)
    requires LastHit(kinds, p, va, len, p, VpnOf(va + j), (va + j) % PAGE_SIZE, y)
    ensures x == y
  {
    hide VpnOf, LastHit;
    SameLast(kinds, p, va, len, VpnOf(va + i), VpnOf(va + j), (va + i) % PAGE_SIZE, x, y);
  }

  /** Reading a range back returns what was stored there if and only if bytes on one place agree. */
  lemma ReadBack(views: Views, kinds: Kinds, p: Ppn, va: nat, bytes: seq<Byte>, read: seq<Byte>)
    requires Sized(views) && p in views && |read| == |bytes| && Covered(views[p], va, |bytes|)
    requires p in PutBytes(views, kinds, p, va, bytes) && ReadsAs(PutBytes(views, kinds, p, va, bytes)[p], va, read)
    ensures read == bytes <==> Agreeing(kinds, p, va, bytes)
  {
    hide PutBytes, VpnOf, LastHit, Overlap, ReadsAs, AddressIn;
    if Agreeing(kinds, p, va, bytes) {
      forall i | 0 <= i < |bytes| ensures read[i] == bytes[i] {
        assert AddressIn(views[p], va, i);
        var j := LastRead(views, kinds, p, va, bytes, read, i);
        HitsItself(kinds, p, va, |bytes|, i, j);
      }
    }
    if read == bytes {
      forall i: nat, j: nat | i < |bytes| && j < |bytes| && Overlap(kinds, p, va, i, j) ensures bytes[i] == bytes[j] {
        assert AddressIn(views[p], va, i) && AddressIn(views[p], va, j);
        var x := LastRead(views, kinds, p, va, bytes, read, i);
        var y := LastRead(views, kinds, p, va, bytes, read, j);
        OverlapLast(kinds, p, va, |bytes|, i, j, x, y);
      }
    }
  }

  /** Touching pages does not make two addresses of a range overlap. */
  lemma OverlapKept(a: Kinds, p: Ppn, b: Kinds, va: nat, i: nat, j: nat)
    requires Touched(a, p, b)
    ensures Overlap(a, p, va, i, j) == Overlap(b, p, va, i, j)
  {
    hide VpnOf;
    var v, w := VpnOf(va + i), VpnOf(va + j);
    if KindAt(a, p, v) == Lazy {
      assert KindAt(b, p, v) == KindAt(a, p, v) || Named(a, b, p, v);
      if v != w { assert KindAt(b, p, w) != KindAt(b, p, v) || KindAt(b, p, v) == Lazy; }
    } else {
      SameKept(a, p, b, v, p, w);
    }
  }

  lemma AgreeingKept(a: Kinds, p: Ppn, b: Kinds, va: nat, bytes: seq<Byte>)
    requires Touched(a, p, b)
    ensures Agreeing(a, p, va, bytes) == Agreeing(b, p, va, bytes)
  {
    hide Overlap, Touched;
    forall i: nat, j: nat ensures Overlap(a, p, va, i, j) == Overlap(b, p, va, i, j) {
      OverlapKept(a, p, b, va, i, j);
    }
  }

  // ---- a write as one change of a range of addresses ------------------------------------------------

  function PatchPage(page: Page, base: nat, va: nat, bytes: seq<Byte>): (r: Page)
    ensures |r| == |page|
  {
    seq(|page|, o requires 0 <= o < |page| =>
      if va <= base + o < va + |bytes| then bytes[base + o - va] else page[o])
  }

  /** Which byte of a private page a stored byte falls on. */
  lemma OwnHit(kinds: Kinds, p: Ppn, va: nat, k: nat, u: Vpn, o: nat)
    requires KindAt(kinds, p, u) == Private && va + k < VA_LIMIT && o < PAGE_SIZE
    ensures HitBy(kinds, p, va, k, p, u, o) <==> va + k == VaOf(u) + o
  {
    VaOfVpnOf(va + k);
    VpnOfVaOf(u, o);
  }

  lemma OwnLast(kinds: Kinds, p: Ppn, va: nat, len: nat, u: Vpn, o: nat)
    requires KindAt(kinds, p, u) == Private && va + len <= VA_LIMIT && o < PAGE_SIZE
    ensures LastHit(kinds, p, va, len, p, u, o, if va <= VaOf(u) + o < va + len then VaOf(u) + o - va else -1)
  {
    hide HitBy, VaOf;
    forall k: nat | k < len ensures HitBy(kinds, p, va, k, p, u, o) <==> va + k == VaOf(u) + o {
      OwnHit(kinds, p, va, k, u, o);
    }
  }

  /** In a private page a write replaces exactly the bytes whose addresses lie in its range. */
  lemma WriteIsPatch(views: Views, kinds: Kinds, p: Ppn, va: nat, bytes: seq<Byte>, u: Vpn)
    requires Sized(views) && p in views && u in views[p] && KindAt(kinds, p, u) == Private && va + |bytes| <= VA_LIMIT
    ensures var views' := PutBytes(views, kinds, p, va, bytes);
            p in views' && u in views'[p] && views'[p][u] == PatchPage(views[p][u], VaOf(u), va, bytes)
  {
    hide PutBytes, HitBy, VaOf, LastHit;
    var views' := PutBytes(views, kinds, p, va, bytes);
    PutBytesKeys(views, kinds, p, va, bytes);
    PutBytesSized(views, kinds, p, va, bytes);
    assert |views[p][u]| == |views'[p][u]| == PAGE_SIZE;
    forall o | 0 <= o < PAGE_SIZE ensures views'[p][u][o] == PatchPage(views[p][u], VaOf(u), va, bytes)[o] {
      OwnLast(kinds, p, va, |bytes|, u, o);
      LastWins(views, kinds, p, va, bytes, p, u, o, if va <= VaOf(u) + o < va + |bytes| then VaOf(u) + o - va else -1);
    }
  }
}
