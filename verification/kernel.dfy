/**
 The physical page allocator (kern/mm/pmm.c), the page tables (kern/mm/vmm.c),
 page faults (kern/trap/trap_pgfault.c), copies to user memory
 (kern/lib/transfer.c) and duppage (kern/proc/fork.c) as they run: one object
 whose fields they update.  M is the value the theorems are about.
 */
module KernelMemory {
  import opened Panics
  import opened Words
  import opened Sv39
  import opened PageTables
  import opened VmState
  import opened Boot
  import opened SimpleSystem
  import opened CopyOnWrite
  import opened Transfer
  import opened Fork
  import opened TableWalk
  import opened ForkWalk
  import opened ForkSupply
  import opened Recycle
  import opened FixedPages

  class Kernel {
    const ad: bool

    var ref: map<Ppn, nat>
    var free: seq<Ppn>
    var pageleft: int
    var tab: Tables
    var data: map<Ppn, Page>

    /** How often kvmlock has been taken and not released. */
    var kvmDepth: int

    ghost var boot: set<Ppn>
    ghost var owner: Owners
    ghost var hold: map<Ppn, nat>
    ghost var pending: set<Ppn>
    ghost var dead: set<Slot>

    ghost function M(): Mem
      reads this
    {
      Mem(ad, boot, ref, free, tab, data, owner, hold, pending, dead)
    }

    /**
     pmInit's second part: the frames below used belong to the kernel, the others
     go to the free list one by one, each at its head.
     */
    constructor PmInit(ad: bool, base: Ppn, used: nat, npage: nat)
      requires base > 0 && used <= npage
      ensures M() == Booted(ad, base, used, npage) && UserOk(M()) && Counted() && kvmDepth == 0
    {
      hide FirstCounts;
      this.ad := ad;
      kvmDepth := 0;
      tab, owner, pending, dead := map[], map[], {}, {};
      boot := Range(base, used);
      var r := FirstCounts(base, npage, base);
      var i := 0;
      while i < used
        invariant 0 <= i <= used && r == FirstCounts(base, npage, base + i)
      {
        CountMore(base, npage, i);
        r := r[base + i := 1];
        i := i + 1;
      }
      var list: seq<Ppn> := [];
      while i < npage
        invariant used <= i <= npage && list == Downward(base + used, i - used)
      {
        list := [base + i] + list;
        i := i + 1;
      }
      ref, hold, free, pageleft := r, r, list, npage - used;
      data := map f: Ppn | f in Range(base, npage) :: ZeroPage();
      BootedOk(ad, base, used, npage);
    }

    /** pageleft counts the free list. */
    ghost predicate Counted()
      reads this
    {
      pageleft == |free|
    }

    // ---- kern/mm/pmm.c --------------------------------------------------------------

    method PmAlloc() returns (ok: bool, n: Ppn)
      requires Counted()
      modifies this
      ensures ok <==> old(free) != []
      ensures ok ==> n == old(free)[0] && M() == Alloc(old(M()))
      ensures Counted() && kvmDepth == old(kvmDepth)
    {
      if |free| == 0 { return false, 0; }
      n := free[0];
      free := free[1..];
      pageleft := pageleft - 1;
      data := data[n := ZeroPage()];
      pending := pending + {n};
      ok := true;
    }

    method PmPageIncRef(n: Ppn)
      requires n in ref
      modifies this`ref
      ensures ref == old(ref)[n := old(ref)[n] + 1]
    {
      ref := ref[n := ref[n] + 1];
    }

    method PmPageDecRef(n: Ppn)
      requires n in ref && ref[n] > 0 && Counted()
      modifies this`ref, this`free, this`pageleft
      ensures ref == old(ref)[n := old(ref)[n] - 1]
      ensures free == if old(ref)[n] == 1 then [n] + old(free) else old(free)
      ensures Counted()
    {
      ref := ref[n := ref[n] - 1];
      if ref[n] == 0 {
        free := [n] + free;
        pageleft := pageleft + 1;
      }
    }

    // ---- kern/mm/vmm.c --------------------------------------------------------------

    method PtModify(t: Ppn, i: Idx, value: Pte)
      requires Writable(M(), t, i) && Counted()
      requires value.v ==> value.ppn in ref
      requires !Ent(tab, t, i).v ==> Ent(tab, t, i).ppn == 0
      requires if value.v then value.ppn != 0 else value.ppn == 0
      requires Ent(tab, t, i).v ==> Ent(tab, t, i).ppn != 0
      modifies this`ref, this`free, this`pageleft, this`tab, this`pending
      ensures M() == SetPte(old(M()), t, i, value) && Counted()
    {
      ghost var m := M();
      var cur := Ent(tab, t, i);
      if cur.ppn == value.ppn {
        tab := SetEnt(tab, t, i, value);
      } else {
        if cur.v { PmPageDecRef(cur.ppn); }
        tab := SetEnt(tab, t, i, value);
        if value.v { PmPageIncRef(value.ppn); }
      }
      pending := PendingAfter(pending, value);
      RefMoveSteps(m.ref, cur, value);
    }

    method PtClear(t: Ppn, i: Idx)
      requires Writable(M(), t, i) && Counted()
      modifies this`ref, this`free, this`pageleft, this`tab
      ensures M() == SetPte(old(M()), t, i, ZERO_PTE) && Counted()
    {
      ghost var m := M();
      var cur := Ent(tab, t, i);
      if cur.v { PmPageDecRef(cur.ppn); }
      tab := SetEnt(tab, t, i, ZERO_PTE);
      RefMoveSteps(m.ref, cur, ZERO_PTE);
    }

    /** A zeroed frame becomes the table below entry i of t. */
    method AddTable(t: Ppn, i: Idx) returns (ok: bool, n: Ppn)
      requires Whole(M()) && t in owner && !owner[t].Low? && Counted() && !Ent(tab, t, i).v
      modifies this
      ensures Counted() && kvmDepth == old(kvmDepth)
      ensures ok <==> old(free) != []
      ensures ok ==> n == old(free)[0] && M() == Hang(old(M()), t, i)
    {
      ghost var m := M();
      ok, n := PmAlloc();
      if !ok { return; }
      TableRoom(m, t, i, n);
      tab := tab[n := ZeroTable()];
      owner := owner[n := ChildNode(owner, t, i)];
      PtModify(t, i, Pte(true, n, NO_PERM));
    }

    /** The body of ptWalk's loop: one level down, making the table if asked to. */
    method NextLevel(t: Ppn, i: Idx, create: bool) returns (ok: bool, found: bool, next: Ppn)
      requires create ==> Whole(M()) && t in owner && !owner[t].Low?
      requires Counted()
      modifies this
      ensures Counted() && kvmDepth == old(kvmDepth)
      ensures Level(old(M()), t, i, create, M(), ok, found, next)
    {
      if Ent(tab, t, i).v {
        return true, true, Ent(tab, t, i).ppn;
      } else if create {
        ghost var m := M();
        ok, next := AddTable(t, i);
        found := ok;
        if ok { HungEntry(m, t, i, M()); }
      } else {
        return true, false, 0;
      }
    }

    method PtWalk(pd: Ppn, v: Vpn, create: bool) returns (ok: bool, found: bool, t: Ppn)
      requires create ==> Whole(M()) && IsRoot(owner, pd)
      requires Counted()
      modifies this
      ensures Counted() && kvmDepth == old(kvmDepth)
      ensures !create ==> ok && M() == old(M())
      ensures create ==> WalkCreate(old(M()), pd, v) == if ok then Ok(M()) else Panic
      ensures create && ok ==> found
      ensures ok ==> found == HasPath(tab, pd, v) && (found ==> t == LowOf(tab, pd, v))
    {
      ghost var m := M();
      t := pd;
      var level := 1;
      while level < 3
        invariant 1 <= level <= 3 && Counted() && kvmDepth == old(kvmDepth)
        invariant Walking(m, pd, v, create, level, M(), t)
        invariant create && level < 3 ==> t in owner && !owner[t].Low?
      {
        ghost var here, above := M(), t;
        ok, found, t := NextLevel(t, if level == 1 then v.i else v.j, create);
        WalkingOn(m, pd, v, create, level, here, above, M(), ok, found, t);
        if !ok || !found { return; }
        level := level + 1;
      }
      ok, found := true, true;
    }

    /** ptLookup: the entry of page v, or zero where a level is missing. */
    method PtLookup(pd: Ppn, v: Vpn) returns (p: Pte)
      requires Counted()
      modifies this
      ensures M() == old(M()) && Counted() && kvmDepth == old(kvmDepth)
      ensures p == Lookup(tab, pd, v)
    {
      kvmDepth := kvmDepth + 1;
      var ok, found, t := PtWalk(pd, v, false);
      kvmDepth := kvmDepth - 1;
      return if found then Ent(tab, t, v.k) else ZERO_PTE;
    }

    /** ptMap's two walks: look first, make the missing tables only then. */
    method PtPath(pd: Ppn, v: Vpn) returns (ok: bool, t: Ppn)
      requires Whole(M()) && IsRoot(owner, pd) && Counted()
      modifies this
      ensures MakePath(old(M()), pd, v) == if ok then Ok(M()) else Panic
      ensures ok ==> Counted() && kvmDepth == old(kvmDepth) && t == LowOf(tab, pd, v)
    {
      var found;
      ok, found, t := PtWalk(pd, v, false);
      if !found {
        ok, found, t := PtWalk(pd, v, true);
      }
    }

    /** ptMap */
    method PtMap(pd: Ppn, v: Vpn, ppn: Ppn, perm: Perm) returns (ok: bool)
      requires Whole(M()) && IsRoot(owner, pd) && Counted() && Mappable(M(), ppn)
      modifies this
      ensures Map(old(M()), pd, v, ppn, perm) == if ok then Ok(M()) else Panic
      ensures ok ==> Counted() && kvmDepth == old(kvmDepth)
    {
      ghost var m := M();
      kvmDepth := kvmDepth + 1;
      var t;
      ok, t := PtPath(pd, v);
      if !ok { return; }
      MapRoom(m, pd, v, ppn, M());
      if Ent(tab, t, v.k).v {
        if ppn == 0 { return false; }
        PtModify(t, v.k, Pte(true, ppn, Machine(ad, perm)));
      } else if ppn == 0 {
        if !perm.u { return false; }
        PtModify(t, v.k, Pte(false, 0, perm));
      } else {
        PtModify(t, v.k, Pte(true, ppn, Machine(ad, perm)));
      }
      kvmDepth := kvmDepth - 1;
      ok := true;
    }

    /**
     ptUnmap.  Where the tables exist but the entry is zero the call returns with
     kvmlock still held; where a table is missing it reads through a null pointer.
     */
    method PtUnmap(pd: Ppn, v: Vpn) returns (ok: bool, mapped: bool)
      requires Inv(M()) && IsRoot(owner, pd) && Counted()
      modifies this
      ensures Unmap(old(M()), pd, v) == if ok then Ok(M()) else Panic
      ensures ok ==> Counted() && mapped == (Lookup(old(tab), pd, v) != ZERO_PTE)
      ensures ok ==> kvmDepth == old(kvmDepth) + if mapped then 0 else 1
    {
      ghost var m := M();
      kvmDepth := kvmDepth + 1;
      var found, t;
      ok, found, t := PtWalk(pd, v, false);
      if !found { return false, false; }
      if Ent(tab, t, v.k) == ZERO_PTE { return true, false; }
      ClearRoom(m, pd, v);
      PtClear(t, v.k);
      kvmDepth := kvmDepth - 1;
      return true, true;
    }

    method VmAlloc() returns (ok: bool, n: Ppn)
      requires Counted()
      modifies this
      ensures ok <==> old(free) != []
      ensures ok ==> n == old(free)[0] && M() == Alloc(old(M())) && kvmDepth == old(kvmDepth)
      ensures Counted()
    {
      kvmDepth := kvmDepth + 1;
      ok, n := PmAlloc();
      if !ok { return; }
      kvmDepth := kvmDepth - 1;
    }

    // ---- kern/trap/trap_pgfault.c ------------------------------------------------------

    method CowFault(pd: Ppn, v: Vpn, p: Pte) returns (ok: bool)
      requires UserOk(M()) && IsRoot(owner, pd) && Counted() && p == Lookup(tab, pd, v) && p.v
      modifies this
      ensures CowHandler(old(M()), pd, v) == if ok then Ok(M()) else Panic
      ensures ok ==> Counted() && kvmDepth == old(kvmDepth)
    {
      ghost var m := M();
      var n;
      ok, n := VmAlloc();
      if !ok { return; }
      CopySource(m, pd, v);
      data := data[n := data[p.ppn]];
      FilledOk(m, data[n]);
      ok := PtMap(pd, v, n, p.perm.(cow := false, w := true));
    }

    method PassiveFault(pd: Ppn, v: Vpn, p: Pte) returns (ok: bool)
      requires UserOk(M()) && IsRoot(owner, pd) && Counted() && p == Lookup(tab, pd, v)
      modifies this
      ensures PassiveHandler(old(M()), pd, v) == if ok then Ok(M()) else Panic
      ensures ok ==> Counted() && kvmDepth == old(kvmDepth)
    {
      ghost var m := M();
      var n;
      ok, n := VmAlloc();
      if !ok { return; }
      FilledOk(m, ZeroPage());
      FilledZero(m);
      ok := PtMap(pd, v, n, p.perm);
    }

    /** page_fault_handler: again says whether the access may be tried again. */
    method PageFault(pd: Ppn, write: bool, v: Vpn) returns (ok: bool, again: bool)
      requires UserOk(M()) && IsRoot(owner, pd) && Counted()
      modifies this
      ensures FaultHandler(old(M()), pd, write, v) == if ok then Ok((M(), again)) else Panic
      ensures ok ==> Counted() && kvmDepth == old(kvmDepth)
    {
      var p := PtLookup(pd, v);
      if write && p != ZERO_PTE && p.perm.u && !p.perm.w && p.perm.cow {
        assert UserEntry(boot, v, p);
        ok := CowFault(pd, v, p);
        again := true;
      } else if Passive(p) {
        ok := PassiveFault(pd, v, p);
        again := true;
      } else {
        ok, again := true, false;
      }
    }

    // ---- kern/lib/transfer.c -----------------------------------------------------------

    /** test_page_fault, with the entry the caller has just looked up. */
    method TestPageFault(pd: Ppn, v: Vpn, p: Pte, write: bool) returns (ok: bool)
      requires UserOk(M()) && IsRoot(owner, pd) && Counted() && p == Lookup(tab, pd, v)
      modifies this
      ensures TestFault(old(M()), pd, v, write) == if ok then Ok(M()) else Panic
      ensures ok ==> Counted() && kvmDepth == old(kvmDepth)
    {
      hide FaultHandler, UserOk, AllViews, AllKinds, Lookup, Touched;
      ghost var m := M();
      ok := true;
      if !p.v {
        var again;
        ok, again := PageFault(pd, write, v);
        if !ok { return; }
        FaultKeepsViews(m, pd, write, v, M(), again);
        RootIs(m, pd);
        RootIs(M(), pd);
      }
      if (write && !p.perm.w) || (!write && !p.perm.r) {
        var again;
        ok, again := PageFault(pd, write, v);
        ok := ok && again;
      }
    }

    /** The start of one round of userToKernel: the page test, and the panic where there is no frame. */
    method PreparePage(pd: Ppn, v: Vpn, write: bool) returns (ok: bool)
      requires UserOk(M()) && IsRoot(owner, pd) && Counted()
      modifies this
      ensures Prepare(old(M()), pd, v, write) == if ok then Ok(M()) else Panic
      ensures ok ==> Counted() && kvmDepth == old(kvmDepth)
    {
      hide TestFault, Lookup, UserOk;
      var p := PtLookup(pd, v);
      ok := TestPageFault(pd, v, p, write);
      if !ok { return; }
      p := PtLookup(pd, v);
      ok := p.ppn != 0;
    }

    /** copyOutCallback: the bytes that fall into the page of uptr. */
    method CopyChunk(pd: Ppn, uptr: nat, bytes: seq<Byte>)
      requires UserOk(M()) && IsRoot(owner, pd) && Counted()
      requires uptr % PAGE_SIZE + |bytes| <= PAGE_SIZE && Lookup(tab, pd, VpnOf(uptr)).v
      modifies this
      ensures M() == PutChunk(old(M()), pd, uptr, bytes) && Counted() && kvmDepth == old(kvmDepth)
    {
      var p := PtLookup(pd, VpnOf(uptr));
      InUse(M(), pd, VpnOf(uptr));
      PageLength(M(), pd, VpnOf(uptr));
      data := data[p.ppn := Patch(data[p.ppn], uptr % PAGE_SIZE, bytes)];
    }

    /** One round of userToKernel's loop for copy_out: n bytes are done. */
    method CopyRound(pd: Ppn, va: nat, rest: seq<Byte>) returns (ok: bool, n: nat)
      requires UserOk(M()) && IsRoot(owner, pd) && Counted() && |rest| > 0
      modifies this
      ensures !ok ==> CopyOut(old(M()), pd, va, rest) == Panic
      ensures ok ==> Counted() && kvmDepth == old(kvmDepth) && UserOk(M()) && IsRoot(owner, pd)
      ensures ok ==> 0 < n <= |rest| && CopyOut(old(M()), pd, va, rest) == CopyOut(M(), pd, va + n, rest[n..])
    {
      hide Prepare, PutChunk, UserOk, VpnOf, Touched, AllViews, AllKinds, Lookup;
      ghost var m := M();
      ok := PreparePage(pd, VpnOf(va), true);
      if !ok { return false, 0; }
      ghost var m1 := M();
      PrepareOk(m, pd, VpnOf(va), true, m1);
      n := Chunk(va, |rest|);
      CopyChunk(pd, va, rest[..n]);
      ghost var first := rest[..n];
      PutChunkViews(m1, pd, va, first, M());
    }

    /** copy_out */
    method CopyOutTo(pd: Ppn, uptr: nat, bytes: seq<Byte>) returns (ok: bool)
      requires UserOk(M()) && IsRoot(owner, pd) && Counted()
      modifies this
      ensures CopyOut(old(M()), pd, uptr, bytes) == if ok then Ok(M()) else Panic
      ensures ok ==> Counted() && kvmDepth == old(kvmDepth)
    {
      hide Prepare, UserOk, PutChunk, VpnOf;
      ghost var all := CopyOut(M(), pd, uptr, bytes);
      var i, rest := 0, bytes;
      while i < |bytes|
        invariant 0 <= i <= |bytes| && |rest| == |bytes| - i && Counted() && kvmDepth == old(kvmDepth)
        invariant UserOk(M()) && IsRoot(owner, pd)
        invariant all == CopyOut(M(), pd, uptr + i, rest)
      {
        var n;
        ok, n := CopyRound(pd, uptr + i, rest);
        if !ok { return; }
        i, rest := i + n, rest[n..];
      }
      ok := true;
    }

    /** copyInCallback: the bytes that the page of uptr has there. */
    method FetchChunk(pd: Ppn, uptr: nat, n: nat) returns (bytes: seq<Byte>)
      requires UserOk(M()) && IsRoot(owner, pd) && Counted()
      requires uptr % PAGE_SIZE + n <= PAGE_SIZE && Lookup(tab, pd, VpnOf(uptr)).v
      modifies this
      ensures M() == old(M()) && Counted() && kvmDepth == old(kvmDepth)
      ensures |bytes| == n && bytes == GetChunk(M(), pd, uptr, n)
    {
      var p := PtLookup(pd, VpnOf(uptr));
      InUse(M(), pd, VpnOf(uptr));
      PageLength(M(), pd, VpnOf(uptr));
      bytes := data[p.ppn][uptr % PAGE_SIZE..uptr % PAGE_SIZE + n];
    }

    /** One round of userToKernel's loop for copy_in. */
    method FetchRound(pd: Ppn, va: nat, left: nat) returns (ok: bool, part: seq<Byte>)
      requires UserOk(M()) && IsRoot(owner, pd) && Counted() && left > 0
      modifies this
      ensures !ok ==> CopyIn(old(M()), pd, va, left) == Panic
      ensures ok ==> Counted() && kvmDepth == old(kvmDepth) && UserOk(M()) && IsRoot(owner, pd)
      ensures ok ==> 0 < |part| <= left
      ensures ok ==> CopyIn(old(M()), pd, va, left) == Joined(part, CopyIn(M(), pd, va + |part|, left - |part|))
    {
      hide Prepare, GetChunk, UserOk, VpnOf, Touched, AllViews, AllKinds, Lookup;
      ghost var m := M();
      ok := PreparePage(pd, VpnOf(va), false);
      if !ok { return false, []; }
      PrepareOk(m, pd, VpnOf(va), false, M());
      part := FetchChunk(pd, va, Chunk(va, left));
    }

    /** copy_in */
    method CopyInFrom(pd: Ppn, uptr: nat, n: nat) returns (ok: bool, bytes: seq<Byte>)
      requires UserOk(M()) && IsRoot(owner, pd) && Counted()
      modifies this
      ensures CopyIn(old(M()), pd, uptr, n) == if ok then Ok((M(), bytes)) else Panic
      ensures ok ==> Counted() && kvmDepth == old(kvmDepth)
    {
      hide UserOk, CopyIn, Joined;
      ghost var all := CopyIn(M(), pd, uptr, n);
      bytes := [];
      JoinedNothing(all);
      while |bytes| < n
        invariant |bytes| <= n && Counted() && kvmDepth == old(kvmDepth)
        invariant UserOk(M()) && IsRoot(owner, pd)
        invariant all == Joined(bytes, CopyIn(M(), pd, uptr + |bytes|, n - |bytes|))
        decreases n - |bytes|
      {
        var part;
        ghost var done := bytes;
        ok, part := FetchRound(pd, uptr + |bytes|, n - |bytes|);
        if !ok {
          JoinedPanic(done);
          return;
        }
        JoinedTwice(done, part, CopyIn(M(), pd, uptr + |done| + |part|, n - |done| - |part|));
        bytes := bytes + part;
      }
      JoinedAll(M(), pd, uptr + |bytes|, bytes);
      ok := true;
    }

    // ---- kern/proc/fork.c --------------------------------------------------------------

    method DupPage(p: Ppn, c: Ppn, v: Vpn) returns (ok: bool)
      requires Whole(M()) && IsRoot(owner, p) && IsRoot(owner, c) && p != c && Counted()
      modifies this
      ensures Dup(old(M()), p, c, v) == if ok then Ok(M()) else Panic
      ensures ok ==> Counted() && kvmDepth == old(kvmDepth)
    {
      hide Map, Whole;
      ghost var m := M();
      ok := true;
      var there := PtLookup(c, v);
      if there == ZERO_PTE {
        var e := PtLookup(p, v);
        ShareFrame(m, p, v);
        if Passive(e) {
          ok := PtMap(c, v, 0, e.perm);
        } else if e.perm.w && e.perm.u && !e.perm.shared {
          ok := PtMap(c, v, e.ppn, CowPerm(e.perm));
          if !ok { return; }
          StillMappable(m, p, c, v, e, M());
          ok := PtMap(p, v, e.ppn, CowPerm(e.perm));
        } else if e.perm.u {
          ok := PtMap(c, v, e.ppn, e.perm);
        } else {
          ok := false;
        }
      }
    }

    /** One round of pdWalk's innermost loop: duppage where the entry is not zero. */
    method DupEntry(ghost m0: Mem, p: Ppn, c: Ppn, t: Ppn, v: Vpn) returns (ok: bool)
      requires Forkable(m0, p, c) && Progress(m0, M(), p, c, Num(v)) && Counted()
      requires HasPath(tab, p, v) && t == LowOf(tab, p, v)
      modifies this
      ensures (if Ent(old(tab), t, v.k) == ZERO_PTE then Ok(old(M())) else Dup(old(M()), p, c, v)) == if ok then Ok(M()) else Panic
      ensures ok ==> Counted() && kvmDepth == old(kvmDepth) && Progress(m0, M(), p, c, Num(v) + 1)
      ensures ok ==> HasPath(tab, p, v) && t == LowOf(tab, p, v) && SamePath(old(M()), M(), p, v)
    {
      hide Dup, Progress, Forkable, Whole;
      ghost var m := M();
      ok := true;
      if Ent(tab, t, v.k) != ZERO_PTE {
        DupReady(m0, m, p, c, v);
        ok := DupPage(p, c, v);
      }
      if ok { DupAtPage(m0, p, c, m, v, M()); }
    }

    /** pdWalk with duppage, innermost loop. */
    method DupLeaves(ghost m0: Mem, p: Ppn, c: Ppn, t: Ppn, i: Idx, j: Idx) returns (ok: bool)
      requires Forkable(m0, p, c) && Progress(m0, M(), p, c, Place(i, j, 0)) && Counted()
      requires HasPath(tab, p, Vpn(i, j, 0)) && t == LowOf(tab, p, Vpn(i, j, 0))
      modifies this
      ensures WalkLow(DupCall(p, c), old(M()), t, i, j, 0) == if ok then Ok(M()) else Panic
      ensures ok ==> Counted() && kvmDepth == old(kvmDepth)
      ensures ok ==> Progress(m0, M(), p, c, Place(i, j + 1, 0)) && SamePath(old(M()), M(), p, Vpn(i, j, 0))
    {
      hide Dup, Progress, Forkable, WalkLow, DupCall, Place;
      ghost var cb, m, all := DupCall(p, c), M(), WalkLow(DupCall(p, c), M(), t, i, j, 0);
      var k := 0;
      while k < 512
        invariant 0 <= k <= 512 && Counted() && kvmDepth == old(kvmDepth)
        invariant Progress(m0, M(), p, c, Place(i, j, k)) && SamePath(m, M(), p, Vpn(i, j, 0))
        invariant all == WalkLow(cb, M(), t, i, j, k)
      {
        ghost var here := M();
        ok := DupEntry(m0, p, c, t, Vpn(i, j, k));
        DupLowNext(p, c, here, t, i, j, k, M(), ok);
        if !ok { return; }
        PlaceNext(i, j, k);
        k := k + 1;
      }
      PlaceNext(i, j, 0);
      WalkLowEnd(cb, M(), t, i, j);
      ok := true;
    }

    /** pdWalk with duppage, middle loop. */
    method DupTables(ghost m0: Mem, p: Ppn, c: Ppn, t: Ppn, i: Idx) returns (ok: bool)
      requires Forkable(m0, p, c) && Progress(m0, M(), p, c, Place(i, 0, 0)) && Counted()
      requires Ent(tab, p, i).v && t == Ent(tab, p, i).ppn
      modifies this
      ensures WalkMid(DupCall(p, c), NoTable(), old(M()), t, i, 0) == if ok then Ok(M()) else Panic
      ensures ok ==> Counted() && kvmDepth == old(kvmDepth) && Progress(m0, M(), p, c, Place(i + 1, 0, 0))
    {
      hide Dup, Progress, Forkable, WalkMid, WalkLow, DupCall, Place;
      ghost var cb, all := DupCall(p, c), WalkMid(DupCall(p, c), NoTable(), M(), t, i, 0);
      var j := 0;
      while j < 512
        invariant 0 <= j <= 512 && Counted() && kvmDepth == old(kvmDepth)
        invariant Progress(m0, M(), p, c, Place(i, j, 0)) && Ent(tab, p, i).v && t == Ent(tab, p, i).ppn
        invariant all == WalkMid(cb, NoTable(), M(), t, i, j)
      {
        ghost var here := M();
        ok := true;
        if Ent(tab, t, j).v {
          ok := DupLeaves(m0, p, c, Ent(tab, t, j).ppn, i, j);
        } else {
          DupLowMissing(m0, here, p, c, i, j);
        }
        WalkMidNext(cb, here, t, i, j, M(), ok);
        if !ok { return; }
        j := j + 1;
      }
      PlaceNext(i, 0, 0);
      WalkEnds(cb, M(), t, i);
      ok := true;
    }

    /** pdWalk with duppage as its callback, as proc_fork calls it. */
    method DupSpace(p: Ppn, c: Ppn) returns (ok: bool)
      requires Forkable(M(), p, c) && Counted()
      modifies this
      ensures PdWalk(DupCall(p, c), NoTable(), old(M()), p) == if ok then Ok(M()) else Panic
      ensures ok ==> Counted() && kvmDepth == old(kvmDepth)
    {
      hide Dup, Progress, WalkRoot, WalkMid, DupCall, Place;
      ghost var m, cb, all := M(), DupCall(p, c), WalkRoot(DupCall(p, c), NoTable(), M(), p, 0);
      PlaceEnds();
      ProgressStart(m, p, c);
      var i := 0;
      while i < 512
        invariant 0 <= i <= 512 && Counted() && kvmDepth == old(kvmDepth)
        invariant Progress(m, M(), p, c, Place(i, 0, 0))
        invariant all == WalkRoot(cb, NoTable(), M(), p, i)
      {
        ghost var here := M();
        ok := true;
        if Ent(tab, p, i).v {
          ok := DupTables(m, p, c, Ent(tab, p, i).ppn, i);
        } else {
          DupMidMissing(m, here, p, c, i);
        }
        WalkRootNext(cb, here, p, i, M(), ok);
        if !ok { return; }
        i := i + 1;
      }
      WalkEnds(cb, M(), p, 0);
      ok := true;
    }

    // ---- kern/proc/procinit.c: proc_initupt -------------------------------------------------

    /** kvmAlloc of a directory. */
    method NewDirectory() returns (ok: bool, c: Ppn)
      requires Counted() && (free != [] ==> free[0] in ref && free[0] in hold)
      modifies this
      ensures ok <==> old(free) != []
      ensures ok ==> c == old(free)[0] && M() == NewRoot(old(M())) && Counted() && kvmDepth == old(kvmDepth)
    {
      kvmDepth := kvmDepth + 1;
      ok, c := PmAlloc();
      if !ok { return; }
      PmPageIncRef(c);
      kvmDepth := kvmDepth - 1;
      tab := tab[c := ZeroTable()];
      owner, hold, pending := owner[c := Root], hold[c := hold[c] + 1], pending - {c};
    }

    method InitUserPt(tramp: Ppn, sig: Ppn) returns (ok: bool, c: Ppn)
      requires UserOk(M()) && BootFrame(M(), tramp) && BootFrame(M(), sig) && Counted()
      modifies this
      ensures InitUpt(old(M()), tramp, sig) == if ok then Ok((M(), c)) else Panic
      ensures ok ==> Counted() && kvmDepth == old(kvmDepth) && Fixed(M(), c, tramp, sig, ad)
    {
      hide Map, NewRoot, Whole, CowOk, UserPages, BootHeld, AllViews, Mappable, Fixed, PageAt;
      ghost var m := M();
      HeadKnown(m);
      ok, c := NewDirectory();
      if !ok { return; }
      NewRootBorn(m, M());
      BootMappable(M(), tramp);
      ghost var m1 := M();
      ok := PtMap(c, V_TRAMPOLINE, tramp, PERM_TRAMPOLINE);
      if !ok { return; }
      ghost var m2 := M();
      MapBoot(m1, c, V_TRAMPOLINE, tramp, PERM_TRAMPOLINE, m2);
      BornStep(m, m1, m2, c, V_TRAMPOLINE);
      BootMappable(m2, sig);
      ok := PtMap(c, V_SIGNAL, sig, PERM_SIGNAL);
      if !ok { return; }
      ghost var m3 := M();
      MapBoot(m2, c, V_SIGNAL, sig, PERM_SIGNAL, m3);
      BornStep(m, m2, m3, c, V_SIGNAL);
      var n;
      ok, n := VmAlloc();
      if !ok { return; }
      FilledOk(m3, ZeroPage());
      FilledZero(m3);
      ok := PtMap(c, V_TRAPFRAME, n, PERM_TRAPFRAME);
      if ok { InitUptFixed(m, tramp, sig, M(), c); }
    }

    /** The memory part of proc_alloc and proc_fork. */
    method ForkPt(p: Ppn, tramp: Ppn, sig: Ppn) returns (ok: bool, c: Ppn)
      requires UserOk(M()) && IsRoot(owner, p) && BootFrame(M(), tramp) && BootFrame(M(), sig) && Counted()
      modifies this
      ensures ForkSpace(old(M()), p, tramp, sig) == if ok then Ok((M(), c)) else Panic
      ensures ok ==> Counted() && kvmDepth == old(kvmDepth)
      ensures ok <==> ForkCost(old(tab), p) <= |old(free)|
      ensures ok ==> |free| == |old(free)| - ForkCost(old(tab), p)
    {
      hide InitUpt, PdWalk, Whole, CowOk, UserPages, BootHeld, AllViews, ForkCost;
      ghost var m := M();
      ForkNeeds(m, p, tramp, sig);
      ok, c := InitUserPt(tramp, sig);
      if !ok { return; }
      InitUptForkable(m, p, tramp, sig, M(), c);
      ok := DupSpace(p, c);
    }

    // ---- kern/proc/procinit.c: proc_recycleupt -------------------------------------------

    /** kvmUnmapper */
    method FreeTable(t: Ppn)
      requires Inv(M()) && t in owner && Counted()
      modifies this
      ensures FreeCall()(old(M()), t) == Ok(M()) && Counted() && kvmDepth == old(kvmDepth)
    {
      hide TreeOk, Base, TablesHeld;
      ghost var m := M();
      TableCount(m, t);
      kvmDepth := kvmDepth + 1;
      PmPageDecRef(t);
      kvmDepth := kvmDepth - 1;
      tab := tab - {t};
      owner, hold, dead := owner - {t}, HoldAfter(m, t), DeadAfter(m, t);
    }

    /** pdWalk with vmUnmapper and kvmUnmapper, innermost loop: no call finds its page unmapped. */
    method ClearLeaves(ghost m0: Mem, pd: Ppn, t: Ppn, i: Idx, j: Idx)
      requires Whole(m0) && IsRoot(m0.owner, pd) && Clearing(m0, M(), pd, i, j, 0) && Counted()
      requires HasPath(tab, pd, Vpn(i, j, 0)) && t == LowOf(tab, pd, Vpn(i, j, 0))
      modifies this
      ensures WalkLow(UnmapCall(pd), old(M()), t, i, j, 0) == Ok(M())
      ensures Clearing(m0, M(), pd, i, j, 512) && SamePath(old(M()), M(), pd, Vpn(i, j, 0))
      ensures Counted() && kvmDepth == old(kvmDepth)
    {
      hide Unmap, Whole, Clearing, WalkLow, UnmapCall, Inv;
      ghost var cb, m := UnmapCall(pd), M();
      var k := 0;
      while k < 512
        invariant 0 <= k <= 512 && Counted() && kvmDepth == old(kvmDepth)
        invariant Clearing(m0, M(), pd, i, j, k) && SamePath(m, M(), pd, Vpn(i, j, 0))
        invariant WalkLow(cb, m, t, i, j, 0) == WalkLow(cb, M(), t, i, j, k)
      {
        ghost var here := M();
        var v := Vpn(i, j, k);
        if Ent(tab, t, k) != ZERO_PTE {
          ClearReady(m0, here, pd, i, j, k);
          var ok, mapped := PtUnmap(pd, v);
          UnmapFinds(here, pd, v);
        }
        ClearAtPage(m0, pd, here, v, M());
        ClearLowNext(pd, here, t, i, j, k, M());
        k := k + 1;
      }
      WalkLowEnd(cb, M(), t, i, j);
    }

    /** The middle loop. */
    method ClearTables(ghost m0: Mem, pd: Ppn, t: Ppn, i: Idx)
      requires Whole(m0) && IsRoot(m0.owner, pd) && Clearing(m0, M(), pd, i, 0, 0) && Counted()
      requires Ent(tab, pd, i).v && t == Ent(tab, pd, i).ppn
      modifies this
      ensures WalkMid(UnmapCall(pd), FreeCall(), old(M()), t, i, 0) == Ok(M())
      ensures Clearing(m0, M(), pd, i, 512, 0) && Ent(tab, pd, i).v && t == Ent(tab, pd, i).ppn
      ensures Counted() && kvmDepth == old(kvmDepth)
    {
      hide Unmap, Whole, Clearing, WalkMid, WalkLow, UnmapCall, Inv, FreeCall;
      ghost var cb, tb, m := UnmapCall(pd), FreeCall(), M();
      var j := 0;
      while j < 512
        invariant 0 <= j <= 512 && Counted() && kvmDepth == old(kvmDepth)
        invariant Clearing(m0, M(), pd, i, j, 0) && Ent(tab, pd, i).v && t == Ent(tab, pd, i).ppn
        invariant WalkMid(cb, tb, m, t, i, 0) == WalkMid(cb, tb, M(), t, i, j)
      {
        ghost var here := M();
        if Ent(tab, t, j).v {
          var low := Ent(tab, t, j).ppn;
          ClearLeaves(m0, pd, low, i, j);
          ghost var cleared := M();
          ClearReady(m0, cleared, pd, i, j, 512);
          LowThere(m0, cleared, pd, i, j);
          FreeTable(low);
          FreedLow(m0, pd, cleared, i, j, M());
          ClearMidNext(pd, here, t, i, j, cleared, M());
        } else {
          SkipsLow(m0, pd, here, i, j);
          ClearMidSkip(pd, here, t, i, j);
        }
        j := j + 1;
      }
      ClearEnds(pd, M(), t, i);
    }

    /** proc_recycleupt: the outermost loop, then the directory itself.  kvmlock is balanced. */
    method RecyclePt(pd: Ppn)
      requires Whole(M()) && IsRoot(owner, pd) && Counted()
      modifies this
      ensures RecycleSpace(old(M()), pd) == Ok(M()) && Counted() && kvmDepth == old(kvmDepth)
    {
      hide Unmap, Whole, Clearing, WalkRoot, WalkMid, UnmapCall, Inv, FreeCall;
      ghost var cb, tb, m := UnmapCall(pd), FreeCall(), M();
      ClearStart(m, pd);
      var i := 0;
      while i < 512
        invariant 0 <= i <= 512 && Counted() && kvmDepth == old(kvmDepth)
        invariant Clearing(m, M(), pd, i, 0, 0)
        invariant WalkRoot(cb, tb, m, pd, 0) == WalkRoot(cb, tb, M(), pd, i)
      {
        ghost var here := M();
        if Ent(tab, pd, i).v {
          var mid := Ent(tab, pd, i).ppn;
          ClearTables(m, pd, mid, i);
          ghost var cleared := M();
          ClearReady(m, cleared, pd, i, 512, 0);
          MidThere(m, cleared, pd, i);
          FreeTable(mid);
          FreedMid(m, pd, cleared, i, M());
          ClearRootNext(pd, here, i, cleared, M());
        } else {
          SkipsMid(m, pd, here, i);
          ClearRootSkip(pd, here, i);
        }
        i := i + 1;
      }
      ClearEnds(pd, M(), pd, 0);
      ClearReady(m, M(), pd, 512, 0, 0);
      FreeTable(pd);
    }
  }

  /** What one round of ptWalk's loop does at entry i of table t. */
  ghost predicate Level(m: Mem, t: Ppn, i: Idx, create: bool, m': Mem, ok: bool, found: bool, next: Ppn) {
    && (!create ==> ok && m' == m)
    && (create ==> Descend(m, t, i) == if ok then Ok(m') else Panic)
    && found == (ok && Ent(m'.tab, t, i).v) && (found ==> next == Ent(m'.tab, t, i).ppn)
    && (create && ok ==> found)
  }

  /** ptWalk has come down to table t. */
  ghost predicate Walking(m: Mem, pd: Ppn, v: Vpn, create: bool, level: int, m': Mem, t: Ppn) {
    && (create ==> Whole(m') && IsRoot(m'.owner, pd)) && (!create ==> m' == m)
    && (level == 1 ==> t == pd && m' == m)
    && (level == 2 ==> t == MidOf(m'.tab, pd, v) && Ent(m'.tab, pd, v.i).v && (create ==> Descend(m, pd, v.i) == Ok(m')))
    && (level == 3 ==> t == LowOf(m'.tab, pd, v) && HasPath(m'.tab, pd, v) && (create ==> WalkCreate(m, pd, v) == Ok(m')))
  }

  lemma WalkingOn(m: Mem, pd: Ppn, v: Vpn, create: bool, level: int, here: Mem, t: Ppn, m': Mem, ok: bool, found: bool, next: Ppn)
    requires 1 <= level < 3 && Walking(m, pd, v, create, level, here, t)
    requires Level(here, t, if level == 1 then v.i else v.j, create, m', ok, found, next)
    ensures create && !ok ==> WalkCreate(m, pd, v) == Panic
    ensures ok && !found ==> !create && m' == m && !HasPath(m.tab, pd, v)
    ensures ok && found ==> Walking(m, pd, v, create, level + 1, m', next)
    ensures create && ok && found && level == 1 ==> next in m'.owner && !m'.owner[next].Low?
  {
    hide Whole, Descend;
    var i := if level == 1 then v.i else v.j;
    if create {
      if level == 2 { MidOwner(here, pd, v); }
      if ok { DescendInv(here, t, i, m'); }
      if ok && found && level == 1 { MidOwner(m', pd, v); }
    }
  }

  /** A frame from the allocator is neither frame 0 nor a table. */
  lemma TableRoom(m: Mem, t: Ppn, i: Idx, n: Ppn)
    requires Whole(m) && m.free != [] && n == m.free[0] && t in m.owner && !Ent(m.tab, t, i).v
    ensures n in m.ref && n != 0 && n != t && Ent(m.tab, t, i).ppn == 0 && |m.tab[t]| == PAGE_INDEX_MAX
  {
    FreeHead(m);
  }

  lemma HungEntry(m: Mem, t: Ppn, i: Idx, m': Mem)
    requires Whole(m) && m.free != [] && t in m.owner && !m.owner[t].Low? && !Ent(m.tab, t, i).v && m' == Hang(m, t, i)
    ensures Ent(m'.tab, t, i) == Pte(true, m.free[0], NO_PERM)
  {
    FreeHead(m);
    HangFrame(m, t, i);
  }

  /** What ptMap needs to know before it writes the leaf entry. */
  lemma MapRoom(m: Mem, pd: Ppn, v: Vpn, ppn: Ppn, m': Mem)
    requires Whole(m) && IsRoot(m.owner, pd) && Mappable(m, ppn) && MakePath(m, pd, v) == Ok(m')
    ensures var t := LowOf(m'.tab, pd, v);
            && Writable(m', t, v.k) && (ppn != 0 ==> ppn in m'.ref)
            && (if Ent(m'.tab, t, v.k).v then Ent(m'.tab, t, v.k).ppn != 0 else Ent(m'.tab, t, v.k).ppn == 0)
  {
    PathFor(m, pd, v, m');
    assert IsRoot(m'.owner, pd);
    ClearRoom(m', pd, v);
  }

  lemma ClearRoom(m: Mem, pd: Ppn, v: Vpn)
    requires Inv(m) && IsRoot(m.owner, pd) && HasPath(m.tab, pd, v)
    requires m.dead == {} || Lookup(m.tab, pd, v) != ZERO_PTE
    ensures var t := LowOf(m.tab, pd, v);
            && Writable(m, t, v.k)
            && (if Ent(m.tab, t, v.k).v then Ent(m.tab, t, v.k).ppn != 0 else Ent(m.tab, t, v.k).ppn == 0)
  {
    assert Live(m.tab, m.dead, pd, v.i);
    var mid, t := MidOf(m.tab, pd, v), LowOf(m.tab, pd, v);
    assert Live(m.tab, m.dead, mid, v.j);
    if Ent(m.tab, t, v.k).v {
      assert Live(m.tab, m.dead, t, v.k);
      var f := Ent(m.tab, t, v.k).ppn;
      assert Slot(t, v.k) in Slots(m.tab, m.dead, f);
      assert m.ref[f] == |Slots(m.tab, m.dead, f)| + m.hold[f];
    }
  }

  lemma CopySource(m: Mem, pd: Ppn, v: Vpn)
    requires Whole(m) && IsRoot(m.owner, pd) && Lookup(m.tab, pd, v).v && m.free != []
    ensures var f := Lookup(m.tab, pd, v).ppn;
            f in m.data && f != m.free[0] && PageAt(m, Lookup(m.tab, pd, v)) == m.data[f] && |m.data[f]| == PAGE_SIZE
  {
    InUse(m, pd, v);
    assert m.free[0] in m.free;
  }

  lemma FilledZero(m: Mem)
    requires m.free != []
    ensures Filled(m, ZeroPage()) == Alloc(m)
  {
    var n := m.free[0];
    assert m.data[n := ZeroPage()][n := ZeroPage()] == m.data[n := ZeroPage()];
  }

  /** What has been read so far in front of what is still to be read. */
  ghost function Joined(bytes: seq<Byte>, r: Res<(Mem, seq<Byte>)>): Res<(Mem, seq<Byte>)> {
    if r.Ok? then Ok((r.value.0, bytes + r.value.1)) else Panic
  }

  lemma JoinedNothing(r: Res<(Mem, seq<Byte>)>)
    ensures Joined([], r) == r
  {
    if r.Ok? { assert [] + r.value.1 == r.value.1; }
  }

  lemma JoinedPanic(bytes: seq<Byte>)
    ensures Joined(bytes, Panic) == Panic
  {
  }

  lemma JoinedAll(m: Mem, pd: Ppn, va: nat, bytes: seq<Byte>)
    ensures Joined(bytes, CopyIn(m, pd, va, 0)) == Ok((m, bytes))
  {
    assert bytes + [] == bytes;
  }

  lemma JoinedTwice(a: seq<Byte>, b: seq<Byte>, r: Res<(Mem, seq<Byte>)>)
    ensures Joined(a, Joined(b, r)) == Joined(a + b, r)
  {
    if r.Ok? { assert a + (b + r.value.1) == a + b + r.value.1; }
  }

  lemma StillMappable(m: Mem, p: Ppn, c: Ppn, v: Vpn, e: Pte, m': Mem)
    requires Whole(m) && IsRoot(m.owner, p) && IsRoot(m.owner, c) && p != c && e == Lookup(m.tab, p, v) && e.v
    requires Map(m, c, v, e.ppn, CowPerm(e.perm)) == Ok(m')
    ensures Whole(m') && IsRoot(m'.owner, p) && Mappable(m', e.ppn)
  {
    InUse(m, p, v);
    MapRemaps(m, c, v, e.ppn, CowPerm(e.perm), m');
    assert IsRoot(m'.owner, p) && Lookup(m'.tab, p, v) == e;
    InUse(m', p, v);
  }

  lemma DupReady(m0: Mem, m: Mem, p: Ppn, c: Ppn, v: Vpn)
    requires Forkable(m0, p, c) && Progress(m0, m, p, c, Num(v))
    ensures Whole(m) && IsRoot(m.owner, p) && IsRoot(m.owner, c) && p != c
  {
  }

  lemma DupLowNext(p: Ppn, c: Ppn, m: Mem, t: Ppn, i: Idx, j: Idx, k: Idx, m': Mem, ok: bool)
    requires (if Ent(m.tab, t, k) == ZERO_PTE then Ok(m) else Dup(m, p, c, Vpn(i, j, k))) == if ok then Ok(m') else Panic
    ensures WalkLow(DupCall(p, c), m, t, i, j, k) == if ok then WalkLow(DupCall(p, c), m', t, i, j, k + 1) else Panic
  {
    hide Dup;
  }

  lemma WalkLowEnd(cb: PageCall, m: Mem, t: Ppn, i: Idx, j: Idx)
    ensures WalkLow(cb, m, t, i, j, 512) == Ok(m)
  {
  }

  lemma DupLowMissing(m0: Mem, m: Mem, p: Ppn, c: Ppn, i: Idx, j: Idx)
    requires Forkable(m0, p, c) && Progress(m0, m, p, c, Place(i, j, 0)) && !HasPath(m.tab, p, Vpn(i, j, 0))
    ensures Progress(m0, m, p, c, Place(i, j + 1, 0))
  {
    PathKept(m0, m, p, c, Vpn(i, j, 0));
    SkipLow(m0, m, p, c, i, j);
  }

  lemma DupMidMissing(m0: Mem, m: Mem, p: Ppn, c: Ppn, i: Idx)
    requires Forkable(m0, p, c) && Progress(m0, m, p, c, Place(i, 0, 0)) && !Ent(m.tab, p, i).v
    ensures Progress(m0, m, p, c, Place(i + 1, 0, 0))
  {
    PathKept(m0, m, p, c, Vpn(i, 0, 0));
    SkipMid(m0, m, p, c, i);
  }

  lemma WalkMidNext(cb: PageCall, m: Mem, t: Ppn, i: Idx, j: Idx, m': Mem, ok: bool)
    requires (if Ent(m.tab, t, j).v then WalkLow(cb, m, Ent(m.tab, t, j).ppn, i, j, 0) else Ok(m)) == if ok then Ok(m') else Panic
    ensures WalkMid(cb, NoTable(), m, t, i, j) == if ok then WalkMid(cb, NoTable(), m', t, i, j + 1) else Panic
  {
  }

  lemma WalkRootNext(cb: PageCall, m: Mem, pd: Ppn, i: Idx, m': Mem, ok: bool)
    requires (if Ent(m.tab, pd, i).v then WalkMid(cb, NoTable(), m, Ent(m.tab, pd, i).ppn, i, 0) else Ok(m)) == if ok then Ok(m') else Panic
    ensures WalkRoot(cb, NoTable(), m, pd, i) == if ok then WalkRoot(cb, NoTable(), m', pd, i + 1) else Panic
  {
  }

  lemma WalkEnds(cb: PageCall, m: Mem, t: Ppn, i: Idx)
    ensures WalkMid(cb, NoTable(), m, t, i, 512) == Ok(m) && WalkRoot(cb, NoTable(), m, t, 512) == Ok(m)
  {
  }

  // ---- steps of the recycling loops ----------------------------------------------------------

  lemma ClearReady(m0: Mem, m: Mem, pd: Ppn, i: nat, j: nat, k: nat)
    requires Whole(m0) && IsRoot(m0.owner, pd) && Clearing(m0, m, pd, i, j, k)
    ensures Inv(m) && IsRoot(m.owner, pd)
  {
    assert pd in m.owner;
  }

  lemma LowThere(m0: Mem, m: Mem, pd: Ppn, i: Idx, j: Idx)
    requires Whole(m0) && IsRoot(m0.owner, pd) && Clearing(m0, m, pd, i, j, 512) && HasPath(m.tab, pd, Vpn(i, j, 0))
    ensures LowOf(m.tab, pd, Vpn(i, j, 0)) in m.owner
  {
    CurrentLow(m0, m, pd, Vpn(i, j, 0), 512);
  }

  lemma MidThere(m0: Mem, m: Mem, pd: Ppn, i: Idx)
    requires Whole(m0) && IsRoot(m0.owner, pd) && Clearing(m0, m, pd, i, 512, 0) && Ent(m.tab, pd, i).v
    ensures Ent(m.tab, pd, i).ppn in m.owner
  {
    CurrentMid(m0, m, pd, i, 512, 0);
  }

  lemma UnmapFinds(m: Mem, pd: Ppn, v: Vpn)
    requires HasPath(m.tab, pd, v)
    ensures Unmap(m, pd, v).Ok?
  {
  }

  lemma FreedLow(m0: Mem, pd: Ppn, m: Mem, i: Idx, j: Idx, m': Mem)
    requires Whole(m0) && IsRoot(m0.owner, pd) && Clearing(m0, m, pd, i, j, 512) && HasPath(m.tab, pd, Vpn(i, j, 0))
    requires FreeCall()(m, LowOf(m.tab, pd, Vpn(i, j, 0))) == Ok(m')
    ensures Clearing(m0, m', pd, i, j + 1, 0) && SameTarget(Ent(m'.tab, pd, i), Ent(m.tab, pd, i))
  {
    ClearAtLow(m0, pd, m, i, j, m');
  }

  lemma FreedMid(m0: Mem, pd: Ppn, m: Mem, i: Idx, m': Mem)
    requires Whole(m0) && IsRoot(m0.owner, pd) && Clearing(m0, m, pd, i, 512, 0) && Ent(m.tab, pd, i).v
    requires FreeCall()(m, Ent(m.tab, pd, i).ppn) == Ok(m')
    ensures Clearing(m0, m', pd, i + 1, 0, 0)
  {
    ClearAtMid(m0, pd, m, i, m');
  }

  lemma ClearLowNext(pd: Ppn, m: Mem, t: Ppn, i: Idx, j: Idx, k: Idx, m': Mem)
    requires if Ent(m.tab, t, k) == ZERO_PTE then m' == m else Unmap(m, pd, Vpn(i, j, k)) == Ok(m')
    ensures WalkLow(UnmapCall(pd), m, t, i, j, k) == WalkLow(UnmapCall(pd), m', t, i, j, k + 1)
  {
    hide Unmap;
  }

  lemma ClearMidNext(pd: Ppn, m: Mem, t: Ppn, i: Idx, j: Idx, m1: Mem, m': Mem)
    requires Ent(m.tab, t, j).v && WalkLow(UnmapCall(pd), m, Ent(m.tab, t, j).ppn, i, j, 0) == Ok(m1)
    requires FreeCall()(m1, Ent(m.tab, t, j).ppn) == Ok(m')
    ensures WalkMid(UnmapCall(pd), FreeCall(), m, t, i, j) == WalkMid(UnmapCall(pd), FreeCall(), m', t, i, j + 1)
  {
    hide UnmapCall, FreeCall, WalkLow;
  }

  lemma ClearMidSkip(pd: Ppn, m: Mem, t: Ppn, i: Idx, j: Idx)
    requires !Ent(m.tab, t, j).v
    ensures WalkMid(UnmapCall(pd), FreeCall(), m, t, i, j) == WalkMid(UnmapCall(pd), FreeCall(), m, t, i, j + 1)
  {
    hide UnmapCall, FreeCall, WalkLow;
  }

  lemma ClearRootNext(pd: Ppn, m: Mem, i: Idx, m1: Mem, m': Mem)
    requires Ent(m.tab, pd, i).v && WalkMid(UnmapCall(pd), FreeCall(), m, Ent(m.tab, pd, i).ppn, i, 0) == Ok(m1)
    requires FreeCall()(m1, Ent(m.tab, pd, i).ppn) == Ok(m')
    ensures WalkRoot(UnmapCall(pd), FreeCall(), m, pd, i) == WalkRoot(UnmapCall(pd), FreeCall(), m', pd, i + 1)
  {
    hide UnmapCall, FreeCall, WalkMid;
  }

  lemma ClearRootSkip(pd: Ppn, m: Mem, i: Idx)
    requires !Ent(m.tab, pd, i).v
    ensures WalkRoot(UnmapCall(pd), FreeCall(), m, pd, i) == WalkRoot(UnmapCall(pd), FreeCall(), m, pd, i + 1)
  {
    hide UnmapCall, FreeCall, WalkMid;
  }

  lemma ClearEnds(pd: Ppn, m: Mem, t: Ppn, i: Idx)
    ensures WalkMid(UnmapCall(pd), FreeCall(), m, t, i, 512) == Ok(m)
    ensures WalkRoot(UnmapCall(pd), FreeCall(), m, t, 512) == Ok(m)
  {
  }

  lemma HeadKnown(m: Mem)
    requires Whole(m)
    ensures m.free != [] ==> m.free[0] in m.ref && m.free[0] in m.hold
  {
    if m.free != [] { FreeHead(m); }
  }

  lemma InitUptForkable(m: Mem, p: Ppn, tramp: Ppn, sig: Ppn, m': Mem, c: Ppn)
    requires UserOk(m) && IsRoot(m.owner, p) && BootFrame(m, tramp) && BootFrame(m, sig)
    requires InitUpt(m, tramp, sig) == Ok((m', c))
    ensures Forkable(m', p, c)
  {
    hide InitUpt;
    InitUptBorn(m, tramp, sig, m', c);
    RootIs(m, p);
    RootIs(m', p);
    RootIs(m', c);
  }
}
