/**
 Exactly when page faults, kernel copies and sys_map go through, page by page: what
 the entry permits, and whether there is a frame where one is needed.
 */
module PageSupply {
  import opened Panics
  import opened Words
  import opened Sv39
  import opened PageTables
  import opened VmState
  import opened FrameSupply
  import opened SimpleSystem
  import opened CopyOnWrite
  import opened Transfer

  /** A page whose tables are there can be given a new frame exactly if there is one. */
  lemma FillNeeds(m: Mem, p: Ppn, v: Vpn, page: Page, perm: Perm)
    requires UserOk(m) && IsRoot(m.owner, p) && Lookup(m.tab, p, v) != ZERO_PTE && |page| == PAGE_SIZE
    ensures MapFresh(m, p, v, page, perm).Ok? <==> m.free != []
  {
    hide CowOk, UserPages, BootHeld;
    if m.free != [] { FilledOk(m, page); }
  }

  /** The entry asks the fault handler for a frame: to fill a passive page, or to copy on a write. */
  predicate WantsFrame(e: Pte, write: bool) {
    Passive(e) || (write && e.v && e.perm.u && !e.perm.w && e.perm.cow)
  }

  /** page_fault_handler serves exactly the pages that want a frame, and panics exactly if there is none for them. */
  lemma FaultExactly(m: Mem, p: Ppn, write: bool, v: Vpn)
    requires UserOk(m) && IsRoot(m.owner, p)
    ensures var r, e := FaultHandler(m, p, write, v), Lookup(m.tab, p, v);
            && (r.Panic? <==> WantsFrame(e, write) && m.free == [])
            && (r.Ok? ==> r.value.1 == WantsFrame(e, write) && (!WantsFrame(e, write) ==> r.value.0 == m))
  {
    hide MapFresh, Lookup, CowOk, BootHeld, Whole, PageAt;
    var e := Lookup(m.tab, p, v);
    assert UserEntry(m.boot, v, e);
    if e != ZERO_PTE {
      PageLength(m, p, v);
      FillNeeds(m, p, v, ZeroPage(), e.perm);
      FillNeeds(m, p, v, PageAt(m, e), e.perm.(cow := false, w := true));
    }
  }

  /** A user store or load panics exactly if it faults on a page that wants a frame and there is none. */
  lemma AccessNeeds(m: Mem, p: Ppn, v: Vpn, off: nat, b: Byte)
    requires UserOk(m) && IsRoot(m.owner, p)
    ensures var e := Lookup(m.tab, p, v);
            && (UserStore(m, p, v, off, b).Panic? <==> !UserWritable(e) && WantsFrame(e, true) && m.free == [])
            && (UserLoad(m, p, v, off).Panic? <==> !UserReadable(e) && WantsFrame(e, false) && m.free == [])
  {
    hide FaultHandler, Lookup, UserOk, StoreByte, ByteAt;
    FaultExactly(m, p, true, v);
    FaultExactly(m, p, false, v);
  }

  // ---- kernel copies ---------------------------------------------------------------------------

  /** The kernel may copy to or from the page: the permission is there, or a write can get a copy of its own. */
  predicate Copyable(e: Pte, write: bool) {
    e.perm.u && if write then e.perm.w || e.perm.cow else e.perm.r
  }

  predicate CopyWants(e: Pte, write: bool) {
    !e.v || (write && !e.perm.w)
  }

  lemma Served(m: Mem, p: Ppn, v: Vpn, write: bool, m1: Mem)
    requires UserOk(m) && IsRoot(m.owner, p) && FaultHandler(m, p, write, v) == Ok((m1, true))
    ensures UserOk(m1) && IsRoot(m1.owner, p) && m.free != []
    ensures Lookup(m1.tab, p, v) == FreshEntry(m, FaultPerm(Lookup(m.tab, p, v), write)) && Lookup(m1.tab, p, v).ppn != 0
  {
    hide FaultHandler, MapFresh, Lookup, PageAt, AllViews, AllKinds, Touched, CowOk, BootHeld;
    FaultKeepsViews(m, p, write, v, m1, true);
    FaultIsRefill(m, p, write, v, m1);
    PageLength(m, p, v);
    MapFreshRemaps(m, p, v, PageAt(m, Lookup(m.tab, p, v)), FaultPerm(Lookup(m.tab, p, v), write), m1);
    FilledOk(m, PageAt(m, Lookup(m.tab, p, v)));
  }

  lemma FramesNotZero(m: Mem, p: Ppn, v: Vpn)
    requires UserOk(m) && IsRoot(m.owner, p)
    ensures Lookup(m.tab, p, v).v <==> Lookup(m.tab, p, v).ppn != 0
  {
    hide CowOk, UserPages, BootHeld;
    if Lookup(m.tab, p, v).v { InUse(m, p, v); }
    if Lookup(m.tab, p, v).ppn != 0 { HasFrame(m, p, v); }
  }

  /** The start of a round at a user page works exactly if the copy is permitted there and a frame is to be had where one is needed. */
  lemma PrepareExactly(m: Mem, p: Ppn, v: Vpn, write: bool)
    requires UserOk(m) && IsRoot(m.owner, p) && !Special(v)
    ensures var e := Lookup(m.tab, p, v);
            Prepare(m, p, v, write).Ok? <==> Copyable(e, write) && (CopyWants(e, write) ==> m.free != [])
  {
    hide FaultHandler, Lookup, Whole, CowOk, BootHeld;
    var e := Lookup(m.tab, p, v);
    assert UserEntry(m.boot, v, e);
    FramesNotZero(m, p, v);
    FaultExactly(m, p, write, v);
    if FaultHandler(m, p, write, v).Ok? && FaultHandler(m, p, write, v).value.1 {
      var m1 := FaultHandler(m, p, write, v).value.0;
      Served(m, p, v, write, m1);
      FaultExactly(m1, p, write, v);
    }
  }

  // ---- sys_map ---------------------------------------------------------------------------------

  /**
   sys_map of a page without a frame: below 32 MiB the page is there at once and takes
   a frame, above it is only noted; tables that are missing take one each.
   */
  lemma MapPageExactly(m: Mem, p: Ppn, v: Vpn, perm: Perm)
    requires UserOk(m) && IsRoot(m.owner, p) && perm.u && !perm.cow && Lookup(m.tab, p, v).ppn == 0
    ensures var r, need := MapPage(m, p, v, perm), PathCost(m.tab, p, v) + if VaOf(v) < 0x200_0000 then 1 else 0;
            && (r.Ok? <==> need <= |m.free|)
            && (r.Ok? ==> |r.value.free| == |m.free| - need
                          && Lookup(r.value.tab, p, v).v == (VaOf(v) < 0x200_0000)
                          && Lookup(r.value.tab, p, v).perm.(a := perm.a, d := perm.d) == perm)
  {
    hide Map, MapFresh, Lookup, UserOk, VaOf, PathCost;
    FramesNotZero(m, p, v);
    if VaOf(v) < 0x200_0000 { MapLow(m, p, v, perm); } else { MapHigh(m, p, v, perm); }
  }

  lemma MapHigh(m: Mem, p: Ppn, v: Vpn, perm: Perm)
    requires UserOk(m) && IsRoot(m.owner, p) && !Lookup(m.tab, p, v).v && perm.u
    ensures var r := Map(m, p, v, 0, perm);
            && (r.Ok? <==> PathCost(m.tab, p, v) <= |m.free|)
            && (r.Ok? ==> |r.value.free| == |m.free| - PathCost(m.tab, p, v) && Lookup(r.value.tab, p, v) == Pte(false, 0, perm))
  {
    hide Map, Lookup, CowOk, UserPages, BootHeld, PathCost;
    MapNeeds(m, p, v, 0, perm);
    var r := Map(m, p, v, 0, perm);
    if r.Ok? { MapRemaps(m, p, v, 0, perm, r.value); }
  }

  lemma MapLow(m: Mem, p: Ppn, v: Vpn, perm: Perm)
    requires UserOk(m) && IsRoot(m.owner, p) && !Lookup(m.tab, p, v).v
    ensures var r := MapFresh(m, p, v, ZeroPage(), perm);
            && (r.Ok? <==> PathCost(m.tab, p, v) + 1 <= |m.free|)
            && (r.Ok? ==> m.free != [] && |r.value.free| == |m.free| - PathCost(m.tab, p, v) - 1 && Lookup(r.value.tab, p, v) == FreshEntry(m, perm))
  {
    hide Map, Lookup, CowOk, UserPages, BootHeld, PathCost;
    if m.free != [] {
      FilledOk(m, ZeroPage());
      MapNeeds(Filled(m, ZeroPage()), p, v, m.free[0], perm);
      var r := MapFresh(m, p, v, ZeroPage(), perm);
      if r.Ok? { MapFreshRemaps(m, p, v, ZeroPage(), perm, r.value); }
    }
  }
}
