/**
 How many free frames the page-table operations need (kern/mm/vmm.c, kern/proc/fork.c):
 exactly as many as tables are missing.
 */
module FrameSupply {
  import opened Panics
  import opened Sv39
  import opened PageTables
  import opened VmState

  /** The tables missing on the way to page v. */
  ghost function PathCost(tab: Tables, pd: Ppn, v: Vpn): nat {
    if !Ent(tab, pd, v.i).v then 2 else if !Ent(tab, MidOf(tab, pd, v), v.j).v then 1 else 0
  }

  lemma DescendNeeds(m: Mem, t: Ppn, i: Idx)
    requires Whole(m) && t in m.owner && !m.owner[t].Low?
    ensures Descend(m, t, i).Ok? <==> Ent(m.tab, t, i).v || m.free != []
    ensures !Ent(m.tab, t, i).v && m.free != [] ==>
              var m' := Descend(m, t, i).value;
              m.free[0] !in m.tab && t in m.tab && |m.tab[t]| == PAGE_INDEX_MAX
              && m'.free == m.free[1..] && m'.tab == Hung(m.tab, t, i, m.free[0])
  {
    if !Ent(m.tab, t, i).v && m.free != [] {
      FreeHead(m);
      HangCount(m, t, i);
    }
  }

  /** The way to page v can be made exactly when there is a frame for every missing table, and takes no more. */
  lemma PathNeeds(m: Mem, pd: Ppn, v: Vpn)
    requires Whole(m) && IsRoot(m.owner, pd)
    ensures MakePath(m, pd, v).Ok? <==> PathCost(m.tab, pd, v) <= |m.free|
    ensures MakePath(m, pd, v).Ok? ==> |MakePath(m, pd, v).value.free| == |m.free| - PathCost(m.tab, pd, v)
  {
    hide Whole, Hang;
    DescendNeeds(m, pd, v.i);
    if Descend(m, pd, v.i).Ok? {
      var m1 := Descend(m, pd, v.i).value;
      DescendInv(m, pd, v.i, m1);
      assert IsRoot(m1.owner, pd);
      MidOwner(m1, pd, v);
      DescendNeeds(m1, MidOf(m1.tab, pd, v), v.j);
      if !Ent(m.tab, pd, v.i).v { NewMid(m, pd, v, m1); }
    }
  }

  lemma NewMid(m: Mem, pd: Ppn, v: Vpn, m1: Mem)
    requires Whole(m) && IsRoot(m.owner, pd) && !Ent(m.tab, pd, v.i).v && m.free != [] && m.free[0] !in m.tab
    requires m1.tab == Hung(m.tab, pd, v.i, m.free[0])
    ensures !Ent(m1.tab, MidOf(m1.tab, pd, v), v.j).v
  {
    GrowEnt(m.tab, pd, v.i, m.free[0]);
  }

  /** ptMap succeeds exactly when the missing tables can be had. */
  lemma MapNeeds(m: Mem, pd: Ppn, v: Vpn, ppn: Ppn, perm: Perm)
    requires Whole(m) && IsRoot(m.owner, pd) && !Lookup(m.tab, pd, v).v && (ppn == 0 ==> perm.u)
    ensures Map(m, pd, v, ppn, perm).Ok? <==> PathCost(m.tab, pd, v) <= |m.free|
    ensures Map(m, pd, v, ppn, perm).Ok? ==> |Map(m, pd, v, ppn, perm).value.free| == |m.free| - PathCost(m.tab, pd, v)
  {
    hide Whole, WalkCreate, PathCost;
    PathNeeds(m, pd, v);
    if MakePath(m, pd, v).Ok? {
      var m1 := MakePath(m, pd, v).value;
      PathFor(m, pd, v, m1);
      assert Lookup(m1.tab, pd, v) == Lookup(m.tab, pd, v);
    }
  }

  /** ptUnmap at the neighbour of a mapped page finds its tables, and a zero entry. */
  lemma ZeroNeighbour(m: Mem, pd: Ppn, v: Vpn, w: Vpn)
    requires Lookup(m.tab, pd, v) != ZERO_PTE && w.i == v.i && w.j == v.j && Lookup(m.tab, pd, w) == ZERO_PTE
    ensures Unmap(m, pd, w) == Ok(m)
  {
  }
}
