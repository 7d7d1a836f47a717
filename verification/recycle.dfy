/**
 proc_recycleupt: taking an address space apart.  pdWalk unmaps every page and
 gives back every table after the pages below it; the entries above a table that
 has been given back are never read again.
 */
module Recycle {
  import opened Panics
  import opened Sv39
  import opened PageTables
  import opened VmState
  import opened SimpleSystem
  import opened CopyOnWrite
  import opened TableWalk

  // ---- giving back one table ------------------------------------------------------------

  /** The entry that table t hangs below. */
  ghost function ParentSlot(tab: Tables, owner: Owners, t: Ppn): Slot
    requires t in owner && !owner[t].Root?
  {
    match owner[t]
    case Mid(pd, i) => Slot(pd, i)
    case Low(pd, i, j) => Slot(Ent(tab, pd, i).ppn, j)
  }

  ghost function DeadAfter(m: Mem, t: Ppn): set<Slot>
    requires t in m.owner
  {
    (set s | s in m.dead && s.t != t) + if m.owner[t].Root? then {} else {ParentSlot(m.tab, m.owner, t)}
  }

  ghost function HoldAfter(m: Mem, t: Ppn): map<Ppn, nat>
    requires t in m.owner
  {
    if m.owner[t].Root? then m.hold[t := 0] else m.hold
  }

  /** kvmFree of a table: one reference less, and the frame is no table any more. */
  ghost function Drop(m: Mem, t: Ppn): Mem
    requires t in m.ref && m.ref[t] > 0 && t in m.owner
  {
    m.(ref := m.ref[t := m.ref[t] - 1],
       free := if m.ref[t] == 1 then [t] + m.free else m.free,
       tab := m.tab - {t},
       owner := m.owner - {t},
       hold := HoldAfter(m, t),
       dead := DeadAfter(m, t))
  }

  /** No entry of table t is live. */
  ghost predicate Spent(m: Mem, t: Ppn) {
    forall x: Idx {:trigger Live(m.tab, m.dead, t, x)} :: !Live(m.tab, m.dead, t, x)
  }

  /** A table is named by the entry it hangs below and by no other. */
  lemma TableSlots(m: Mem, t: Ppn)
    requires TreeOk(m.tab, m.owner, m.dead) && t in m.owner
    ensures Slots(m.tab, m.dead, t) == if m.owner[t].Root? then {} else {ParentSlot(m.tab, m.owner, t)}
  {
    assert Hangs(m.tab, m.owner, m.dead, t);
    forall s | s in Slots(m.tab, m.dead, t)
      ensures !m.owner[t].Root? && s == ParentSlot(m.tab, m.owner, t)
    {
      assert Live(m.tab, m.dead, s.t, s.i);
      assert Points(m.tab, m.owner, s.t, s.i);
      assert Hangs(m.tab, m.owner, m.dead, s.t);
    }
    if !m.owner[t].Root? {
      assert ParentSlot(m.tab, m.owner, t) in Slots(m.tab, m.dead, t);
    }
  }

  /** So exactly one reference to it is counted. */
  lemma TableCount(m: Mem, t: Ppn)
    requires Inv(m) && t in m.owner
    ensures t in m.ref && m.ref[t] == 1
  {
    TableSlots(m, t);
    if !m.owner[t].Root? {
      var s := ParentSlot(m.tab, m.owner, t);
      assert s in Slots(m.tab, m.dead, t);
      assert Live(m.tab, m.dead, s.t, s.i);
    }
    assert t in m.ref;
    assert m.ref[t] == |Slots(m.tab, m.dead, t)| + m.hold[t];
  }

  lemma DropSlots(m: Mem, t: Ppn, f: Ppn)
    requires TreeOk(m.tab, m.owner, m.dead) && t in m.owner && Spent(m, t)
    ensures Slots(m.tab - {t}, DeadAfter(m, t), f) == if f == t then {} else Slots(m.tab, m.dead, f)
  {
    TableSlots(m, t);
    var tab', dead' := m.tab - {t}, DeadAfter(m, t);
    assert forall s, x: Idx | s != t :: Ent(tab', s, x) == Ent(m.tab, s, x);
    forall s: Slot ensures s in Slots(tab', dead', f) <==> f != t && s in Slots(m.tab, m.dead, f) {
      assert s.t == t ==> !Live(m.tab, m.dead, t, s.i);
      if s.t != t {
        assert Live(tab', dead', s.t, s.i) <==> Live(m.tab, m.dead, s.t, s.i) && s !in Slots(m.tab, m.dead, t);
      }
    }
  }

  lemma DropCounts(m: Mem, t: Ppn)
    requires Inv(m) && t in m.owner && Spent(m, t) && t in m.ref && m.ref[t] == 1
    ensures CountOk(m.ref[t := 0], m.tab - {t}, DeadAfter(m, t), HoldAfter(m, t))
  {
    var ref', tab', dead', hold' := m.ref[t := 0], m.tab - {t}, DeadAfter(m, t), HoldAfter(m, t);
    forall f | f in ref' ensures ref'[f] == |Slots(tab', dead', f)| + hold'[f] {
      DropSlots(m, t, f);
      assert m.ref[f] == |Slots(m.tab, m.dead, f)| + m.hold[f];
    }
    forall s, x: Idx | Live(tab', dead', s, x) ensures Ent(tab', s, x).ppn in ref' {
      assert Live(m.tab, m.dead, s, x);
    }
  }

  lemma DropHangs(m: Mem, t: Ppn, s: Ppn)
    requires TreeOk(m.tab, m.owner, m.dead) && t in m.owner && Spent(m, t) && s in m.owner && s != t
    ensures Hangs(m.tab - {t}, m.owner - {t}, DeadAfter(m, t), s)
  {
    assert Hangs(m.tab, m.owner, m.dead, s);
    assert Hangs(m.tab, m.owner, m.dead, t);
    match m.owner[s]
    case Root =>
    case Mid(pd, i) =>
      assert !Live(m.tab, m.dead, t, i);
    case Low(pd, i, j) =>
      assert !Live(m.tab, m.dead, t, i) && !Live(m.tab, m.dead, t, j);
  }

  lemma DropPoints(m: Mem, t: Ppn, s: Ppn, x: Idx)
    requires TreeOk(m.tab, m.owner, m.dead) && t in m.owner && Spent(m, t)
    requires Live(m.tab - {t}, DeadAfter(m, t), s, x)
    ensures s in m.owner && s != t && Points(m.tab - {t}, m.owner - {t}, s, x)
  {
    assert Live(m.tab, m.dead, s, x);
    assert Points(m.tab, m.owner, s, x);
    TableSlots(m, t);
    assert Ent(m.tab, s, x).ppn == t ==> Slot(s, x) in Slots(m.tab, m.dead, t);
  }

  lemma DropTree(m: Mem, t: Ppn)
    requires TreeOk(m.tab, m.owner, m.dead) && t in m.owner && Spent(m, t)
    ensures TreeOk(m.tab - {t}, m.owner - {t}, DeadAfter(m, t))
  {
    var tab', owner', dead' := m.tab - {t}, m.owner - {t}, DeadAfter(m, t);
    assert Hangs(m.tab, m.owner, m.dead, t);
    forall s | s in owner' ensures Hangs(tab', owner', dead', s) {
      DropHangs(m, t, s);
    }
    forall s, x: Idx | Live(tab', dead', s, x) ensures Points(tab', owner', s, x) {
      DropPoints(m, t, s, x);
    }
    forall s, x: Idx | s in tab' && !Ent(tab', s, x).v ensures Ent(tab', s, x).ppn == 0 {
      assert Ent(tab', s, x) == Ent(m.tab, s, x);
    }
  }

  /** Giving back a table none of whose entries is live frees its frame and keeps the whole invariant. */
  lemma DropInv(m: Mem, t: Ppn)
    requires Inv(m) && t in m.owner && Spent(m, t)
    ensures t in m.ref && m.ref[t] == 1 && Inv(Drop(m, t)) && t in Drop(m, t).free
  {
    TableCount(m, t);
    DropCounts(m, t);
    DropTree(m, t);
    DropFree(m, t);
  }

  lemma DropFree(m: Mem, t: Ppn)
    requires FreeOk(m.ref, m.free, m.pending) && t in m.ref && m.ref[t] == 1
    ensures FreeOk(m.ref[t := 0], [t] + m.free, m.pending)
  {
  }

  // ---- the traversal ---------------------------------------------------------------------

  ghost function UnmapCall(pd: Ppn): PageCall {
    (m, v) => Unmap(m, pd, v)
  }

  ghost function FreeCall(): TableCall {
    (m: Mem, t: Ppn) => if t in m.ref && m.ref[t] > 0 && t in m.owner then Ok(Drop(m, t)) else Panic
  }

  /** proc_recycleupt */
  ghost function RecycleSpace(m: Mem, pd: Ppn): Res<Mem> {
    PdWalk(UnmapCall(pd), FreeCall(), m, pd)
  }

  /** The tables of pd that have been given back when the traversal stands at (i, j). */
  ghost predicate Gone(pd: Ppn, i: nat, j: nat, node: Node) {
    match node
    case Root => false
    case Mid(p, i') => p == pd && i' < i
    case Low(p, i', j') => p == pd && (i' < i || (i' == i && j' < j))
  }

  /** Table node is the leaf table the traversal stands in. */
  predicate Current(pd: Ppn, i: nat, j: nat, node: Node) {
    node.Low? && node.pd == pd && node.i == i && node.j == j
  }

  ghost predicate SameRest(m0: Mem, m: Mem) {
    && m.ad == m0.ad && m.boot == m0.boot && m.data == m0.data && m.pending == m0.pending && m.ref.Keys == m0.ref.Keys
  }

  ghost predicate OwnersLeft(m0: Mem, m: Mem, pd: Ppn, i: nat, j: nat) {
    && (forall t {:trigger t in m.owner} :: t in m.owner <==> t in m0.owner && !Gone(pd, i, j, m0.owner[t]))
    && (forall t {:trigger m.owner[t]} | t in m.owner :: m.owner[t] == m0.owner[t])
  }

  ghost predicate EntriesLeft(m0: Mem, m: Mem, pd: Ppn, i: nat, j: nat, k: nat) {
    forall t, x: Idx {:trigger Ent(m.tab, t, x)} | t in m.owner && t in m0.owner ::
      Ent(m.tab, t, x) == if Current(pd, i, j, m0.owner[t]) && x < k then ZERO_PTE else Ent(m0.tab, t, x)
  }

  /** The dead entries are those above tables that have been given back. */
  ghost predicate DeadExact(m: Mem) {
    forall s: Slot {:trigger s in m.dead} :: s in m.dead <==> Orphan(m, s)
  }

  ghost predicate Orphan(m: Mem, s: Slot) {
    s.t in m.owner && !m.owner[s.t].Low? && Ent(m.tab, s.t, s.i).v && Ent(m.tab, s.t, s.i).ppn !in m.owner
  }

  ghost predicate Clearing(m0: Mem, m: Mem, pd: Ppn, i: nat, j: nat, k: nat) {
    && Inv(m) && SameRest(m0, m) && m.hold == m0.hold
    && OwnersLeft(m0, m, pd, i, j) && EntriesLeft(m0, m, pd, i, j, k) && DeadExact(m)
  }

  ghost function ClearCursor(m0: Mem, pd: Ppn): Cursor {
    (m: Mem, i: nat, j: nat, k: nat) => Clearing(m0, m, pd, i, j, k)
  }

  /** The middle and leaf tables the traversal stands in are still there. */
  lemma CurrentMid(m0: Mem, m: Mem, pd: Ppn, i: Idx, j: nat, k: nat)
    requires Whole(m0) && IsRoot(m0.owner, pd) && Clearing(m0, m, pd, i, j, k)
    ensures IsRoot(m.owner, pd) && Ent(m.tab, pd, i) == Ent(m0.tab, pd, i)
    ensures Ent(m0.tab, pd, i).v ==> var t := Ent(m0.tab, pd, i).ppn; t in m.owner && t in m0.owner && m.owner[t] == m0.owner[t] == Mid(pd, i)
  {
    assert pd in m.owner;
    if Ent(m0.tab, pd, i).v {
      MidOwner(m0, pd, Vpn(i, 0, 0));
      assert Ent(m0.tab, pd, i).ppn in m.owner;
    }
  }

  lemma CurrentLow(m0: Mem, m: Mem, pd: Ppn, v: Vpn, k: nat)
    requires Whole(m0) && IsRoot(m0.owner, pd) && Clearing(m0, m, pd, v.i, v.j, k)
    ensures HasPath(m.tab, pd, v) == HasPath(m0.tab, pd, v)
    ensures HasPath(m0.tab, pd, v) ==>
              var t := LowOf(m.tab, pd, v);
              t == LowOf(m0.tab, pd, v) && t in m.owner && t in m0.owner && m.owner[t] == m0.owner[t] == Low(pd, v.i, v.j)
  {
    CurrentMid(m0, m, pd, v.i, v.j, k);
    if Ent(m0.tab, pd, v.i).v {
      assert Ent(m.tab, MidOf(m0.tab, pd, v), v.j) == Ent(m0.tab, MidOf(m0.tab, pd, v), v.j);
      if HasPath(m0.tab, pd, v) {
        LeafOwner(m0.tab, m0.owner, pd, v);
        assert LowOf(m0.tab, pd, v) in m.owner;
      }
    }
  }

  /** A cleared leaf entry moves the traversal one entry on. */
  lemma ClearEntry(m0: Mem, m: Mem, pd: Ppn, v: Vpn, t: Ppn, m': Mem)
    requires Whole(m0) && Clearing(m0, m, pd, v.i, v.j, v.k)
    requires t in m.owner && t in m0.owner && m.owner[t] == m0.owner[t] == Low(pd, v.i, v.j)
    requires Writable(m, t, v.k) && m' == SetPte(m, t, v.k, ZERO_PTE) && Inv(m')
    ensures Clearing(m0, m', pd, v.i, v.j, v.k + 1)
  {
    hide Inv, Whole, DeadExact, EntriesLeft, OwnersLeft;
    OneCurrent(m0, t, v);
    ClearedEnt(m, t, v.k, m');
    ClearedDead(m, t, v.k, m');
    ClearedEntries(m0, m, pd, v, t, m');
    ClearedRest(m0, m, pd, v, t, m');
  }

  lemma ClearedEnt(m: Mem, t: Ppn, k: Idx, m': Mem)
    requires Writable(m, t, k) && m' == SetPte(m, t, k, ZERO_PTE)
    ensures m'.owner == m.owner && m'.dead == m.dead && m'.hold == m.hold
    ensures forall s, x: Idx {:trigger Ent(m'.tab, s, x)} :: Ent(m'.tab, s, x) == if s == t && x == k then ZERO_PTE else Ent(m.tab, s, x)
  {
  }

  lemma ClearedDead(m: Mem, t: Ppn, k: Idx, m': Mem)
    requires DeadExact(m) && t in m.owner && m.owner[t].Low? && m'.owner == m.owner && m'.dead == m.dead
    requires forall s, x: Idx {:trigger Ent(m'.tab, s, x)} :: Ent(m'.tab, s, x) == if s == t && x == k then ZERO_PTE else Ent(m.tab, s, x)
    ensures DeadExact(m')
  {
    forall s: Slot ensures s in m'.dead <==> Orphan(m', s) {
      assert s in m.dead <==> Orphan(m, s);
    }
  }

  lemma ClearedEntries(m0: Mem, m: Mem, pd: Ppn, v: Vpn, t: Ppn, m': Mem)
    requires EntriesLeft(m0, m, pd, v.i, v.j, v.k) && m'.owner == m.owner && t in m0.owner && m0.owner[t] == Low(pd, v.i, v.j)
    requires forall s | s in m0.owner && m0.owner[s] == m0.owner[t] :: s == t
    requires forall s, x: Idx {:trigger Ent(m'.tab, s, x)} :: Ent(m'.tab, s, x) == if s == t && x == v.k then ZERO_PTE else Ent(m.tab, s, x)
    ensures EntriesLeft(m0, m', pd, v.i, v.j, v.k + 1)
  {
    forall s, x: Idx | s in m'.owner && s in m0.owner
      ensures Ent(m'.tab, s, x) == if Current(pd, v.i, v.j, m0.owner[s]) && x < v.k + 1 then ZERO_PTE else Ent(m0.tab, s, x)
    {
      assert Ent(m.tab, s, x) == if Current(pd, v.i, v.j, m0.owner[s]) && x < v.k then ZERO_PTE else Ent(m0.tab, s, x);
    }
  }

  lemma ClearedRest(m0: Mem, m: Mem, pd: Ppn, v: Vpn, t: Ppn, m': Mem)
    requires SameRest(m0, m) && OwnersLeft(m0, m, pd, v.i, v.j) && Writable(m, t, v.k) && m' == SetPte(m, t, v.k, ZERO_PTE)
    ensures SameRest(m0, m') && OwnersLeft(m0, m', pd, v.i, v.j)
  {
  }

  lemma OneCurrent(m0: Mem, t: Ppn, v: Vpn)
    requires Whole(m0) && t in m0.owner && m0.owner[t].Low? && v.i == m0.owner[t].i && v.j == m0.owner[t].j
    ensures forall s | s in m0.owner && m0.owner[s] == m0.owner[t] :: s == t
  {
    OwnerLeaf(m0.tab, m0.owner, {}, t, v.k);
    forall s | s in m0.owner && m0.owner[s] == m0.owner[t] ensures s == t {
      OwnerLeaf(m0.tab, m0.owner, {}, s, v.k);
    }
  }

  /** An entry that is zero already needs no step. */
  lemma ClearZero(m0: Mem, m: Mem, pd: Ppn, v: Vpn, t: Ppn)
    requires Whole(m0) && Clearing(m0, m, pd, v.i, v.j, v.k) && Ent(m.tab, t, v.k) == ZERO_PTE
    requires t in m0.owner && m0.owner[t] == Low(pd, v.i, v.j)
    ensures Clearing(m0, m, pd, v.i, v.j, v.k + 1)
  {
    hide Whole, Inv, SameRest, DeadExact, OwnersLeft;
    OneCurrent(m0, t, v);
  }

  lemma ClearAtPage(m0: Mem, pd: Ppn, m: Mem, v: Vpn, m': Mem)
    requires Whole(m0) && IsRoot(m0.owner, pd) && Clearing(m0, m, pd, v.i, v.j, v.k) && HasPath(m.tab, pd, v)
    requires if Ent(m.tab, LowOf(m.tab, pd, v), v.k) == ZERO_PTE then m' == m else Unmap(m, pd, v) == Ok(m')
    ensures Clearing(m0, m', pd, v.i, v.j, v.k + 1) && SamePath(m, m', pd, v)
  {
    CurrentMid(m0, m, pd, v.i, v.j, v.k);
    CurrentLow(m0, m, pd, v, v.k);
    var t := LowOf(m.tab, pd, v);
    if Ent(m.tab, t, v.k) == ZERO_PTE {
      ClearZero(m0, m, pd, v, t);
    } else {
      SetLeaf(m, t, v.k, ZERO_PTE);
      ClearEntry(m0, m, pd, v, t, m');
    }
  }

  lemma ClearPages(m0: Mem, pd: Ppn)
    requires Whole(m0) && IsRoot(m0.owner, pd)
    ensures PageSteps(UnmapCall(pd), pd, ClearCursor(m0, pd))
  {
    hide Whole, Clearing, HasPath, SamePath, Unmap;
    var cb, inv := UnmapCall(pd), ClearCursor(m0, pd);
    forall m, v: Vpn, m' | AtPage(cb, pd, m, v, m') && inv(m, v.i, v.j, v.k)
      ensures inv(m', v.i, v.j, v.k + 1) && SamePath(m, m', pd, v)
    {
      ClearAtPage(m0, pd, m, v, m');
    }
  }

  lemma DropDead(m: Mem, t: Ppn, m': Mem)
    requires TreeOk(m.tab, m.owner, m.dead) && DeadExact(m) && t in m.owner && Spent(m, t)
    requires m'.tab == m.tab - {t} && m'.owner == m.owner - {t} && m'.dead == DeadAfter(m, t)
    ensures DeadExact(m')
  {
    TableSlots(m, t);
    assert Hangs(m.tab, m.owner, m.dead, t);
    forall s: Slot ensures s in m'.dead <==> Orphan(m', s) {
      if s.t != t {
        assert Ent(m'.tab, s.t, s.i) == Ent(m.tab, s.t, s.i);
        OrphanAfter(m, t, s);
      }
    }
  }

  /** An entry loses its table exactly if it was the one that t hung below. */
  lemma OrphanAfter(m: Mem, t: Ppn, s: Slot)
    requires TreeOk(m.tab, m.owner, m.dead) && DeadExact(m) && t in m.owner
    requires Slots(m.tab, m.dead, t) == if m.owner[t].Root? then {} else {ParentSlot(m.tab, m.owner, t)}
    ensures s in m.dead <==> Orphan(m, s)
    ensures s in Slots(m.tab, m.dead, t) <==>
              s.t in m.owner && !m.owner[s.t].Low? && Ent(m.tab, s.t, s.i).v && Ent(m.tab, s.t, s.i).ppn == t
  {
    assert s in m.dead <==> Orphan(m, s);
    if s in Slots(m.tab, m.dead, t) {
      assert Live(m.tab, m.dead, s.t, s.i);
      assert Points(m.tab, m.owner, s.t, s.i);
    }
  }

  /** One more table is gone; the traversal moves to (i', j', 0). */
  lemma DropMoves(m0: Mem, m: Mem, pd: Ppn, i: nat, j: nat, k: nat, t: Ppn, i': nat, j': nat, m': Mem)
    requires Clearing(m0, m, pd, i, j, k) && Spent(m, t) && t in m.owner && !m.owner[t].Root?
    requires forall s {:trigger m0.owner[s]} | s in m0.owner ::
               Gone(pd, i', j', m0.owner[s]) <==> Gone(pd, i, j, m0.owner[s]) || s == t
    requires forall s {:trigger m0.owner[s]} | s in m0.owner && s != t :: !Current(pd, i, j, m0.owner[s])
    requires t in m.ref && m.ref[t] > 0 && m' == Drop(m, t)
    ensures Clearing(m0, m', pd, i', j', 0)
  {
    hide Spent, Gone, Current, OwnersLeft, EntriesLeft;
    DropInv(m, t);
    DropDead(m, t, m');
    hide Inv, DeadExact;
    DropOwners(m0, m, pd, i, j, t, i', j', m');
    DropEntries(m0, m, pd, i, j, k, t, i', j', m');
  }

  lemma DropOwners(m0: Mem, m: Mem, pd: Ppn, i: nat, j: nat, t: Ppn, i': nat, j': nat, m': Mem)
    requires OwnersLeft(m0, m, pd, i, j) && m'.owner == m.owner - {t}
    requires forall s {:trigger m0.owner[s]} | s in m0.owner ::
               Gone(pd, i', j', m0.owner[s]) <==> Gone(pd, i, j, m0.owner[s]) || s == t
    ensures OwnersLeft(m0, m', pd, i', j')
  {
    hide Gone;
  }

  lemma DropEntries(m0: Mem, m: Mem, pd: Ppn, i: nat, j: nat, k: nat, t: Ppn, i': nat, j': nat, m': Mem)
    requires EntriesLeft(m0, m, pd, i, j, k) && m'.owner == m.owner - {t} && m'.tab == m.tab - {t}
    requires forall s {:trigger m0.owner[s]} | s in m0.owner && s != t :: !Current(pd, i, j, m0.owner[s])
    ensures EntriesLeft(m0, m', pd, i', j', 0)
  {
    hide Current;
    assert forall s, x: Idx | s != t :: Ent(m'.tab, s, x) == Ent(m.tab, s, x);
  }

  lemma ClearAtLow(m0: Mem, pd: Ppn, m: Mem, i: Idx, j: Idx, m': Mem)
    requires Whole(m0) && IsRoot(m0.owner, pd) && Clearing(m0, m, pd, i, j, 512) && HasPath(m.tab, pd, Vpn(i, j, 0))
    requires var t := LowOf(m.tab, pd, Vpn(i, j, 0)); t in m.ref && m.ref[t] > 0 && t in m.owner && m' == Drop(m, t)
    ensures Clearing(m0, m', pd, i, j + 1, 0) && SameTarget(Ent(m'.tab, pd, i), Ent(m.tab, pd, i))
  {
    hide Whole, Clearing, Spent, Gone;
    var v := Vpn(i, j, 0);
    CurrentMid(m0, m, pd, i, j, 512);
    CurrentLow(m0, m, pd, v, 512);
    var t := LowOf(m.tab, pd, v);
    OneCurrent(m0, t, v);
    SpentLow(m0, pd, m, i, j, t);
    PastLow(m0, pd, i, j, t);
    DropMoves(m0, m, pd, i, j, 512, t, i, j + 1, m');
    assert Ent(m'.tab, pd, i) == Ent(m.tab, pd, i);
  }

  lemma SpentLow(m0: Mem, pd: Ppn, m: Mem, i: Idx, j: Idx, t: Ppn)
    requires Clearing(m0, m, pd, i, j, 512) && t in m.owner && t in m0.owner && m0.owner[t] == Low(pd, i, j)
    ensures Spent(m, t)
  {
    hide Inv, OwnersLeft, DeadExact;
    forall x: Idx ensures !Live(m.tab, m.dead, t, x) {
      assert Ent(m.tab, t, x) == ZERO_PTE;
    }
  }

  lemma PastLow(m0: Mem, pd: Ppn, i: Idx, j: Idx, t: Ppn)
    requires t in m0.owner && m0.owner[t] == Low(pd, i, j) && forall s | s in m0.owner && m0.owner[s] == m0.owner[t] :: s == t
    ensures forall s {:trigger m0.owner[s]} | s in m0.owner ::
              Gone(pd, i, j + 1, m0.owner[s]) <==> Gone(pd, i, j, m0.owner[s]) || s == t
    ensures forall s {:trigger m0.owner[s]} | s in m0.owner && s != t :: !Current(pd, i, j, m0.owner[s])
  {
  }

  lemma NoLow(m0: Mem, pd: Ppn, i: Idx, j: Idx, s: Ppn)
    requires Whole(m0) && s in m0.owner && m0.owner[s] == Low(pd, i, j)
    ensures HasPath(m0.tab, pd, Vpn(i, j, 0))
  {
    OwnerLeaf(m0.tab, m0.owner, {}, s, 0);
  }

  lemma SkipsLow(m0: Mem, pd: Ppn, m: Mem, i: Idx, j: Idx)
    requires Whole(m0) && IsRoot(m0.owner, pd) && Clearing(m0, m, pd, i, j, 0) && !HasPath(m.tab, pd, Vpn(i, j, 0))
    ensures Clearing(m0, m, pd, i, j + 1, 0)
  {
    CurrentLow(m0, m, pd, Vpn(i, j, 0), 0);
    forall s | s in m0.owner ensures m0.owner[s] != Low(pd, i, j) {
      if m0.owner[s] == Low(pd, i, j) { NoLow(m0, pd, i, j, s); }
    }
  }

  lemma ClearLows(m0: Mem, pd: Ppn)
    requires Whole(m0) && IsRoot(m0.owner, pd)
    ensures LowSteps(FreeCall(), pd, ClearCursor(m0, pd))
  {
    var tb, inv := FreeCall(), ClearCursor(m0, pd);
    forall m, i: Idx, j: Idx, m' | AtLow(tb, pd, m, i, j, m') && inv(m, i, j, 512)
      ensures inv(m', i, j + 1, 0) && SameTarget(Ent(m'.tab, pd, i), Ent(m.tab, pd, i))
    {
      ClearAtLow(m0, pd, m, i, j, m');
    }
    forall m, i: Idx, j: Idx | inv(m, i, j, 0) && Ent(m.tab, pd, i).v && !HasPath(m.tab, pd, Vpn(i, j, 0))
      ensures inv(m, i, j + 1, 0)
    {
      SkipsLow(m0, pd, m, i, j);
    }
  }

  /** Every leaf table below middle table i is gone, so none of its entries is live. */
  lemma SpentMid(m0: Mem, pd: Ppn, m: Mem, i: Idx, t: Ppn)
    requires Whole(m0) && Clearing(m0, m, pd, i, 512, 0) && t in m.owner && t in m0.owner && m.owner[t] == m0.owner[t] == Mid(pd, i)
    ensures Spent(m, t)
  {
    forall x: Idx ensures !Live(m.tab, m.dead, t, x) {
      assert Ent(m.tab, t, x) == Ent(m0.tab, t, x);
      if Ent(m0.tab, t, x).v {
        assert Live(m0.tab, {}, t, x);
        assert Points(m0.tab, m0.owner, t, x);
        assert Ent(m0.tab, t, x).ppn !in m.owner;
        assert Orphan(m, Slot(t, x));
        assert Slot(t, x) in m.dead;
      }
    }
  }

  lemma OneMid(m0: Mem, t: Ppn)
    requires Whole(m0) && t in m0.owner && m0.owner[t].Mid?
    ensures forall s | s in m0.owner && m0.owner[s] == m0.owner[t] :: s == t
  {
    assert Hangs(m0.tab, m0.owner, {}, t);
    forall s | s in m0.owner && m0.owner[s] == m0.owner[t] ensures s == t {
      assert Hangs(m0.tab, m0.owner, {}, s);
    }
  }

  lemma ClearAtMid(m0: Mem, pd: Ppn, m: Mem, i: Idx, m': Mem)
    requires Whole(m0) && IsRoot(m0.owner, pd) && Clearing(m0, m, pd, i, 512, 0) && Ent(m.tab, pd, i).v
    requires var t := Ent(m.tab, pd, i).ppn; t in m.ref && m.ref[t] > 0 && t in m.owner && m' == Drop(m, t)
    ensures Clearing(m0, m', pd, i + 1, 0, 0)
  {
    hide Whole, Clearing, Spent, Gone;
    var t := Ent(m.tab, pd, i).ppn;
    CurrentMid(m0, m, pd, i, 512, 0);
    SpentMid(m0, pd, m, i, t);
    OneMid(m0, t);
    PastMid(m0, pd, i, t);
    DropMoves(m0, m, pd, i, 512, 0, t, i + 1, 0, m');
  }

  lemma PastMid(m0: Mem, pd: Ppn, i: Idx, t: Ppn)
    requires t in m0.owner && m0.owner[t] == Mid(pd, i) && forall s | s in m0.owner && m0.owner[s] == m0.owner[t] :: s == t
    ensures forall s {:trigger m0.owner[s]} | s in m0.owner ::
              Gone(pd, i + 1, 0, m0.owner[s]) <==> Gone(pd, i, 512, m0.owner[s]) || s == t
    ensures forall s {:trigger m0.owner[s]} | s in m0.owner && s != t :: !Current(pd, i, 512, m0.owner[s])
  {
  }

  lemma SkipsMid(m0: Mem, pd: Ppn, m: Mem, i: Idx)
    requires Whole(m0) && IsRoot(m0.owner, pd) && Clearing(m0, m, pd, i, 0, 0) && !Ent(m.tab, pd, i).v
    ensures Clearing(m0, m, pd, i + 1, 0, 0)
  {
    CurrentMid(m0, m, pd, i, 0, 0);
    forall s | s in m0.owner ensures !(!m0.owner[s].Root? && m0.owner[s].pd == pd && m0.owner[s].i == i) {
      assert Hangs(m0.tab, m0.owner, {}, s);
    }
  }

  lemma ClearMids(m0: Mem, pd: Ppn)
    requires Whole(m0) && IsRoot(m0.owner, pd)
    ensures MidSteps(FreeCall(), pd, ClearCursor(m0, pd))
  {
    var tb, inv := FreeCall(), ClearCursor(m0, pd);
    forall m, i: Idx, m' | AtMid(tb, pd, m, i, m') && inv(m, i, 512, 0) ensures inv(m', i + 1, 0, 0) {
      ClearAtMid(m0, pd, m, i, m');
    }
    forall m, i: Idx | inv(m, i, 0, 0) && !Ent(m.tab, pd, i).v ensures inv(m, i + 1, 0, 0) {
      SkipsMid(m0, pd, m, i);
    }
  }

  lemma ClearSafe(m0: Mem, pd: Ppn)
    requires Whole(m0) && IsRoot(m0.owner, pd)
    ensures Safe(UnmapCall(pd), FreeCall(), pd, ClearCursor(m0, pd))
  {
    var cb, tb, inv := UnmapCall(pd), FreeCall(), ClearCursor(m0, pd);
    forall m, i: Idx, j: Idx | inv(m, i, j, 512) && HasPath(m.tab, pd, Vpn(i, j, 0))
      ensures tb(m, LowOf(m.tab, pd, Vpn(i, j, 0))).Ok?
    {
      CurrentLow(m0, m, pd, Vpn(i, j, 0), 512);
      TableCount(m, LowOf(m.tab, pd, Vpn(i, j, 0)));
    }
    forall m, i: Idx | inv(m, i, 512, 0) && Ent(m.tab, pd, i).v ensures tb(m, Ent(m.tab, pd, i).ppn).Ok? {
      CurrentMid(m0, m, pd, i, 512, 0);
      TableCount(m, Ent(m.tab, pd, i).ppn);
    }
  }

  lemma ClearStart(m: Mem, pd: Ppn)
    requires Whole(m)
    ensures Clearing(m, m, pd, 0, 0, 0)
  {
    forall s: Slot ensures s in m.dead <==> Orphan(m, s) {
      if s.t in m.owner && Ent(m.tab, s.t, s.i).v { assert Live(m.tab, {}, s.t, s.i); }
    }
  }

  /** With all tables below it gone, only the directory itself has dead entries. */
  lemma DeadAtRoot(m0: Mem, m: Mem, pd: Ppn)
    requires Whole(m0) && IsRoot(m0.owner, pd) && Clearing(m0, m, pd, 512, 0, 0)
    ensures forall s | s in m.dead :: s.t == pd
    ensures pd in m.owner && Spent(m, pd)
  {
    assert pd in m.owner;
    forall s | s in m.dead ensures s.t == pd {
      assert Orphan(m, s);
      assert Ent(m.tab, s.t, s.i) == Ent(m0.tab, s.t, s.i);
      assert Live(m0.tab, {}, s.t, s.i);
      assert Points(m0.tab, m0.owner, s.t, s.i);
    }
    forall x: Idx ensures !Live(m.tab, m.dead, pd, x) {
      assert Ent(m.tab, pd, x) == Ent(m0.tab, pd, x);
      if Ent(m0.tab, pd, x).v {
        assert Live(m0.tab, {}, pd, x);
        assert Orphan(m, Slot(pd, x));
        assert Slot(pd, x) in m.dead;
      }
    }
  }

  /** The address space of pd is gone, and with it exactly the references its tables held. */
  ghost predicate Recycled(m0: Mem, m: Mem, pd: Ppn) {
    && Whole(m) && SameRest(m0, m) && m.hold == m0.hold[pd := 0]
    && (forall t {:trigger t in m.owner} :: t in m.owner <==> t in m0.owner && !Under(m0.owner, t, pd))
    && (forall t {:trigger m.owner[t]} | t in m.owner :: m.owner[t] == m0.owner[t])
    && (forall t, x: Idx {:trigger Ent(m.tab, t, x)} | t in m.owner && t in m0.owner :: Ent(m.tab, t, x) == Ent(m0.tab, t, x))
  }

  lemma RootDropped(m0: Mem, m: Mem, pd: Ppn)
    requires Whole(m0) && IsRoot(m0.owner, pd) && Clearing(m0, m, pd, 512, 0, 0)
    ensures pd in m.ref && m.ref[pd] == 1 && pd in m.owner && Recycled(m0, Drop(m, pd), pd)
  {
    DeadAtRoot(m0, m, pd);
    DropInv(m, pd);
    RootFrame(m0, m, pd, Drop(m, pd));
  }

  lemma RootFrame(m0: Mem, m: Mem, pd: Ppn, m': Mem)
    requires IsRoot(m0.owner, pd) && SameRest(m0, m) && m.hold == m0.hold && pd in m.hold
    requires OwnersLeft(m0, m, pd, 512, 0) && EntriesLeft(m0, m, pd, 512, 0, 0)
    requires forall s | s in m.dead :: s.t == pd
    requires pd in m.ref && m.ref[pd] == 1 && pd in m.owner && m' == Drop(m, pd) && Inv(m')
    ensures Recycled(m0, m', pd)
  {
    hide Inv;
    assert m.owner[pd] == m0.owner[pd];
    assert m'.dead == {};
    assert forall s, x: Idx | s != pd :: Ent(m'.tab, s, x) == Ent(m.tab, s, x);
  }

  /** proc_recycleupt never panics, and removes one address space and nothing else. */
  lemma RecycleRemoves(m: Mem, pd: Ppn)
    requires Whole(m) && IsRoot(m.owner, pd)
    ensures RecycleSpace(m, pd).Ok? && Recycled(m, RecycleSpace(m, pd).value, pd)
  {
    var cb, tb, inv := UnmapCall(pd), FreeCall(), ClearCursor(m, pd);
    ClearPages(m, pd);
    ClearLows(m, pd);
    ClearMids(m, pd);
    ClearSafe(m, pd);
    ClearStart(m, pd);
    assert inv(m, 0, 0, 0);
    WalkOk(cb, tb, pd, inv, m, 0);
    var m1 := WalkRoot(cb, tb, m, pd, 0).value;
    WalkRule(cb, tb, pd, inv, m, 0, m1);
    RootDropped(m, m1, pd);
  }

  // ---- what the other processes see ----------------------------------------------------

  lemma RecycledLookup(m: Mem, m': Mem, pd: Ppn, q: Ppn, u: Vpn)
    requires Whole(m) && Recycled(m, m', pd) && IsRoot(m.owner, q) && IsRoot(m.owner, pd) && q != pd
    ensures Lookup(m'.tab, q, u) == Lookup(m.tab, q, u)
  {
    assert q in m'.owner;
    if Ent(m.tab, q, u.i).v {
      MidOwner(m, q, u);
      var t := MidOf(m.tab, q, u);
      assert t in m'.owner;
      assert Ent(m'.tab, t, u.j) == Ent(m.tab, t, u.j);
      if Ent(m.tab, t, u.j).v {
        LeafOwner(m.tab, m.owner, q, u);
        assert LowOf(m.tab, q, u) in m'.owner;
      }
    }
  }

  lemma RecycledRoots(m: Mem, m': Mem, pd: Ppn)
    requires Recycled(m, m', pd) && IsRoot(m.owner, pd)
    ensures forall q :: IsRoot(m'.owner, q) <==> IsRoot(m.owner, q) && q != pd
  {
    forall q ensures IsRoot(m'.owner, q) <==> IsRoot(m.owner, q) && q != pd {
      assert q in m'.owner <==> q in m.owner && !Under(m.owner, q, pd);
    }
  }

  lemma RecycledCow(m: Mem, m': Mem, pd: Ppn)
    requires UserOk(m) && Recycled(m, m', pd) && IsRoot(m.owner, pd)
    ensures CowOk(m') && UserPages(m')
  {
    RecycledRoots(m, m', pd);
    forall a, b, u: Vpn, w: Vpn | IsRoot(m'.owner, a) && IsRoot(m'.owner, b) && !(a == b && u == w)
      ensures Apart(Lookup(m'.tab, a, u), Lookup(m'.tab, b, w))
    {
      RecycledLookup(m, m', pd, a, u);
      RecycledLookup(m, m', pd, b, w);
      assert Apart(Lookup(m.tab, a, u), Lookup(m.tab, b, w));
    }
    forall q, u: Vpn | IsRoot(m'.owner, q) ensures UserEntry(m'.boot, u, Lookup(m'.tab, q, u)) {
      RecycledLookup(m, m', pd, q, u);
    }
  }

  lemma RecycledBoot(m: Mem, m': Mem, pd: Ppn)
    requires BootHeld(m) && Recycled(m, m', pd) && IsRoot(m.owner, pd) && TreeOk(m.tab, m.owner, m.dead)
    ensures BootHeld(m')
  {
    forall f | f in m'.boot ensures f in m'.hold && m'.hold[f] > 0 && f !in m'.tab {
      assert f !in m'.owner;
    }
  }

  lemma RecycledViews(m: Mem, m': Mem, pd: Ppn)
    requires Whole(m) && Recycled(m, m', pd) && IsRoot(m.owner, pd)
    ensures Exited(SimpleOf(m), pd, SimpleOf(m'))
  {
    hide Whole, Lookup, ViewOf, KindsOf;
    RecycledRoots(m, m', pd);
    forall q | IsRoot(m'.owner, q) ensures ViewOf(m', q) == ViewOf(m, q) && KindsOf(m', q) == KindsOf(m, q) {
      RecycledView(m, m', pd, q);
    }
    ExitedBy(m, m', pd);
  }

  lemma RecycledView(m: Mem, m': Mem, pd: Ppn, q: Ppn)
    requires Whole(m) && Recycled(m, m', pd) && IsRoot(m.owner, pd) && IsRoot(m.owner, q) && q != pd
    ensures ViewOf(m', q) == ViewOf(m, q) && KindsOf(m', q) == KindsOf(m, q)
  {
    forall u: Vpn ensures Lookup(m'.tab, q, u) == Lookup(m.tab, q, u) {
      RecycledLookup(m, m', pd, q, u);
    }
    SameViewOf(m, m', q);
    SameKindsOf(m, m', q);
  }

  lemma ExitedBy(m: Mem, m': Mem, pd: Ppn)
    requires IsRoot(m.owner, pd) && (forall q :: IsRoot(m'.owner, q) <==> IsRoot(m.owner, q) && q != pd)
    requires forall q | IsRoot(m'.owner, q) :: ViewOf(m', q) == ViewOf(m, q) && KindsOf(m', q) == KindsOf(m, q)
    ensures Exited(SimpleOf(m), pd, SimpleOf(m'))
  {
    hide ViewOf, KindsOf;
    assert AllViews(m') == Without(AllViews(m), pd);
    assert AllKinds(m') == Without(AllKinds(m), pd);
  }

  /** In the simple system, exit removes one process and no other process sees a change. */
  lemma RecycleViews(m: Mem, pd: Ppn)
    requires UserOk(m) && IsRoot(m.owner, pd)
    ensures RecycleSpace(m, pd).Ok? && UserOk(RecycleSpace(m, pd).value)
    ensures Exited(SimpleOf(m), pd, SimpleOf(RecycleSpace(m, pd).value))
  {
    hide RecycleSpace, AllViews, AllKinds;
    RecycleRemoves(m, pd);
    var m' := RecycleSpace(m, pd).value;
    RecycledCow(m, m', pd);
    RecycledBoot(m, m', pd);
    RecycledViews(m, m', pd);
  }
}
