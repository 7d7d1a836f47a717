/**
 Page tables as values: what a table tree is, what a walk through it finds, and
 how single writes change both.  The kernel state itself is the class in vm.dfy.
 */
module PageTables {
  import opened Sv39

  type Ppn = nat

  /** The frames in use as tables, with their 512 entries. */
  type Tables = map<Ppn, seq<Pte>>

  /** Where a table hangs: the directory of an address space, or below one of its entries. */
  datatype Node = Root | Mid(pd: Ppn, i: Idx) | Low(pd: Ppn, i: Idx, j: Idx)

  type Owners = map<Ppn, Node>

  /** One entry of one table. */
  datatype Slot = Slot(t: Ppn, i: Idx)

  function ZeroTable(): (s: seq<Pte>)
    ensures |s| == PAGE_INDEX_MAX && forall i | 0 <= i < |s| :: s[i] == ZERO_PTE
  {
    seq(PAGE_INDEX_MAX, _ => ZERO_PTE)
  }

  /** Entry i of table t; a frame that holds no table reads as zeros. */
  function Ent(tab: Tables, t: Ppn, i: Idx): Pte {
    if t in tab && i < |tab[t]| then tab[t][i] else ZERO_PTE
  }

  /** The table a directory walk reaches after one step and after two. */
  function MidOf(tab: Tables, pd: Ppn, v: Vpn): Ppn {
    Ent(tab, pd, v.i).ppn
  }

  function LowOf(tab: Tables, pd: Ppn, v: Vpn): Ppn {
    Ent(tab, MidOf(tab, pd, v), v.j).ppn
  }

  /** Both upper levels exist for v. */
  predicate HasPath(tab: Tables, pd: Ppn, v: Vpn) {
    Ent(tab, pd, v.i).v && Ent(tab, MidOf(tab, pd, v), v.j).v
  }

  /** The flat map that a directory stands for: every page number has an entry, possibly zero. */
  function Lookup(tab: Tables, pd: Ppn, v: Vpn): Pte {
    if HasPath(tab, pd, v) then Ent(tab, LowOf(tab, pd, v), v.k) else ZERO_PTE
  }

  function SetEnt(tab: Tables, t: Ppn, i: Idx, p: Pte): Tables
    requires t in tab && |tab[t]| == PAGE_INDEX_MAX
  {
    tab[t := tab[t][i := p]]
  }

  /** A valid entry that has not been given up; entries in dead belong to tables being taken apart. */
  ghost predicate Live(tab: Tables, dead: set<Slot>, t: Ppn, i: Idx) {
    t in tab && Ent(tab, t, i).v && Slot(t, i) !in dead
  }

  ghost predicate IsRoot(owner: Owners, pd: Ppn) {
    pd in owner && owner[pd].Root?
  }

  /** Each table hangs in exactly the place its owner entry names. */
  ghost predicate Hangs(tab: Tables, owner: Owners, dead: set<Slot>, t: Ppn)
    requires t in owner
  {
    match owner[t]
    case Root => true
    case Mid(pd, i) =>
      IsRoot(owner, pd) && Live(tab, dead, pd, i) && Ent(tab, pd, i).ppn == t
    case Low(pd, i, j) =>
      var m := Ent(tab, pd, i).ppn;
      && IsRoot(owner, pd) && Live(tab, dead, pd, i)
      && m in owner && owner[m] == Mid(pd, i)
      && Live(tab, dead, m, j) && Ent(tab, m, j).ppn == t
  }

  /** What a live entry of table t must point to: the table hanging there, or a frame that is no table. */
  ghost predicate Points(tab: Tables, owner: Owners, t: Ppn, i: Idx)
    requires t in owner
  {
    var f := Ent(tab, t, i).ppn;
    match owner[t]
    case Root => f in owner && owner[f] == Mid(t, i)
    case Mid(pd, i0) => f in owner && owner[f] == Low(pd, i0, i)
    case Low(_, _, _) => f !in owner
  }

  /** The tables form one tree per directory, all of them disjoint. */
  ghost predicate TreeOk(tab: Tables, owner: Owners, dead: set<Slot>) {
    && owner.Keys == tab.Keys
    && (forall t | t in tab :: |tab[t]| == PAGE_INDEX_MAX)
    && (forall t {:trigger Hangs(tab, owner, dead, t)} | t in owner :: Hangs(tab, owner, dead, t))
    && (forall t, i: Idx {:trigger Live(tab, dead, t, i)} | Live(tab, dead, t, i) :: Points(tab, owner, t, i))
    && (forall t, i: Idx | t in tab && !Ent(tab, t, i).v :: Ent(tab, t, i).ppn == 0)
    && (forall s | s in dead :: s.t in tab && !owner[s.t].Low? && Ent(tab, s.t, s.i).v
                                && Ent(tab, s.t, s.i).ppn !in tab)
  }

  /** The leaf entry that a page number is found in, when the tree is whole. */
  lemma LeafOwner(tab: Tables, owner: Owners, pd: Ppn, v: Vpn)
    requires TreeOk(tab, owner, {})
    requires IsRoot(owner, pd) && HasPath(tab, pd, v)
    ensures LowOf(tab, pd, v) in owner && owner[LowOf(tab, pd, v)] == Low(pd, v.i, v.j)
  {
    assert Live(tab, {}, pd, v.i);
    assert Live(tab, {}, MidOf(tab, pd, v), v.j);
  }

  /** And the other way round: a table hanging at Low(pd, i, j) is where walks to (i, j, _) of pd end. */
  lemma OwnerLeaf(tab: Tables, owner: Owners, dead: set<Slot>, t: Ppn, k: Idx)
    requires TreeOk(tab, owner, dead)
    requires t in owner && owner[t].Low?
    ensures var v := Vpn(owner[t].i, owner[t].j, k);
            && IsRoot(owner, owner[t].pd)
            && HasPath(tab, owner[t].pd, v) && LowOf(tab, owner[t].pd, v) == t
  {
    assert Hangs(tab, owner, dead, t);
  }

  /** Writing one leaf entry changes one page number of one address space, and keeps the tree. */
  lemma LeafWrite(tab: Tables, owner: Owners, dead: set<Slot>, t: Ppn, k: Idx, p: Pte)
    requires TreeOk(tab, owner, dead)
    requires t in owner && owner[t].Low?
    requires if p.v then p.ppn !in tab else p.ppn == 0
    ensures TreeOk(SetEnt(tab, t, k, p), owner, dead)
    ensures forall q, u {:trigger Lookup(SetEnt(tab, t, k, p), q, u)} | IsRoot(owner, q) ::
              Lookup(SetEnt(tab, t, k, p), q, u) ==
              if q == owner[t].pd && u == Vpn(owner[t].i, owner[t].j, k) then p else Lookup(tab, q, u)
  {
    var tab' := SetEnt(tab, t, k, p);
    assert forall s, i: Idx :: Ent(tab', s, i) == if s == t && i == k then p else Ent(tab, s, i);
    LeafWriteTree(tab, owner, dead, t, k, p);
    forall q, u | IsRoot(owner, q)
      ensures Lookup(tab', q, u) ==
              if q == owner[t].pd && u == Vpn(owner[t].i, owner[t].j, k) then p else Lookup(tab, q, u)
    {
      LeafWriteLookup(tab, owner, dead, t, k, p, q, u);
    }
  }

  lemma LeafWriteTree(tab: Tables, owner: Owners, dead: set<Slot>, t: Ppn, k: Idx, p: Pte)
    requires TreeOk(tab, owner, dead)
    requires t in owner && owner[t].Low?
    requires if p.v then p.ppn !in tab else p.ppn == 0
    ensures TreeOk(SetEnt(tab, t, k, p), owner, dead)
  {
    var tab' := SetEnt(tab, t, k, p);
    assert forall s, i: Idx :: Ent(tab', s, i) == if s == t && i == k then p else Ent(tab, s, i);
    forall s | s in owner ensures Hangs(tab', owner, dead, s) {
      assert Hangs(tab, owner, dead, s);
    }
    forall s, i: Idx | Live(tab', dead, s, i) ensures Points(tab', owner, s, i) {
      if s != t || i != k { assert Live(tab, dead, s, i); }
    }
  }

  lemma LeafWriteLookup(tab: Tables, owner: Owners, dead: set<Slot>, t: Ppn, k: Idx, p: Pte, q: Ppn, u: Vpn)
    requires TreeOk(tab, owner, dead)
    requires t in owner && owner[t].Low?
    requires if p.v then p.ppn !in tab else p.ppn == 0
    requires IsRoot(owner, q)
    ensures Lookup(SetEnt(tab, t, k, p), q, u) ==
            if q == owner[t].pd && u == Vpn(owner[t].i, owner[t].j, k) then p else Lookup(tab, q, u)
  {
    var tab' := SetEnt(tab, t, k, p);
    assert forall s, i: Idx :: Ent(tab', s, i) == if s == t && i == k then p else Ent(tab, s, i);
    assert Hangs(tab, owner, dead, t);
    if Ent(tab, q, u.i).v {
      var m := MidOf(tab, q, u);
      if Slot(q, u.i) in dead {
        assert m !in tab;
      } else {
        assert Live(tab, dead, q, u.i);
        assert owner[m] == Mid(q, u.i);
        if Ent(tab, m, u.j).v {
          if Slot(m, u.j) !in dead {
            assert Live(tab, dead, m, u.j);
          }
        }
      }
    }
  }

  /** The place a table takes when it is hung below entry i of table t. */
  function ChildNode(owner: Owners, t: Ppn, i: Idx): Node
    requires t in owner && !owner[t].Low?
  {
    if owner[t].Root? then Mid(t, i) else Low(owner[t].pd, owner[t].i, i)
  }

  function Hung(tab: Tables, t: Ppn, i: Idx, n: Ppn): Tables
    requires t in tab && |tab[t]| == PAGE_INDEX_MAX && n !in tab
  {
    SetEnt(tab[n := ZeroTable()], t, i, Pte(true, n, NO_PERM))
  }

  /** No live entry names frame n. */
  ghost predicate Unnamed(tab: Tables, n: Ppn) {
    forall s, j: Idx | Live(tab, {}, s, j) :: Ent(tab, s, j).ppn != n
  }

  /** Hanging a fresh zeroed table below an empty entry keeps the tree and changes no lookup. */
  lemma Grow(tab: Tables, owner: Owners, t: Ppn, i: Idx, n: Ppn)
    requires TreeOk(tab, owner, {})
    requires t in owner && !owner[t].Low? && !Ent(tab, t, i).v && n !in tab && Unnamed(tab, n)
    ensures TreeOk(Hung(tab, t, i, n), owner[n := ChildNode(owner, t, i)], {})
    ensures forall q, u {:trigger Lookup(Hung(tab, t, i, n), q, u)} | IsRoot(owner, q) ::
              Lookup(Hung(tab, t, i, n), q, u) == Lookup(tab, q, u)
  {
    var tab' := Hung(tab, t, i, n);
    GrowTree(tab, owner, t, i, n);
    forall q, u | IsRoot(owner, q) ensures Lookup(tab', q, u) == Lookup(tab, q, u) {
      GrowLookup(tab, owner, t, i, n, q, u);
    }
  }

  lemma GrowEnt(tab: Tables, t: Ppn, i: Idx, n: Ppn)
    requires t in tab && |tab[t]| == PAGE_INDEX_MAX && n !in tab
    ensures forall s, j: Idx :: Ent(Hung(tab, t, i, n), s, j)
                                == if s == t && j == i then Pte(true, n, NO_PERM) else Ent(tab, s, j)
  {
  }

  lemma GrowTree(tab: Tables, owner: Owners, t: Ppn, i: Idx, n: Ppn)
    requires TreeOk(tab, owner, {})
    requires t in owner && !owner[t].Low? && !Ent(tab, t, i).v && n !in tab && Unnamed(tab, n)
    ensures TreeOk(Hung(tab, t, i, n), owner[n := ChildNode(owner, t, i)], {})
  {
    var tab', owner' := Hung(tab, t, i, n), owner[n := ChildNode(owner, t, i)];
    GrowEnt(tab, t, i, n);
    assert Hangs(tab, owner, {}, t);
    forall s | s in owner' ensures Hangs(tab', owner', {}, s) {
      if s != n { assert Hangs(tab, owner, {}, s); }
    }
    forall s, j: Idx | Live(tab', {}, s, j) ensures Points(tab', owner', s, j) {
      if s != t || j != i { assert Live(tab, {}, s, j); }
    }
  }

  lemma GrowLookup(tab: Tables, owner: Owners, t: Ppn, i: Idx, n: Ppn, q: Ppn, u: Vpn)
    requires TreeOk(tab, owner, {})
    requires t in owner && !owner[t].Low? && !Ent(tab, t, i).v && n !in tab
    requires IsRoot(owner, q)
    ensures Lookup(Hung(tab, t, i, n), q, u) == Lookup(tab, q, u)
  {
    GrowEnt(tab, t, i, n);
    if Ent(tab, q, u.i).v {
      var m := MidOf(tab, q, u);
      assert Live(tab, {}, q, u.i);
      assert owner[m] == Mid(q, u.i);
      if Ent(tab, m, u.j).v {
        assert Live(tab, {}, m, u.j);
      }
    }
  }

  // ---- counting ------------------------------------------------------------

  /** The live entries that name frame f. */
  ghost function Slots(tab: Tables, dead: set<Slot>, f: Ppn): set<Slot> {
    set t, i: Idx | t in tab && 0 <= i < PAGE_INDEX_MAX && Live(tab, dead, t, i) && Ent(tab, t, i).ppn == f :: Slot(t, i)
  }

  function OneIf(b: bool): nat { if b then 1 else 0 }

  lemma CountWithout<T>(a: set<T>, b: set<T>, x: T)
    requires a - {x} == b - {x}
    ensures |a| + OneIf(x in b) == |b| + OneIf(x in a)
  {
    assert |a - {x}| + OneIf(x in a) == |a| by { if x !in a { assert a - {x} == a; } }
    assert |b - {x}| + OneIf(x in b) == |b| by { if x !in b { assert b - {x} == b; } }
  }

  /** Rewriting one live-or-empty entry moves one count from the old target to the new one. */
  lemma SlotsAfterWrite(tab: Tables, dead: set<Slot>, t: Ppn, i: Idx, p: Pte, f: Ppn)
    requires t in tab && |tab[t]| == PAGE_INDEX_MAX && Slot(t, i) !in dead
    ensures |Slots(SetEnt(tab, t, i, p), dead, f)| + OneIf(Ent(tab, t, i).v && Ent(tab, t, i).ppn == f)
            == |Slots(tab, dead, f)| + OneIf(p.v && p.ppn == f)
    ensures Ent(tab, t, i).v && Ent(tab, t, i).ppn == f ==> |Slots(tab, dead, f)| > 0
  {
    var tab' := SetEnt(tab, t, i, p);
    var s := Slot(t, i);
    assert forall u, j: Idx :: Ent(tab', u, j) == if u == t && j == i then p else Ent(tab, u, j);
    var old', new' := Slots(tab, dead, f), Slots(tab', dead, f);
    assert old' - {s} == new' - {s};
    assert s in old' <==> Ent(tab, t, i).v && Ent(tab, t, i).ppn == f;
    assert s in new' <==> p.v && p.ppn == f;
    CountWithout(old', new', s);
  }

  /** An empty table contributes nothing. */
  lemma SlotsAfterGrow(tab: Tables, dead: set<Slot>, t: Ppn, f: Ppn)
    requires t !in tab
    ensures Slots(tab[t := ZeroTable()], dead, f) == Slots(tab, dead, f)
  {
    var tab' := tab[t := ZeroTable()];
    assert forall u, j: Idx :: Ent(tab', u, j) == Ent(tab, u, j);
  }
}
