/**
 pdWalk: the traversal of one address space's tables that calls back for every
 page with an entry and for every table, and the rule by which a statement about
 single callbacks becomes a statement about the whole traversal.
 */
module TableWalk {
  import opened Panics
  import opened Sv39
  import opened PageTables
  import opened VmState

  /** Called with the page number of a nonzero leaf entry. */
  type PageCall = (Mem, Vpn) -> Res<Mem>

  /** Called with a table once all that hangs below it has been dealt with. */
  type TableCall = (Mem, Ppn) -> Res<Mem>

  /** The innermost loop: the entries of leaf table t from k on. */
  ghost function WalkLow(cb: PageCall, m: Mem, t: Ppn, i: Idx, j: Idx, k: nat): Res<Mem>
    decreases 512 - k
  {
    if k >= 512 then Ok(m) else
    var m1 :- if Ent(m.tab, t, k) == ZERO_PTE then Ok(m) else cb(m, Vpn(i, j, k));
    WalkLow(cb, m1, t, i, j, k + 1)
  }

  ghost function LowTable(cb: PageCall, tb: TableCall, m: Mem, t: Ppn, i: Idx, j: Idx): Res<Mem> {
    var m1 :- WalkLow(cb, m, t, i, j, 0);
    tb(m1, t)
  }

  /** The middle loop: the entries of middle table t from j on. */
  ghost function WalkMid(cb: PageCall, tb: TableCall, m: Mem, t: Ppn, i: Idx, j: nat): Res<Mem>
    decreases 512 - j
  {
    if j >= 512 then Ok(m) else
    var m1 :- if Ent(m.tab, t, j).v then LowTable(cb, tb, m, Ent(m.tab, t, j).ppn, i, j) else Ok(m);
    WalkMid(cb, tb, m1, t, i, j + 1)
  }

  ghost function MidTable(cb: PageCall, tb: TableCall, m: Mem, t: Ppn, i: Idx): Res<Mem> {
    var m1 :- WalkMid(cb, tb, m, t, i, 0);
    tb(m1, t)
  }

  /** The outermost loop: the entries of the directory from i on. */
  ghost function WalkRoot(cb: PageCall, tb: TableCall, m: Mem, pd: Ppn, i: nat): Res<Mem>
    decreases 512 - i
  {
    if i >= 512 then Ok(m) else
    var m1 :- if Ent(m.tab, pd, i).v then MidTable(cb, tb, m, Ent(m.tab, pd, i).ppn, i) else Ok(m);
    WalkRoot(cb, tb, m1, pd, i + 1)
  }

  /** pdWalk */
  ghost function PdWalk(cb: PageCall, tb: TableCall, m: Mem, pd: Ppn): Res<Mem> {
    var m1 :- WalkRoot(cb, tb, m, pd, 0);
    tb(m1, pd)
  }

  /** A null table callback. */
  ghost function NoTable(): TableCall {
    (m, t) => Ok(m)
  }

  // ---- the rule ---------------------------------------------------------------------

  /**
   What holds when the traversal stands at (i, j, k): k == 512 is the callback for
   leaf table (i, j), and j == 512 the one for middle table i.
   */
  type Cursor = (Mem, nat, nat, nat) -> bool

  ghost predicate AtPage(cb: PageCall, pd: Ppn, m: Mem, v: Vpn, m': Mem) {
    && HasPath(m.tab, pd, v)
    && if Ent(m.tab, LowOf(m.tab, pd, v), v.k) == ZERO_PTE then m' == m else cb(m, v) == Ok(m')
  }

  ghost predicate AtLow(tb: TableCall, pd: Ppn, m: Mem, i: Idx, j: Idx, m': Mem) {
    HasPath(m.tab, pd, Vpn(i, j, 0)) && tb(m, LowOf(m.tab, pd, Vpn(i, j, 0))) == Ok(m')
  }

  ghost predicate AtMid(tb: TableCall, pd: Ppn, m: Mem, i: Idx, m': Mem) {
    Ent(m.tab, pd, i).v && tb(m, Ent(m.tab, pd, i).ppn) == Ok(m')
  }

  ghost predicate SamePath(m: Mem, m': Mem, pd: Ppn, v: Vpn) {
    && SameTarget(Ent(m'.tab, pd, v.i), Ent(m.tab, pd, v.i))
    && SameTarget(Ent(m'.tab, MidOf(m.tab, pd, v), v.j), Ent(m.tab, MidOf(m.tab, pd, v), v.j))
  }

  ghost predicate PageSteps(cb: PageCall, pd: Ppn, inv: Cursor) {
    forall m, v: Vpn, m' {:trigger AtPage(cb, pd, m, v, m')} | AtPage(cb, pd, m, v, m') && inv(m, v.i, v.j, v.k) ::
      inv(m', v.i, v.j, v.k + 1) && SamePath(m, m', pd, v)
  }

  ghost predicate LowSteps(tb: TableCall, pd: Ppn, inv: Cursor) {
    && (forall m, i: Idx, j: Idx, m' {:trigger AtLow(tb, pd, m, i, j, m')} | AtLow(tb, pd, m, i, j, m') && inv(m, i, j, 512) ::
          inv(m', i, j + 1, 0) && SameTarget(Ent(m'.tab, pd, i), Ent(m.tab, pd, i)))
    && (forall m, i: Idx, j: Idx {:trigger inv(m, i, j, 0)} |
          inv(m, i, j, 0) && Ent(m.tab, pd, i).v && !HasPath(m.tab, pd, Vpn(i, j, 0)) :: inv(m, i, j + 1, 0))
  }

  ghost predicate MidSteps(tb: TableCall, pd: Ppn, inv: Cursor) {
    && (forall m, i: Idx, m' {:trigger AtMid(tb, pd, m, i, m')} | AtMid(tb, pd, m, i, m') && inv(m, i, 512, 0) ::
          inv(m', i + 1, 0, 0))
    && (forall m, i: Idx {:trigger inv(m, i, 0, 0)} |
          inv(m, i, 0, 0) && !Ent(m.tab, pd, i).v :: inv(m, i + 1, 0, 0))
  }

  lemma {:induction false} WalkLowRule(cb: PageCall, pd: Ppn, inv: Cursor, m: Mem, t: Ppn, i: Idx, j: Idx, k: nat, m': Mem)
    requires PageSteps(cb, pd, inv) && k <= 512 && inv(m, i, j, k)
    requires HasPath(m.tab, pd, Vpn(i, j, 0)) && t == LowOf(m.tab, pd, Vpn(i, j, 0))
    requires WalkLow(cb, m, t, i, j, k) == Ok(m')
    ensures inv(m', i, j, 512) && SamePath(m, m', pd, Vpn(i, j, 0))
    decreases 512 - k
  {
    if k < 512 {
      var m1 := if Ent(m.tab, t, k) == ZERO_PTE then m else cb(m, Vpn(i, j, k)).value;
      assert AtPage(cb, pd, m, Vpn(i, j, k), m1);
      WalkLowRule(cb, pd, inv, m1, t, i, j, k + 1, m');
    }
  }

  lemma LowTableRule(cb: PageCall, tb: TableCall, pd: Ppn, inv: Cursor, m: Mem, t: Ppn, i: Idx, j: Idx, m': Mem)
    requires PageSteps(cb, pd, inv) && LowSteps(tb, pd, inv) && inv(m, i, j, 0)
    requires HasPath(m.tab, pd, Vpn(i, j, 0)) && t == LowOf(m.tab, pd, Vpn(i, j, 0))
    requires LowTable(cb, tb, m, t, i, j) == Ok(m')
    ensures inv(m', i, j + 1, 0) && SameTarget(Ent(m'.tab, pd, i), Ent(m.tab, pd, i))
  {
    var m1 := WalkLow(cb, m, t, i, j, 0).value;
    WalkLowRule(cb, pd, inv, m, t, i, j, 0, m1);
    assert AtLow(tb, pd, m1, i, j, m');
  }

  lemma {:induction false} WalkMidRule(cb: PageCall, tb: TableCall, pd: Ppn, inv: Cursor, m: Mem, t: Ppn, i: Idx, j: nat, m': Mem)
    requires PageSteps(cb, pd, inv) && LowSteps(tb, pd, inv) && j <= 512 && inv(m, i, j, 0)
    requires Ent(m.tab, pd, i).v && t == Ent(m.tab, pd, i).ppn
    requires WalkMid(cb, tb, m, t, i, j) == Ok(m')
    ensures inv(m', i, 512, 0) && SameTarget(Ent(m'.tab, pd, i), Ent(m.tab, pd, i))
    decreases 512 - j
  {
    if j < 512 {
      var m1 := if Ent(m.tab, t, j).v then LowTable(cb, tb, m, Ent(m.tab, t, j).ppn, i, j).value else m;
      if Ent(m.tab, t, j).v {
        LowTableRule(cb, tb, pd, inv, m, Ent(m.tab, t, j).ppn, i, j, m1);
      }
      WalkMidRule(cb, tb, pd, inv, m1, t, i, j + 1, m');
    }
  }

  lemma MidTableRule(cb: PageCall, tb: TableCall, pd: Ppn, inv: Cursor, m: Mem, t: Ppn, i: Idx, m': Mem)
    requires PageSteps(cb, pd, inv) && LowSteps(tb, pd, inv) && MidSteps(tb, pd, inv) && inv(m, i, 0, 0)
    requires Ent(m.tab, pd, i).v && t == Ent(m.tab, pd, i).ppn
    requires MidTable(cb, tb, m, t, i) == Ok(m')
    ensures inv(m', i + 1, 0, 0)
  {
    var m1 := WalkMid(cb, tb, m, t, i, 0).value;
    WalkMidRule(cb, tb, pd, inv, m, t, i, 0, m1);
    assert AtMid(tb, pd, m1, i, m');
  }

  /**
   If every callback moves the invariant from where the traversal stands to the
   next place, the whole traversal moves it from the first place to the last.
   */
  lemma {:induction false} WalkRule(cb: PageCall, tb: TableCall, pd: Ppn, inv: Cursor, m: Mem, i: nat, m': Mem)
    requires PageSteps(cb, pd, inv) && LowSteps(tb, pd, inv) && MidSteps(tb, pd, inv)
    requires i <= 512 && inv(m, i, 0, 0) && WalkRoot(cb, tb, m, pd, i) == Ok(m')
    ensures inv(m', 512, 0, 0)
    decreases 512 - i
  {
    if i < 512 {
      var m1 := if Ent(m.tab, pd, i).v then MidTable(cb, tb, m, Ent(m.tab, pd, i).ppn, i).value else m;
      if Ent(m.tab, pd, i).v {
        MidTableRule(cb, tb, pd, inv, m, Ent(m.tab, pd, i).ppn, i, m1);
      }
      WalkRule(cb, tb, pd, inv, m1, i + 1, m');
    }
  }

  // ---- traversals that cannot panic ----------------------------------------------------

  /** No callback panics where the invariant holds. */
  ghost predicate Safe(cb: PageCall, tb: TableCall, pd: Ppn, inv: Cursor) {
    && (forall m, v: Vpn {:trigger cb(m, v)} |
          inv(m, v.i, v.j, v.k) && HasPath(m.tab, pd, v) && Ent(m.tab, LowOf(m.tab, pd, v), v.k) != ZERO_PTE :: cb(m, v).Ok?)
    && (forall m, i: Idx, j: Idx {:trigger inv(m, i, j, 512)} |
          inv(m, i, j, 512) && HasPath(m.tab, pd, Vpn(i, j, 0)) :: tb(m, LowOf(m.tab, pd, Vpn(i, j, 0))).Ok?)
    && (forall m, i: Idx {:trigger inv(m, i, 512, 0)} |
          inv(m, i, 512, 0) && Ent(m.tab, pd, i).v :: tb(m, Ent(m.tab, pd, i).ppn).Ok?)
  }

  lemma {:induction false} WalkLowOk(cb: PageCall, tb: TableCall, pd: Ppn, inv: Cursor, m: Mem, t: Ppn, i: Idx, j: Idx, k: nat)
    requires PageSteps(cb, pd, inv) && Safe(cb, tb, pd, inv) && k <= 512 && inv(m, i, j, k)
    requires HasPath(m.tab, pd, Vpn(i, j, 0)) && t == LowOf(m.tab, pd, Vpn(i, j, 0))
    ensures WalkLow(cb, m, t, i, j, k).Ok?
    decreases 512 - k
  {
    if k < 512 {
      var v := Vpn(i, j, k);
      assert Ent(m.tab, t, k) != ZERO_PTE ==> cb(m, v).Ok?;
      var m1 := if Ent(m.tab, t, k) == ZERO_PTE then m else cb(m, v).value;
      assert AtPage(cb, pd, m, v, m1);
      WalkLowOk(cb, tb, pd, inv, m1, t, i, j, k + 1);
    }
  }

  lemma LowTableOk(cb: PageCall, tb: TableCall, pd: Ppn, inv: Cursor, m: Mem, t: Ppn, i: Idx, j: Idx)
    requires PageSteps(cb, pd, inv) && Safe(cb, tb, pd, inv) && inv(m, i, j, 0)
    requires HasPath(m.tab, pd, Vpn(i, j, 0)) && t == LowOf(m.tab, pd, Vpn(i, j, 0))
    ensures LowTable(cb, tb, m, t, i, j).Ok?
  {
    WalkLowOk(cb, tb, pd, inv, m, t, i, j, 0);
    var m1 := WalkLow(cb, m, t, i, j, 0).value;
    WalkLowRule(cb, pd, inv, m, t, i, j, 0, m1);
  }

  lemma {:induction false} WalkMidOk(cb: PageCall, tb: TableCall, pd: Ppn, inv: Cursor, m: Mem, t: Ppn, i: Idx, j: nat)
    requires PageSteps(cb, pd, inv) && LowSteps(tb, pd, inv) && Safe(cb, tb, pd, inv) && j <= 512 && inv(m, i, j, 0)
    requires Ent(m.tab, pd, i).v && t == Ent(m.tab, pd, i).ppn
    ensures WalkMid(cb, tb, m, t, i, j).Ok?
    decreases 512 - j
  {
    if j < 512 {
      var m1 := m;
      if Ent(m.tab, t, j).v {
        LowTableOk(cb, tb, pd, inv, m, Ent(m.tab, t, j).ppn, i, j);
        m1 := LowTable(cb, tb, m, Ent(m.tab, t, j).ppn, i, j).value;
        LowTableRule(cb, tb, pd, inv, m, Ent(m.tab, t, j).ppn, i, j, m1);
      }
      WalkMidOk(cb, tb, pd, inv, m1, t, i, j + 1);
    }
  }

  lemma MidTableOk(cb: PageCall, tb: TableCall, pd: Ppn, inv: Cursor, m: Mem, t: Ppn, i: Idx)
    requires PageSteps(cb, pd, inv) && LowSteps(tb, pd, inv) && Safe(cb, tb, pd, inv) && inv(m, i, 0, 0)
    requires Ent(m.tab, pd, i).v && t == Ent(m.tab, pd, i).ppn
    ensures MidTable(cb, tb, m, t, i).Ok?
  {
    WalkMidOk(cb, tb, pd, inv, m, t, i, 0);
    var m1 := WalkMid(cb, tb, m, t, i, 0).value;
    WalkMidRule(cb, tb, pd, inv, m, t, i, 0, m1);
  }

  /** And then the whole traversal does not panic either. */
  lemma {:induction false} WalkOk(cb: PageCall, tb: TableCall, pd: Ppn, inv: Cursor, m: Mem, i: nat)
    requires PageSteps(cb, pd, inv) && LowSteps(tb, pd, inv) && MidSteps(tb, pd, inv) && Safe(cb, tb, pd, inv)
    requires i <= 512 && inv(m, i, 0, 0)
    ensures WalkRoot(cb, tb, m, pd, i).Ok?
    decreases 512 - i
  {
    if i < 512 {
      var m1 := m;
      if Ent(m.tab, pd, i).v {
        MidTableOk(cb, tb, pd, inv, m, Ent(m.tab, pd, i).ppn, i);
        m1 := MidTable(cb, tb, m, Ent(m.tab, pd, i).ppn, i).value;
        MidTableRule(cb, tb, pd, inv, m, Ent(m.tab, pd, i).ppn, i, m1);
      }
      WalkOk(cb, tb, pd, inv, m1, i + 1);
    }
  }
}
