/**
 Which pages pdWalk calls back for (kern/mm/vmtools.c): those with a nonzero entry,
 each once, in ascending order of their addresses.
 */
module PageVisits {
  import opened Panics
  import opened Sv39
  import opened PageTables
  import opened VmState
  import opened TableWalk

  ghost function LowPages(tab: Tables, t: Ppn, i: Idx, j: Idx, k: nat): seq<Vpn>
    decreases 512 - k
  {
    if k >= 512 then []
    else (if Ent(tab, t, k) == ZERO_PTE then [] else [Vpn(i, j, k)]) + LowPages(tab, t, i, j, k + 1)
  }

  ghost function MidPages(tab: Tables, t: Ppn, i: Idx, j: nat): seq<Vpn>
    decreases 512 - j
  {
    if j >= 512 then []
    else (if Ent(tab, t, j).v then LowPages(tab, Ent(tab, t, j).ppn, i, j, 0) else []) + MidPages(tab, t, i, j + 1)
  }

  ghost function RootPages(tab: Tables, pd: Ppn, i: nat): seq<Vpn>
    decreases 512 - i
  {
    if i >= 512 then []
    else (if Ent(tab, pd, i).v then MidPages(tab, Ent(tab, pd, i).ppn, i, 0) else []) + RootPages(tab, pd, i + 1)
  }

  /** The pages pdWalk visits, in its order. */
  ghost function Visited(tab: Tables, pd: Ppn): seq<Vpn> {
    RootPages(tab, pd, 0)
  }

  // ---- each page with an entry, once, in order ---------------------------------------------------------

  predicate Below(a: Vpn, b: Vpn) {
    a.i < b.i || (a.i == b.i && (a.j < b.j || (a.j == b.j && a.k < b.k)))
  }

  ghost predicate Ascending(s: seq<Vpn>) {
    forall x, y {:trigger s[x], s[y]} | 0 <= x < y < |s| :: Below(s[x], s[y])
  }

  lemma Join(a: seq<Vpn>, b: seq<Vpn>)
    requires Ascending(a) && Ascending(b) && forall x, y | x in a && y in b :: Below(x, y)
    ensures Ascending(a + b) && forall v :: v in a + b <==> v in a || v in b
  {
    forall x, y | 0 <= x < y < |a + b| ensures Below((a + b)[x], (a + b)[y]) {
      if x < |a| && |a| <= y { assert a[x] in a && b[y - |a|] in b; }
    }
  }

  lemma {:induction false} LowExact(tab: Tables, t: Ppn, i: Idx, j: Idx, k: nat)
    ensures Ascending(LowPages(tab, t, i, j, k))
    ensures forall v {:trigger v in LowPages(tab, t, i, j, k)} ::
              v in LowPages(tab, t, i, j, k) <==> v.i == i && v.j == j && v.k >= k && Ent(tab, t, v.k) != ZERO_PTE
    decreases 512 - k
  {
    if k < 512 {
      LowExact(tab, t, i, j, k + 1);
      Join(if Ent(tab, t, k) == ZERO_PTE then [] else [Vpn(i, j, k)], LowPages(tab, t, i, j, k + 1));
    }
  }

  lemma {:induction false} MidExact(tab: Tables, t: Ppn, i: Idx, j: nat)
    ensures Ascending(MidPages(tab, t, i, j))
    ensures forall v {:trigger v in MidPages(tab, t, i, j)} ::
              v in MidPages(tab, t, i, j) <==>
              v.i == i && v.j >= j && Ent(tab, t, v.j).v && Ent(tab, Ent(tab, t, v.j).ppn, v.k) != ZERO_PTE
    decreases 512 - j
  {
    if j < 512 {
      MidExact(tab, t, i, j + 1);
      LowExact(tab, Ent(tab, t, j).ppn, i, j, 0);
      Join(if Ent(tab, t, j).v then LowPages(tab, Ent(tab, t, j).ppn, i, j, 0) else [], MidPages(tab, t, i, j + 1));
    }
  }

  lemma {:induction false} RootExact(tab: Tables, pd: Ppn, i: nat)
    ensures Ascending(RootPages(tab, pd, i))
    ensures forall v {:trigger v in RootPages(tab, pd, i)} ::
              v in RootPages(tab, pd, i) <==> v.i >= i && HasPath(tab, pd, v) && Ent(tab, LowOf(tab, pd, v), v.k) != ZERO_PTE
    decreases 512 - i
  {
    if i < 512 {
      RootExact(tab, pd, i + 1);
      MidExact(tab, Ent(tab, pd, i).ppn, i, 0);
      Join(if Ent(tab, pd, i).v then MidPages(tab, Ent(tab, pd, i).ppn, i, 0) else [], RootPages(tab, pd, i + 1));
    }
  }

  /**
   Every page whose entry ptLookup finds nonzero is visited, once, and no other; and
   the address handed to the callback leads back to that entry.
   */
  lemma VisitsExact(tab: Tables, pd: Ppn)
    ensures Ascending(Visited(tab, pd))
    ensures forall v {:trigger v in Visited(tab, pd)} :: v in Visited(tab, pd) <==> Lookup(tab, pd, v) != ZERO_PTE
    ensures forall v {:trigger VaOf(v)} :: VpnOf(VaOf(v)) == v
  {
    RootExact(tab, pd, 0);
    forall v ensures VpnOf(VaOf(v)) == v { VpnOfVaOf(v, 0); }
  }

  // ---- the traversal is the callbacks in that order ------------------------------------------------------

  ghost function Calls(cb: PageCall, m: Mem, pages: seq<Vpn>): Res<Mem>
    decreases |pages|
  {
    if pages == [] then Ok(m) else
    var m1 :- cb(m, pages[0]);
    Calls(cb, m1, pages[1..])
  }

  /** A callback that does not write to tables. */
  ghost predicate Still(cb: PageCall) {
    forall m, v {:trigger cb(m, v)} :: cb(m, v).Ok? ==> cb(m, v).value.tab == m.tab
  }

  lemma {:induction false} CallsKeep(cb: PageCall, m: Mem, pages: seq<Vpn>)
    requires Still(cb)
    ensures Calls(cb, m, pages).Ok? ==> Calls(cb, m, pages).value.tab == m.tab
    decreases |pages|
  {
    if pages != [] && cb(m, pages[0]).Ok? {
      CallsKeep(cb, cb(m, pages[0]).value, pages[1..]);
    }
  }

  lemma {:induction false} CallsJoin(cb: PageCall, m: Mem, a: seq<Vpn>, b: seq<Vpn>)
    ensures Calls(cb, m, a + b) == (var m1 :- Calls(cb, m, a); Calls(cb, m1, b))
    decreases |a|
  {
    if a == [] {
      assert a + b == b;
    } else if cb(m, a[0]).Ok? {
      assert (a + b)[1..] == a[1..] + b;
      CallsJoin(cb, cb(m, a[0]).value, a[1..], b);
    }
  }

  lemma {:induction false} LowCalls(cb: PageCall, m: Mem, t: Ppn, i: Idx, j: Idx, k: nat)
    requires Still(cb)
    ensures WalkLow(cb, m, t, i, j, k) == Calls(cb, m, LowPages(m.tab, t, i, j, k))
    decreases 512 - k
  {
    if k < 512 {
      var rest := LowPages(m.tab, t, i, j, k + 1);
      if Ent(m.tab, t, k) == ZERO_PTE {
        assert [] + rest == rest;
        LowCalls(cb, m, t, i, j, k + 1);
      } else {
        assert ([Vpn(i, j, k)] + rest)[1..] == rest;
        if cb(m, Vpn(i, j, k)).Ok? { LowCalls(cb, cb(m, Vpn(i, j, k)).value, t, i, j, k + 1); }
      }
    }
  }

  lemma {:induction false} MidCalls(cb: PageCall, m: Mem, t: Ppn, i: Idx, j: nat)
    requires Still(cb)
    ensures WalkMid(cb, NoTable(), m, t, i, j) == Calls(cb, m, MidPages(m.tab, t, i, j))
    decreases 512 - j
  {
    if j < 512 {
      var now := if Ent(m.tab, t, j).v then LowPages(m.tab, Ent(m.tab, t, j).ppn, i, j, 0) else [];
      CallsJoin(cb, m, now, MidPages(m.tab, t, i, j + 1));
      CallsKeep(cb, m, now);
      if Ent(m.tab, t, j).v { LowCalls(cb, m, Ent(m.tab, t, j).ppn, i, j, 0); }
      if Calls(cb, m, now).Ok? { MidCalls(cb, Calls(cb, m, now).value, t, i, j + 1); }
    }
  }

  lemma {:induction false} RootCalls(cb: PageCall, m: Mem, pd: Ppn, i: nat)
    requires Still(cb)
    ensures WalkRoot(cb, NoTable(), m, pd, i) == Calls(cb, m, RootPages(m.tab, pd, i))
    decreases 512 - i
  {
    if i < 512 {
      var now := if Ent(m.tab, pd, i).v then MidPages(m.tab, Ent(m.tab, pd, i).ppn, i, 0) else [];
      CallsJoin(cb, m, now, RootPages(m.tab, pd, i + 1));
      CallsKeep(cb, m, now);
      if Ent(m.tab, pd, i).v { MidCalls(cb, m, Ent(m.tab, pd, i).ppn, i, 0); }
      if Calls(cb, m, now).Ok? { RootCalls(cb, Calls(cb, m, now).value, pd, i + 1); }
    }
  }

  /** pdWalk with a callback that leaves the tables alone is that callback on the visited pages in order. */
  lemma WalkIsCalls(cb: PageCall, m: Mem, pd: Ppn)
    requires Still(cb)
    ensures PdWalk(cb, NoTable(), m, pd) == Calls(cb, m, Visited(m.tab, pd))
  {
    RootCalls(cb, m, pd, 0);
  }
}
