/**
 When fork succeeds (kern/proc/fork.c, proc_initupt): exactly when there is a free
 frame for every table and page the child needs.
 */
module ForkSupply {
  import opened Panics
  import opened Sv39
  import opened PageTables
  import opened VmState
  import opened SimpleSystem
  import opened CopyOnWrite
  import opened Fork
  import opened TableWalk
  import opened PageVisits
  import opened ForkWalk
  import opened FrameSupply

  // ---- the walk of fork is duppage on the pages of the parent, in order --------------------------------

  lemma {:induction false} DupLowCalls(m0: Mem, p: Ppn, c: Ppn, m: Mem, i: Idx, j: Idx, k: nat)
    requires Forkable(m0, p, c) && k <= 512 && Progress(m0, m, p, c, Place(i, j, k)) && HasPath(m0.tab, p, Vpn(i, j, 0))
    ensures var t := LowOf(m0.tab, p, Vpn(i, j, 0));
            var r := WalkLow(DupCall(p, c), m, t, i, j, k);
            r == Calls(DupCall(p, c), m, LowPages(m0.tab, t, i, j, k))
            && (r.Ok? ==> Progress(m0, r.value, p, c, Place(i, j + 1, 0)))
    decreases 512 - k
  {
    hide Forkable, Progress, Dup, Place;
    PlaceNext(i, j, k);
    var t := LowOf(m0.tab, p, Vpn(i, j, 0));
    if k < 512 {
      var v := Vpn(i, j, k);
      var rest := LowPages(m0.tab, t, i, j, k + 1);
      DupHere(m0, p, c, m, v);
      if Ent(m.tab, t, k) == ZERO_PTE {
        assert [] + rest == rest;
        DupAtPage(m0, p, c, m, v, m);
        DupLowCalls(m0, p, c, m, i, j, k + 1);
      } else if Dup(m, p, c, v).Ok? {
        assert ([v] + rest)[1..] == rest;
        DupAtPage(m0, p, c, m, v, Dup(m, p, c, v).value);
        DupLowCalls(m0, p, c, Dup(m, p, c, v).value, i, j, k + 1);
      }
    }
  }

  /** The walk finds the parent's entry as it was at the start. */
  lemma DupHere(m0: Mem, p: Ppn, c: Ppn, m: Mem, v: Vpn)
    requires Forkable(m0, p, c) && Progress(m0, m, p, c, Num(v)) && HasPath(m0.tab, p, v)
    ensures HasPath(m.tab, p, v) && LowOf(m.tab, p, v) == LowOf(m0.tab, p, v)
    ensures Ent(m.tab, LowOf(m0.tab, p, v), v.k) == Ent(m0.tab, LowOf(m0.tab, p, v), v.k)
  {
    hide Forkable, Dupd, Kept, Whole;
    PathKept(m0, m, p, c, v);
    ProgressEntry(m0, m, p, c, v);
  }

  lemma {:induction false} DupMidCalls(m0: Mem, p: Ppn, c: Ppn, m: Mem, i: Idx, j: nat)
    requires Forkable(m0, p, c) && j <= 512 && Progress(m0, m, p, c, Place(i, j, 0)) && Ent(m0.tab, p, i).v
    ensures var t := Ent(m0.tab, p, i).ppn;
            var r := WalkMid(DupCall(p, c), NoTable(), m, t, i, j);
            r == Calls(DupCall(p, c), m, MidPages(m0.tab, t, i, j)) && (r.Ok? ==> Progress(m0, r.value, p, c, Place(i + 1, 0, 0)))
    decreases 512 - j
  {
    hide Forkable, Progress, LowTable, LowPages, DupCall, Calls, Ent, NoTable, Place;
    PlaceNext(i, 0, 0);
    var cb, t := DupCall(p, c), Ent(m0.tab, p, i).ppn;
    if j == 512 {
      NoCalls(cb, m);
    } else {
      var now := if Ent(m0.tab, t, j).v then LowPages(m0.tab, Ent(m0.tab, t, j).ppn, i, j, 0) else [];
      DupMidStep(m0, p, c, m, i, j);
      CallsJoin(cb, m, now, MidPages(m0.tab, t, i, j + 1));
      if Calls(cb, m, now).Ok? { DupMidCalls(m0, p, c, Calls(cb, m, now).value, i, j + 1); }
    }
  }

  lemma NoCalls(cb: PageCall, m: Mem)
    ensures Calls(cb, m, []) == Ok(m)
  {
  }

  lemma DupMidStep(m0: Mem, p: Ppn, c: Ppn, m: Mem, i: Idx, j: Idx)
    requires Forkable(m0, p, c) && Progress(m0, m, p, c, Place(i, j, 0)) && Ent(m0.tab, p, i).v
    ensures var t := Ent(m0.tab, p, i).ppn;
            var r := if Ent(m.tab, t, j).v then LowTable(DupCall(p, c), NoTable(), m, Ent(m.tab, t, j).ppn, i, j) else Ok(m);
            && r == Calls(DupCall(p, c), m, if Ent(m0.tab, t, j).v then LowPages(m0.tab, Ent(m0.tab, t, j).ppn, i, j, 0) else [])
            && (r.Ok? ==> Progress(m0, r.value, p, c, Place(i, j + 1, 0)))
  {
    hide Forkable, Progress, WalkLow, LowPages, DupCall, Calls, Place;
    TableHere(m0, p, c, m, Place(i, j, 0), i, j);
    if Ent(m0.tab, Ent(m0.tab, p, i).ppn, j).v {
      DupLowCalls(m0, p, c, m, i, j, 0);
    } else {
      NoCalls(DupCall(p, c), m);
      SkipLow(m0, m, p, c, i, j);
    }
  }

  lemma {:induction false} DupRootCalls(m0: Mem, p: Ppn, c: Ppn, m: Mem, i: nat)
    requires Forkable(m0, p, c) && i <= 512 && Progress(m0, m, p, c, Place(i, 0, 0))
    ensures WalkRoot(DupCall(p, c), NoTable(), m, p, i) == Calls(DupCall(p, c), m, RootPages(m0.tab, p, i))
    decreases 512 - i
  {
    hide Forkable, Progress, Dup, WalkMid, MidPages, DupCall, Place;
    var cb := DupCall(p, c);
    if i < 512 {
      TableHere(m0, p, c, m, Place(i, 0, 0), i, 0);
      var now := if Ent(m0.tab, p, i).v then MidPages(m0.tab, Ent(m0.tab, p, i).ppn, i, 0) else [];
      CallsJoin(cb, m, now, RootPages(m0.tab, p, i + 1));
      if Ent(m0.tab, p, i).v {
        DupMidCalls(m0, p, c, m, i, 0);
      } else {
        SkipMid(m0, m, p, c, i);
      }
      if Calls(cb, m, now).Ok? { DupRootCalls(m0, p, c, Calls(cb, m, now).value, i + 1); }
    }
  }

  /** fork's traversal is duppage on the pages the parent has at its start, in order. */
  lemma ForkIsCalls(m0: Mem, p: Ppn, c: Ppn)
    requires Forkable(m0, p, c)
    ensures PdWalk(DupCall(p, c), NoTable(), m0, p) == Calls(DupCall(p, c), m0, Visited(m0.tab, p))
  {
    hide WalkRoot, Place, Progress, Forkable;
    PlaceEnds();
    ProgressStart(m0, p, c);
    DupRootCalls(m0, p, c, m0, 0);
  }

  // ---- the tables of one address space ------------------------------------------------------------------

  type Mids = set<Idx>
  type Lows = set<(Idx, Idx)>

  /** The middle and leaf tables of address space c. */
  ghost predicate Paths(tab: Tables, c: Ppn, mids: Mids, lows: Lows) {
    && (forall i: Idx {:trigger Ent(tab, c, i)} :: Ent(tab, c, i).v <==> i in mids)
    && (forall v: Vpn {:trigger HasPath(tab, c, v)} :: HasPath(tab, c, v) <==> (v.i, v.j) in lows)
  }

  /** What page v adds to them. */
  ghost function Added(mids: Mids, lows: Lows, v: Vpn): int {
    |mids + {v.i}| - |mids| + |lows + {(v.i, v.j)}| - |lows|
  }

  lemma PathCostIs(tab: Tables, c: Ppn, mids: Mids, lows: Lows, v: Vpn)
    requires Paths(tab, c, mids, lows)
    ensures PathCost(tab, c, v) == Added(mids, lows, v)
  {
    assert HasPath(tab, c, v) <==> (v.i, v.j) in lows;
    if v.i in mids { assert mids + {v.i} == mids; }
    if (v.i, v.j) in lows { assert lows + {(v.i, v.j)} == lows; }
  }

  lemma NewMidPaths(m: Mem, c: Ppn, v: Vpn, m': Mem, mids: Mids, lows: Lows)
    requires Whole(m) && IsRoot(m.owner, c) && Paths(m.tab, c, mids, lows) && Descend(m, c, v.i) == Ok(m')
    ensures Paths(m'.tab, c, mids + {v.i}, lows)
  {
    hide Hang;
    DescendNeeds(m, c, v.i);
    if !Ent(m.tab, c, v.i).v {
      GrowEnt(m.tab, c, v.i, m.free[0]);
      forall u: Vpn ensures HasPath(m'.tab, c, u) <==> (u.i, u.j) in lows {
        assert HasPath(m.tab, c, u) <==> (u.i, u.j) in lows;
        if u.i != v.i && Ent(m.tab, c, u.i).v { MidOwner(m, c, u); }
      }
    }
  }

  lemma NewLowPaths(m: Mem, c: Ppn, v: Vpn, m': Mem, mids: Mids, lows: Lows)
    requires Whole(m) && IsRoot(m.owner, c) && Paths(m.tab, c, mids, lows) && Ent(m.tab, c, v.i).v
    requires Descend(m, MidOf(m.tab, c, v), v.j) == Ok(m')
    ensures Paths(m'.tab, c, mids, lows + {(v.i, v.j)})
  {
    hide Hang;
    MidOwner(m, c, v);
    var t := MidOf(m.tab, c, v);
    DescendNeeds(m, t, v.j);
    if !Ent(m.tab, t, v.j).v {
      GrowEnt(m.tab, t, v.j, m.free[0]);
    }
    forall u: Vpn ensures HasPath(m'.tab, c, u) <==> (u.i, u.j) in lows + {(v.i, v.j)} {
      assert HasPath(m.tab, c, u) <==> (u.i, u.j) in lows;
      if Ent(m.tab, c, u.i).v { MidOwner(m, c, u); }
    }
  }

  lemma MakePathPaths(m: Mem, c: Ppn, v: Vpn, m': Mem, mids: Mids, lows: Lows)
    requires Whole(m) && IsRoot(m.owner, c) && Paths(m.tab, c, mids, lows) && MakePath(m, c, v) == Ok(m')
    ensures Paths(m'.tab, c, mids + {v.i}, lows + {(v.i, v.j)})
  {
    hide Whole, Descend, Paths;
    if HasPath(m.tab, c, v) {
      AlreadyThere(m.tab, c, v, mids, lows);
    } else {
      var m1 := WalkParts(m, c, v, m');
      NewMidPaths(m, c, v, m1, mids, lows);
      DescendInv(m, c, v.i, m1);
      assert IsRoot(m1.owner, c);
      NewLowPaths(m1, c, v, m', mids + {v.i}, lows);
    }
  }

  lemma AlreadyThere(tab: Tables, c: Ppn, v: Vpn, mids: Mids, lows: Lows)
    requires Paths(tab, c, mids, lows) && HasPath(tab, c, v)
    ensures mids + {v.i} == mids && lows + {(v.i, v.j)} == lows
  {
  }

  /** A change in a leaf table leaves the tables themselves in place. */
  lemma LeafPaths(m: Mem, t: Ppn, k: Idx, value: Pte, c: Ppn, mids: Mids, lows: Lows)
    requires Whole(m) && IsRoot(m.owner, c) && Paths(m.tab, c, mids, lows) && t in m.owner && m.owner[t].Low?
    ensures Paths(SetPte(m, t, k, value).tab, c, mids, lows)
  {
    var tab' := SetPte(m, t, k, value).tab;
    assert forall i: Idx :: Ent(tab', c, i) == Ent(m.tab, c, i);
    forall u: Vpn ensures HasPath(tab', c, u) <==> (u.i, u.j) in lows {
      assert HasPath(m.tab, c, u) <==> (u.i, u.j) in lows;
      if Ent(m.tab, c, u.i).v { MidOwner(m, c, u); }
    }
  }

  lemma MapPaths(m: Mem, c: Ppn, v: Vpn, ppn: Ppn, perm: Perm, m': Mem, mids: Mids, lows: Lows)
    requires Whole(m) && IsRoot(m.owner, c) && Paths(m.tab, c, mids, lows) && Map(m, c, v, ppn, perm) == Ok(m')
    ensures Paths(m'.tab, c, mids + {v.i}, lows + {(v.i, v.j)})
  {
    hide Paths, Map, MakePath, SetPte;
    var m1 := MapParts(m, c, v, ppn, perm, m');
    MakePathPaths(m, c, v, m1, mids, lows);
    PathFor(m, c, v, m1);
    assert IsRoot(m1.owner, c);
    LeafOwner(m1.tab, m1.owner, c, v);
    LeafPaths(m1, LowOf(m1.tab, c, v), v.k, MapEntry(m.ad, ppn, perm), c, mids + {v.i}, lows + {(v.i, v.j)});
  }

  /** A new entry for the frame that is there already moves nothing and takes no frame. */
  lemma RemapPaths(m: Mem, p: Ppn, v: Vpn, perm: Perm, c: Ppn, mids: Mids, lows: Lows)
    requires Whole(m) && IsRoot(m.owner, p) && IsRoot(m.owner, c) && Lookup(m.tab, p, v).v && Paths(m.tab, c, mids, lows)
    ensures var r := Map(m, p, v, Lookup(m.tab, p, v).ppn, perm);
            r.Ok? && r.value.free == m.free && Paths(r.value.tab, c, mids, lows)
  {
    hide Paths, Whole;
    InUse(m, p, v);
    WholeTree(m);
    LeafOwner(m.tab, m.owner, p, v);
    LeafPaths(m, LowOf(m.tab, p, v), v.k, MapEntry(m.ad, Lookup(m.tab, p, v).ppn, perm), c, mids, lows);
  }

  lemma WholeTree(m: Mem)
    requires Whole(m)
    ensures TreeOk(m.tab, m.owner, {})
  {
  }

  // ---- duppage, once and many times ---------------------------------------------------------------------

  /** Page v of the parent can be given to the child, or the child has one there already. */
  ghost predicate Giveable(m: Mem, p: Ppn, c: Ppn, v: Vpn) {
    Lookup(m.tab, p, v) != ZERO_PTE && (Lookup(m.tab, c, v) == ZERO_PTE ==> Lookup(m.tab, p, v).perm.u)
  }

  lemma DupNeeds(m: Mem, p: Ppn, c: Ppn, v: Vpn, mids: Mids, lows: Lows)
    requires Whole(m) && IsRoot(m.owner, p) && IsRoot(m.owner, c) && p != c && Giveable(m, p, c, v) && Paths(m.tab, c, mids, lows)
    ensures Dup(m, p, c, v).Ok? <==> Added(mids, lows, v) <= |m.free|
    ensures Dup(m, p, c, v).Ok? ==>
              var m' := Dup(m, p, c, v).value;
              && |m'.free| == |m.free| - Added(mids, lows, v) && Paths(m'.tab, c, mids + {v.i}, lows + {(v.i, v.j)})
              && Elsewhere(m, m', v)
  {
    hide Whole, Map, Paths, PathCost, Added, Elsewhere;
    var e := Lookup(m.tab, p, v);
    PathCostIs(m.tab, c, mids, lows, v);
    if Lookup(m.tab, c, v) != ZERO_PTE {
      AlreadyThere(m.tab, c, v, mids, lows);
      NothingAdded(mids, lows, v);
      StaysElsewhere(m, v);
    } else {
      var perm := if Passive(e) || !(e.perm.w && !e.perm.shared) then e.perm else CowPerm(e.perm);
      ShareFrame(m, p, v);
      MapNeeds(m, c, v, e.ppn, perm);
      if Map(m, c, v, e.ppn, perm).Ok? {
        var m1 := Map(m, c, v, e.ppn, perm).value;
        MapPaths(m, c, v, e.ppn, perm, m1, mids, lows);
        MapElsewhere(m, c, v, e.ppn, perm, m1);
        if e.v && e.perm.w && !e.perm.shared {
          ParentHere(m, p, c, v, e, perm, m1);
          RemapPaths(m1, p, v, perm, c, mids + {v.i}, lows + {(v.i, v.j)});
          MapElsewhere(m1, p, v, e.ppn, perm, Map(m1, p, v, e.ppn, perm).value);
          ElsewhereTwice(m, m1, Map(m1, p, v, e.ppn, perm).value, v);
        }
      }
    }
  }

  lemma NothingAdded(mids: Mids, lows: Lows, v: Vpn)
    requires mids + {v.i} == mids && lows + {(v.i, v.j)} == lows
    ensures Added(mids, lows, v) == 0
  {
  }

  /** A good state with the same address spaces, in which only entries for page v have changed. */
  ghost predicate Elsewhere(m: Mem, m': Mem, v: Vpn) {
    && Whole(m') && (forall q :: IsRoot(m'.owner, q) <==> IsRoot(m.owner, q))
    && (forall q, u: Vpn {:trigger Lookup(m'.tab, q, u)} | IsRoot(m.owner, q) && u != v :: Lookup(m'.tab, q, u) == Lookup(m.tab, q, u))
  }

  lemma StaysElsewhere(m: Mem, v: Vpn)
    requires Whole(m)
    ensures Elsewhere(m, m, v)
  {
  }

  lemma ElsewhereTwice(m: Mem, m1: Mem, m2: Mem, v: Vpn)
    requires Elsewhere(m, m1, v) && Elsewhere(m1, m2, v)
    ensures Elsewhere(m, m2, v)
  {
    hide Whole;
    forall q, u: Vpn | IsRoot(m.owner, q) && u != v ensures Lookup(m2.tab, q, u) == Lookup(m.tab, q, u) {
      assert IsRoot(m1.owner, q);
      assert Lookup(m1.tab, q, u) == Lookup(m.tab, q, u);
    }
  }

  lemma MapElsewhere(m: Mem, q: Ppn, v: Vpn, ppn: Ppn, perm: Perm, m': Mem)
    requires Whole(m) && IsRoot(m.owner, q) && Mappable(m, ppn) && Map(m, q, v, ppn, perm) == Ok(m')
    ensures Elsewhere(m, m', v)
  {
    hide Whole, Map;
    MapRemaps(m, q, v, ppn, perm, m');
  }

  lemma ParentHere(m: Mem, p: Ppn, c: Ppn, v: Vpn, e: Pte, perm: Perm, m1: Mem)
    requires Whole(m) && IsRoot(m.owner, p) && IsRoot(m.owner, c) && p != c && e == Lookup(m.tab, p, v) && e.v
    requires Mappable(m, e.ppn) && Map(m, c, v, e.ppn, perm) == Ok(m1)
    ensures Whole(m1) && IsRoot(m1.owner, p) && IsRoot(m1.owner, c) && Lookup(m1.tab, p, v) == e && Mappable(m1, e.ppn)
  {
    hide Whole, Map;
    MapRemaps(m, c, v, e.ppn, perm, m1);
    assert IsRoot(m1.owner, p) && Lookup(m1.tab, p, v) == e;
    InUse(m1, p, v);
  }

  ghost function MidsOf(pages: seq<Vpn>): Mids {
    set v | v in pages :: v.i
  }

  ghost function LowsOf(pages: seq<Vpn>): Lows {
    set v | v in pages :: (v.i, v.j)
  }

  /** What all pages together add. */
  ghost function AllAdded(mids: Mids, lows: Lows, pages: seq<Vpn>): int {
    |mids + MidsOf(pages)| - |mids| + |lows + LowsOf(pages)| - |lows|
  }

  lemma AddedFirst(mids: Mids, lows: Lows, pages: seq<Vpn>)
    requires pages != []
    ensures var v := pages[0];
            AllAdded(mids, lows, pages) == Added(mids, lows, v) + AllAdded(mids + {v.i}, lows + {(v.i, v.j)}, pages[1..])
  {
    var v, rest := pages[0], pages[1..];
    assert pages == [v] + rest;
    assert mids + MidsOf(pages) == mids + {v.i} + MidsOf(rest);
    assert lows + LowsOf(pages) == lows + {(v.i, v.j)} + LowsOf(rest);
  }

  lemma UnionSize<T>(a: set<T>, b: set<T>)
    ensures |a| <= |a + b|
  {
    assert a + b == a + (b - a);
  }

  lemma AddsSomething(mids: Mids, lows: Lows, pages: seq<Vpn>)
    ensures AllAdded(mids, lows, pages) >= 0
  {
    UnionSize(mids, MidsOf(pages));
    UnionSize(lows, LowsOf(pages));
  }

  /** duppage on a list of pages succeeds exactly when all tables they add can be had. */
  lemma {:induction false} CallsNeed(m: Mem, p: Ppn, c: Ppn, pages: seq<Vpn>, mids: Mids, lows: Lows)
    requires Whole(m) && IsRoot(m.owner, p) && IsRoot(m.owner, c) && p != c && Paths(m.tab, c, mids, lows)
    requires Ascending(pages) && forall v {:trigger Giveable(m, p, c, v)} | v in pages :: Giveable(m, p, c, v)
    ensures var r := Calls(DupCall(p, c), m, pages);
            && (r.Ok? <==> AllAdded(mids, lows, pages) <= |m.free|)
            && (r.Ok? ==> |r.value.free| == |m.free| - AllAdded(mids, lows, pages))
    decreases |pages|
  {
    hide Whole, Paths, Dup, Added, AllAdded, Giveable;
    if pages == [] {
      NoneAdded(mids, lows, pages);
    } else {
      var v, rest := pages[0], pages[1..];
      assert Giveable(m, p, c, v);
      DupNeeds(m, p, c, v, mids, lows);
      AddedFirst(mids, lows, pages);
      AddsSomething(mids + {v.i}, lows + {(v.i, v.j)}, rest);
      if Dup(m, p, c, v).Ok? {
        var m' := Dup(m, p, c, v).value;
        forall u | u in rest ensures Giveable(m', p, c, u) {
          LaterPage(m, p, c, v, m', pages, u);
        }
        CallsNeed(m', p, c, rest, mids + {v.i}, lows + {(v.i, v.j)});
      }
    }
  }

  lemma NoneAdded(mids: Mids, lows: Lows, pages: seq<Vpn>)
    requires pages == []
    ensures AllAdded(mids, lows, pages) == 0
  {
    assert mids + MidsOf(pages) == mids && lows + LowsOf(pages) == lows;
  }

  lemma LaterPage(m: Mem, p: Ppn, c: Ppn, v: Vpn, m': Mem, pages: seq<Vpn>, u: Vpn)
    requires IsRoot(m.owner, p) && IsRoot(m.owner, c) && Elsewhere(m, m', v)
    requires Ascending(pages) && pages != [] && v == pages[0] && u in pages[1..] && Giveable(m, p, c, u)
    ensures Giveable(m', p, c, u)
  {
    var x :| 0 <= x < |pages[1..]| && pages[1..][x] == u;
    assert Below(pages[0], pages[x + 1]);
  }

  // ---- the new address space ----------------------------------------------------------------------------

  lemma NewRootPaths(m: Mem, m': Mem)
    requires UserOk(m) && m.free != [] && m.free[0] in m.ref && m.free[0] in m.hold && m' == NewRoot(m)
    ensures Paths(m'.tab, m.free[0], {}, {}) && |m'.free| == |m.free| - 1
    ensures UserOk(m') && IsRoot(m'.owner, m.free[0]) && m'.boot == m.boot && forall u: Vpn :: Lookup(m'.tab, m.free[0], u) == ZERO_PTE
  {
    hide CowOk, BootHeld, UserPages, AllViews, AllKinds, Spawned;
    NewRootBorn(m, m');
    assert forall i: Idx :: Ent(m'.tab, m.free[0], i) == ZERO_PTE;
  }

  /** One of the three pages above user memory is mapped: two tables for the first, none for the others. */
  lemma SpecialNeeds(m: Mem, c: Ppn, v: Vpn, f: Ppn, perm: Perm, mids: Mids, lows: Lows)
    requires UserOk(m) && IsRoot(m.owner, c) && Special(v) && BootFrame(m, f) && Lookup(m.tab, c, v) == ZERO_PTE
    requires !perm.w && !perm.shared && !perm.cow && Paths(m.tab, c, mids, lows)
    ensures var r := Map(m, c, v, f, perm);
            && (r.Ok? <==> Added(mids, lows, v) <= |m.free|)
            && (r.Ok? ==> UserOk(r.value) && IsRoot(r.value.owner, c) && r.value.boot == m.boot && OnlyAt(m, r.value, c, v)
                          && |r.value.free| == |m.free| - Added(mids, lows, v) && BootFrame(r.value, f)
                          && Paths(r.value.tab, c, mids + {v.i}, lows + {(v.i, v.j)}))
  {
    hide Map, Paths, Added, PathCost, AllViews, AllKinds, CowOk, BootHeld;
    PathCostIs(m.tab, c, mids, lows, v);
    MapNeeds(m, c, v, f, perm);
    if Map(m, c, v, f, perm).Ok? {
      RootIs(m, c);
      RootIs(Map(m, c, v, f, perm).value, c);
      MapBoot(m, c, v, f, perm, Map(m, c, v, f, perm).value);
      MapPaths(m, c, v, f, perm, Map(m, c, v, f, perm).value, mids, lows);
    }
  }

  lemma TrapframeNeeds(m: Mem, c: Ppn, v: Vpn, mids: Mids, lows: Lows)
    requires UserOk(m) && IsRoot(m.owner, c) && Lookup(m.tab, c, v) == ZERO_PTE && Paths(m.tab, c, mids, lows)
    ensures var r := MapFresh(m, c, v, ZeroPage(), PERM_TRAPFRAME);
            && (r.Ok? <==> 1 + Added(mids, lows, v) <= |m.free|)
            && (r.Ok? ==> |r.value.free| == |m.free| - 1 - Added(mids, lows, v)
                          && Paths(r.value.tab, c, mids + {v.i}, lows + {(v.i, v.j)}))
  {
    hide Map, Paths, Added, PathCost, CowOk, BootHeld, UserPages;
    AddsSomething(mids, lows, [v]);
    OneAdded(mids, lows, v);
    if m.free != [] {
      var m1, f := Filled(m, ZeroPage()), m.free[0];
      FilledOk(m, ZeroPage());
      hide Whole;
      PathCostIs(m.tab, c, mids, lows, v);
      MapNeeds(m1, c, v, f, PERM_TRAPFRAME);
      if Map(m1, c, v, f, PERM_TRAPFRAME).Ok? {
        MapPaths(m1, c, v, f, PERM_TRAPFRAME, Map(m1, c, v, f, PERM_TRAPFRAME).value, mids, lows);
      }
    }
  }

  lemma OneAdded(mids: Mids, lows: Lows, v: Vpn)
    ensures AllAdded(mids, lows, [v]) == Added(mids, lows, v)
  {
    assert MidsOf([v]) == {v.i} && LowsOf([v]) == {(v.i, v.j)};
  }

  const FIRST_MIDS: Mids := {255}
  const FIRST_LOWS: Lows := {(255, 511)}

  lemma FirstAdded()
    ensures Added({}, {}, V_TRAMPOLINE) == 2 && {} + {V_TRAMPOLINE.i} == FIRST_MIDS && {} + {(V_TRAMPOLINE.i, V_TRAMPOLINE.j)} == FIRST_LOWS
    ensures Added(FIRST_MIDS, FIRST_LOWS, V_SIGNAL) == 0 && Added(FIRST_MIDS, FIRST_LOWS, V_TRAPFRAME) == 0
    ensures FIRST_MIDS + {V_SIGNAL.i} == FIRST_MIDS && FIRST_LOWS + {(V_SIGNAL.i, V_SIGNAL.j)} == FIRST_LOWS
    ensures FIRST_MIDS + {V_TRAPFRAME.i} == FIRST_MIDS && FIRST_LOWS + {(V_TRAPFRAME.i, V_TRAPFRAME.j)} == FIRST_LOWS
  {
    assert FIRST_MIDS + {255} == FIRST_MIDS && FIRST_LOWS + {(255, 511)} == FIRST_LOWS;
  }

  /** proc_initupt takes four frames: the directory, two tables and the trap frame. */
  lemma InitUptNeeds(m: Mem, tramp: Ppn, sig: Ppn)
    requires UserOk(m) && BootFrame(m, tramp) && BootFrame(m, sig)
    ensures var r := InitUpt(m, tramp, sig);
            && (r.Ok? <==> 4 <= |m.free|)
            && (r.Ok? ==> |r.value.0.free| == |m.free| - 4 && Paths(r.value.0.tab, r.value.1, FIRST_MIDS, FIRST_LOWS))
  {
    hide Map, MapFresh, Paths, Added, UserOk, NewRoot;
    FirstAdded();
    if m.free != [] {
      FreeCounted(m);
      var c, m1 := m.free[0], NewRoot(m);
      NewRootPaths(m, m1);
      SpecialNeeds(m1, c, V_TRAMPOLINE, tramp, PERM_TRAMPOLINE, {}, {});
      if Map(m1, c, V_TRAMPOLINE, tramp, PERM_TRAMPOLINE).Ok? {
        var m2 := Map(m1, c, V_TRAMPOLINE, tramp, PERM_TRAMPOLINE).value;
        assert Lookup(m2.tab, c, V_SIGNAL) == ZERO_PTE && Lookup(m2.tab, c, V_TRAPFRAME) == ZERO_PTE;
        SpecialNeeds(m2, c, V_SIGNAL, sig, PERM_SIGNAL, FIRST_MIDS, FIRST_LOWS);
        var m3 := Map(m2, c, V_SIGNAL, sig, PERM_SIGNAL).value;
        assert Lookup(m3.tab, c, V_TRAPFRAME) == ZERO_PTE;
        TrapframeNeeds(m3, c, V_TRAPFRAME, FIRST_MIDS, FIRST_LOWS);
      }
    }
  }

  lemma FreeCounted(m: Mem)
    requires UserOk(m) && m.free != []
    ensures m.free[0] in m.ref && m.free[0] in m.hold
  {
    FreeHead(m);
  }

  // ---- fork -----------------------------------------------------------------------------------------------

  /**
   The frames fork needs: a directory, a trap frame, and as many tables as the
   parent's pages and the three pages above user memory lie in.
   */
  ghost function ForkCost(tab: Tables, p: Ppn): nat {
    2 + |FIRST_MIDS + MidsOf(Visited(tab, p))| + |FIRST_LOWS + LowsOf(Visited(tab, p))|
  }

  /** The pages the parent has are those it had before the child's directory was made. */
  lemma SameVisits(m: Mem, m0: Mem, p: Ppn)
    requires forall u: Vpn {:trigger Lookup(m0.tab, p, u)} :: Lookup(m0.tab, p, u) == Lookup(m.tab, p, u)
    ensures MidsOf(Visited(m0.tab, p)) == MidsOf(Visited(m.tab, p)) && LowsOf(Visited(m0.tab, p)) == LowsOf(Visited(m.tab, p))
  {
    hide Visited, Lookup;
    VisitsExact(m.tab, p);
    VisitsExact(m0.tab, p);
    assert forall u: Vpn :: u in Visited(m0.tab, p) <==> u in Visited(m.tab, p);
  }

  lemma AllGiveable(m0: Mem, p: Ppn, c: Ppn)
    requires UserOk(m0) && IsRoot(m0.owner, p) && HasSpecials(m0, c)
    ensures Ascending(Visited(m0.tab, p)) && forall v {:trigger Giveable(m0, p, c, v)} | v in Visited(m0.tab, p) :: Giveable(m0, p, c, v)
  {
    hide Visited, Lookup, Ascending, CowOk, Whole;
    VisitsExact(m0.tab, p);
    forall v | v in Visited(m0.tab, p) ensures Giveable(m0, p, c, v) {
      assert UserEntry(m0.boot, v, Lookup(m0.tab, p, v));
      if Special(v) { assert Lookup(m0.tab, c, v) != ZERO_PTE; }
    }
  }

  /** fork succeeds exactly when that many frames are free, and takes no more. */
  lemma ForkNeeds(m: Mem, p: Ppn, tramp: Ppn, sig: Ppn)
    requires UserOk(m) && IsRoot(m.owner, p) && BootFrame(m, tramp) && BootFrame(m, sig)
    ensures var r := ForkSpace(m, p, tramp, sig);
            && (r.Ok? <==> ForkCost(m.tab, p) <= |m.free|)
            && (r.Ok? ==> |r.value.0.free| == |m.free| - ForkCost(m.tab, p))
  {
    hide InitUpt, PdWalk, UserOk, Visited, Paths, Whole, AllAdded, Calls, Lookup, MidsOf, LowsOf;
    InitUptNeeds(m, tramp, sig);
    CostParts(m.tab, p);
    if InitUpt(m, tramp, sig).Ok? {
      var (m0, c) := InitUpt(m, tramp, sig).value;
      InitUptBorn(m, tramp, sig, m0, c);
      StartsWhole(m, m0, p, c);
      SameVisits(m, m0, p);
      AllGiveable(m0, p, c);
      ForkIsCalls(m0, p, c);
      CallsNeed(m0, p, c, Visited(m0.tab, p), FIRST_MIDS, FIRST_LOWS);
      SameAdded(m.tab, m0.tab, p);
    }
  }

  lemma StartsWhole(m: Mem, m0: Mem, p: Ppn, c: Ppn)
    requires UserOk(m) && IsRoot(m.owner, p) && Born(m, m0, c)
    ensures Whole(m0) && Forkable(m0, p, c)
  {
    RootIs(m, p);
    RootIs(m0, p);
  }

  lemma SameAdded(tab: Tables, tab0: Tables, p: Ppn)
    requires MidsOf(Visited(tab0, p)) == MidsOf(Visited(tab, p)) && LowsOf(Visited(tab0, p)) == LowsOf(Visited(tab, p))
    ensures AllAdded(FIRST_MIDS, FIRST_LOWS, Visited(tab0, p)) == AllAdded(FIRST_MIDS, FIRST_LOWS, Visited(tab, p))
  {
    hide Visited, MidsOf, LowsOf;
  }

  lemma CostParts(tab: Tables, p: Ppn)
    ensures ForkCost(tab, p) == 4 + AllAdded(FIRST_MIDS, FIRST_LOWS, Visited(tab, p)) && ForkCost(tab, p) >= 4
  {
    hide Visited, MidsOf, LowsOf;
    UnionSize(FIRST_MIDS, MidsOf(Visited(tab, p)));
    UnionSize(FIRST_LOWS, LowsOf(Visited(tab, p)));
  }
}
