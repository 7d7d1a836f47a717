/**
 The walk of fork over the parent's page tables (pdWalk with duppage as its
 callback), and what fork as a whole does to every address space.
 */
module ForkWalk {
  import opened Panics
  import opened Sv39
  import opened PageTables
  import opened VmState
  import opened SimpleSystem
  import opened CopyOnWrite
  import opened Fork
  import opened TableWalk

  // ---- duppage as a callback ----------------------------------------------------------

  ghost function DupCall(p: Ppn, c: Ppn): PageCall {
    (m, v) => Dup(m, p, c, v)
  }

  // ---- the walk reaches every page of the parent -----------------------------------

  /** The walk has dealt with exactly the pages before position n. */
  ghost predicate Progress(m0: Mem, m: Mem, p: Ppn, c: Ppn, n: nat) {
    Whole(m) && Dupd(m0, m, p, c, n) && Kept(m0, m, c)
  }

  /** duppage adds tables only to the child. */
  lemma DupKept(m: Mem, p: Ppn, c: Ppn, v: Vpn, m': Mem)
    requires Whole(m) && IsRoot(m.owner, p) && IsRoot(m.owner, c) && p != c
    requires Lookup(m.tab, p, v) != ZERO_PTE && Dup(m, p, c, v) == Ok(m')
    ensures Kept(m, m', c)
  {
    var e := Lookup(m.tab, p, v);
    if Lookup(m.tab, c, v) != ZERO_PTE {
      assert m' == m;
    } else if Passive(e) {
      MapKept(m, c, v, 0, e.perm, m');
    } else if e.perm.w && e.perm.u && !e.perm.shared {
      var m1 := DupParts(m, p, c, v, m');
      MapKept(m, c, v, e.ppn, CowPerm(e.perm), m1);
      MapBoth(m, p, c, v, e, m1, m');
      assert IsRoot(m.owner, p) && Lookup(m1.tab, p, v) == e;
      InUse(m, p, v);
      MapInPlace(m1, p, v, e.ppn, CowPerm(e.perm), m', c);
      KeptTwice(m, m1, m', c);
    } else {
      MapKept(m, c, v, e.ppn, e.perm, m');
    }
  }

  /** The parent's own tables stay where they are. */
  lemma PathKept(m0: Mem, m: Mem, p: Ppn, c: Ppn, v: Vpn)
    requires Forkable(m0, p, c) && Kept(m0, m, c)
    ensures Ent(m.tab, p, v.i).v == Ent(m0.tab, p, v.i).v && MidOf(m.tab, p, v) == MidOf(m0.tab, p, v)
    ensures HasPath(m.tab, p, v) == HasPath(m0.tab, p, v)
    ensures HasPath(m0.tab, p, v) ==> LowOf(m.tab, p, v) == LowOf(m0.tab, p, v)
  {
    assert SameTarget(Ent(m.tab, p, v.i), Ent(m0.tab, p, v.i));
    if Ent(m0.tab, p, v.i).v {
      MidOwner(m0, p, v);
      assert SameTarget(Ent(m.tab, MidOf(m0.tab, p, v), v.j), Ent(m0.tab, MidOf(m0.tab, p, v), v.j));
    }
  }

  /** The walk finds the parent's tables as they were at the start. */
  lemma TableHere(m0: Mem, p: Ppn, c: Ppn, m: Mem, n: nat, i: Idx, j: Idx)
    requires Forkable(m0, p, c) && Progress(m0, m, p, c, n)
    ensures Ent(m.tab, p, i).v == Ent(m0.tab, p, i).v && Ent(m.tab, p, i).ppn == Ent(m0.tab, p, i).ppn
    ensures Ent(m0.tab, p, i).v ==>
              var t := Ent(m0.tab, p, i).ppn;
              Ent(m.tab, t, j).v == Ent(m0.tab, t, j).v && (Ent(m0.tab, t, j).v ==> Ent(m.tab, t, j).ppn == Ent(m0.tab, t, j).ppn)
  {
    hide Forkable, Dupd, Kept, Whole;
    PathKept(m0, m, p, c, Vpn(i, j, 0));
  }

  lemma ProgressEntry(m0: Mem, m: Mem, p: Ppn, c: Ppn, v: Vpn)
    requires Forkable(m0, p, c) && Progress(m0, m, p, c, Num(v)) && HasPath(m0.tab, p, v)
    ensures Ent(m.tab, LowOf(m0.tab, p, v), v.k) == Lookup(m0.tab, p, v)
  {
    PathKept(m0, m, p, c, v);
    assert Lookup(m.tab, p, v) == Expect(m0, p, c, Num(v), p, v);
  }

  lemma ProgressStep(m0: Mem, m: Mem, p: Ppn, c: Ppn, v: Vpn, m': Mem)
    requires Forkable(m0, p, c) && Progress(m0, m, p, c, Num(v))
    requires Lookup(m0.tab, p, v) != ZERO_PTE && Dup(m, p, c, v) == Ok(m')
    ensures Progress(m0, m', p, c, Num(v) + 1)
  {
    DupStep(m0, m, p, c, v, m');
    assert IsRoot(m.owner, p) && IsRoot(m.owner, c);
    assert Lookup(m.tab, p, v) == Expect(m0, p, c, Num(v), p, v);
    DupKept(m, p, c, v, m');
    KeptTwice(m0, m, m', c);
  }

  /** A range of positions at which the parent has nothing is passed over unchanged. */
  lemma SkipRange(m0: Mem, m: Mem, p: Ppn, c: Ppn, n: nat, n': nat)
    requires Progress(m0, m, p, c, n) && n <= n'
    requires forall u: Vpn | n <= Num(u) < n' :: Lookup(m0.tab, p, u) == ZERO_PTE
    ensures Progress(m0, m, p, c, n')
  {
    hide Whole, Kept, Carried;
    forall q, u | IsRoot(m0.owner, q) ensures Lookup(m.tab, q, u) == Expect(m0, p, c, n', q, u) {
      assert Lookup(m.tab, q, u) == Expect(m0, p, c, n, q, u);
    }
  }

  lemma SkipLow(m0: Mem, m: Mem, p: Ppn, c: Ppn, i: Idx, j: Idx)
    requires Progress(m0, m, p, c, Place(i, j, 0)) && !HasPath(m0.tab, p, Vpn(i, j, 0))
    ensures Progress(m0, m, p, c, Place(i, j + 1, 0))
  {
    forall u: Vpn | Place(i, j, 0) <= Num(u) < Place(i, j + 1, 0)
      ensures Lookup(m0.tab, p, u) == ZERO_PTE
    {
      assert u.i == i && u.j == j;
    }
    SkipRange(m0, m, p, c, Place(i, j, 0), Place(i, j + 1, 0));
  }

  lemma SkipMid(m0: Mem, m: Mem, p: Ppn, c: Ppn, i: Idx)
    requires Progress(m0, m, p, c, Place(i, 0, 0)) && !Ent(m0.tab, p, i).v
    ensures Progress(m0, m, p, c, Place(i + 1, 0, 0))
  {
    forall u: Vpn | Place(i, 0, 0) <= Num(u) < Place(i + 1, 0, 0)
      ensures Lookup(m0.tab, p, u) == ZERO_PTE
    {
      assert u.i == i;
    }
    SkipRange(m0, m, p, c, Place(i, 0, 0), Place(i + 1, 0, 0));
  }

  /** The state of the walk at a place of the traversal. */
  ghost function DupCursor(m0: Mem, p: Ppn, c: Ppn): Cursor {
    (m: Mem, i: nat, j: nat, k: nat) => Progress(m0, m, p, c, Place(i, j, k))
  }

  lemma DupAtPage(m0: Mem, p: Ppn, c: Ppn, m: Mem, v: Vpn, m': Mem)
    requires Forkable(m0, p, c) && Progress(m0, m, p, c, Num(v)) && HasPath(m.tab, p, v)
    requires if Ent(m.tab, LowOf(m.tab, p, v), v.k) == ZERO_PTE then m' == m else Dup(m, p, c, v) == Ok(m')
    ensures Progress(m0, m', p, c, Num(v) + 1) && SamePath(m, m', p, v)
  {
    PathKept(m0, m, p, c, v);
    ProgressEntry(m0, m, p, c, v);
    if Lookup(m0.tab, p, v) == ZERO_PTE {
      DupSkip(m0, m, p, c, v);
    } else {
      ProgressStep(m0, m, p, c, v, m');
    }
    PathKept(m0, m', p, c, v);
    MidOwner(m0, p, v);
  }

  lemma DupPages(m0: Mem, p: Ppn, c: Ppn)
    requires Forkable(m0, p, c)
    ensures PageSteps(DupCall(p, c), p, DupCursor(m0, p, c))
  {
    hide Forkable, DupCursor, DupCall, AtPage, SamePath;
    var cb, inv := DupCall(p, c), DupCursor(m0, p, c);
    forall m, v: Vpn, m' | AtPage(cb, p, m, v, m') && inv(m, v.i, v.j, v.k)
      ensures inv(m', v.i, v.j, v.k + 1) && SamePath(m, m', p, v)
    {
      DupCalled(m0, p, c, m, v, m');
    }
  }

  lemma DupCalled(m0: Mem, p: Ppn, c: Ppn, m: Mem, v: Vpn, m': Mem)
    requires Forkable(m0, p, c) && AtPage(DupCall(p, c), p, m, v, m') && DupCursor(m0, p, c)(m, v.i, v.j, v.k)
    ensures DupCursor(m0, p, c)(m', v.i, v.j, v.k + 1) && SamePath(m, m', p, v)
  {
    hide Forkable, Progress, Dup, HasPath, SamePath, Place;
    PlaceNext(v.i, v.j, v.k);
    DupAtPage(m0, p, c, m, v, m');
  }

  lemma DupLows(m0: Mem, p: Ppn, c: Ppn)
    requires Forkable(m0, p, c)
    ensures LowSteps(NoTable(), p, DupCursor(m0, p, c))
  {
    hide Forkable, Progress, Place;
    var tb, inv := NoTable(), DupCursor(m0, p, c);
    forall m, i: Idx, j: Idx, m' | AtLow(tb, p, m, i, j, m') && inv(m, i, j, 512) ensures m' == m && inv(m', i, j + 1, 0) {
      PlaceNext(i, j, 0);
    }
    forall m, i: Idx, j: Idx | inv(m, i, j, 0) && Ent(m.tab, p, i).v && !HasPath(m.tab, p, Vpn(i, j, 0))
      ensures inv(m, i, j + 1, 0)
    {
      assert Progress(m0, m, p, c, Place(i, j, 0));
      TableHere(m0, p, c, m, Place(i, j, 0), i, j);
      SkipLow(m0, m, p, c, i, j);
    }
  }

  lemma DupMids(m0: Mem, p: Ppn, c: Ppn)
    requires Forkable(m0, p, c)
    ensures MidSteps(NoTable(), p, DupCursor(m0, p, c))
  {
    hide Forkable, Progress, Place;
    var tb, inv := NoTable(), DupCursor(m0, p, c);
    forall m, i: Idx, m' | AtMid(tb, p, m, i, m') && inv(m, i, 512, 0) ensures inv(m', i + 1, 0, 0) {
      PlaceNext(i, 0, 0);
    }
    forall m, i: Idx | inv(m, i, 0, 0) && !Ent(m.tab, p, i).v ensures inv(m, i + 1, 0, 0) {
      assert Progress(m0, m, p, c, Place(i, 0, 0));
      TableHere(m0, p, c, m, Place(i, 0, 0), i, 0);
      SkipMid(m0, m, p, c, i);
    }
  }

  lemma ProgressStart(m: Mem, p: Ppn, c: Ppn)
    requires Forkable(m, p, c)
    ensures Progress(m, m, p, c, 0)
  {
  }

  /** The traversal gives the child an entry for every page of the parent, and misses none. */
  lemma DupWalk(m: Mem, p: Ppn, c: Ppn, m': Mem)
    requires Forkable(m, p, c) && PdWalk(DupCall(p, c), NoTable(), m, p) == Ok(m')
    ensures Progress(m, m', p, c, PAGE_COUNT)
  {
    hide Forkable, Progress, PageSteps, LowSteps, MidSteps, WalkRoot, DupCall, Place;
    PlaceEnds();
    DupPages(m, p, c);
    DupLows(m, p, c);
    DupMids(m, p, c);
    ProgressStart(m, p, c);
    assert DupCursor(m, p, c)(m, 0, 0, 0);
    WalkRule(DupCall(p, c), NoTable(), p, DupCursor(m, p, c), m, 0, m');
  }

  // ---- fork ---------------------------------------------------------------------------

  /** proc_fork's memory part: a new address space, then the traversal of the parent's. */
  ghost function ForkSpace(m: Mem, p: Ppn, tramp: Ppn, sig: Ppn): Res<(Mem, Ppn)> {
    var born :- InitUpt(m, tramp, sig);
    var m' :- PdWalk(DupCall(p, born.1), NoTable(), born.0, p);
    Ok((m', born.1))
  }

  lemma ForkParts(m: Mem, p: Ppn, tramp: Ppn, sig: Ppn, m': Mem, c: Ppn) returns (m0: Mem)
    requires ForkSpace(m, p, tramp, sig) == Ok((m', c))
    ensures InitUpt(m, tramp, sig) == Ok((m0, c)) && PdWalk(DupCall(p, c), NoTable(), m0, p) == Ok(m')
  {
    m0 := InitUpt(m, tramp, sig).value.0;
  }

  /** The address space an entry was taken from. */
  ghost function Origin(m0: Mem, p: Ppn, c: Ppn, q: Ppn, u: Vpn): Ppn {
    if q == c && !Skipped(m0, p, c, u) then p else q
  }

  /** Entry a names the same frame as b, in the same way, and is writable only if b was. */
  ghost predicate Derived(a: Pte, b: Pte) {
    && a.v == b.v && (b.v ==> a.ppn == b.ppn) && (b == ZERO_PTE ==> a == ZERO_PTE)
    && a.perm.u == b.perm.u && a.perm.shared == b.perm.shared
    && (a.perm.cow ==> b.perm.cow || (b.v && !b.perm.shared)) && (a.perm.w ==> b.perm.w)
  }

  /** The entries after fork, as the walk leaves them. */
  ghost function After(m0: Mem, p: Ppn, c: Ppn, q: Ppn, u: Vpn): Pte {
    Expect(m0, p, c, PAGE_COUNT, q, u)
  }

  lemma AfterDerived(m0: Mem, p: Ppn, c: Ppn, q: Ppn, u: Vpn)
    requires p != c
    ensures Derived(After(m0, p, c, q, u), Lookup(m0.tab, Origin(m0, p, c, q, u), u))
  {
  }

  /** Two entries with one origin are the parent's and the child's, and neither may be written. */
  lemma AfterShared(m0: Mem, p: Ppn, c: Ppn, a: Ppn, b: Ppn, u: Vpn)
    requires p != c && a != b && Origin(m0, p, c, a, u) == Origin(m0, p, c, b, u)
    requires !Skipped(m0, p, c, u) ==> Lookup(m0.tab, p, u).perm.u
    ensures Apart(After(m0, p, c, a, u), After(m0, p, c, b, u))
  {
  }

  lemma AfterApart(m0: Mem, p: Ppn, c: Ppn, a: Ppn, b: Ppn, u: Vpn, w: Vpn)
    requires CowOk(m0) && IsRoot(m0.owner, p) && IsRoot(m0.owner, a) && IsRoot(m0.owner, b) && p != c && !(a == b && u == w)
    requires UserPages(m0) && HasSpecials(m0, c)
    ensures Apart(After(m0, p, c, a, u), After(m0, p, c, b, w))
  {
    var oa, ob := Origin(m0, p, c, a, u), Origin(m0, p, c, b, w);
    if oa == ob && u == w {
      assert UserEntry(m0.boot, u, Lookup(m0.tab, p, u));
      AfterShared(m0, p, c, a, b, u);
    } else {
      AfterDerived(m0, p, c, a, u);
      AfterDerived(m0, p, c, b, w);
      assert Apart(Lookup(m0.tab, oa, u), Lookup(m0.tab, ob, w));
    }
  }

  lemma ForkCow(m0: Mem, m': Mem, p: Ppn, c: Ppn)
    requires Forkable(m0, p, c) && CowOk(m0) && UserPages(m0) && HasSpecials(m0, c) && Dupd(m0, m', p, c, PAGE_COUNT)
    ensures CowOk(m')
  {
    forall a, b, u: Vpn, w: Vpn | IsRoot(m'.owner, a) && IsRoot(m'.owner, b) && !(a == b && u == w)
      ensures Apart(Lookup(m'.tab, a, u), Lookup(m'.tab, b, w))
    {
      assert IsRoot(m0.owner, a) && IsRoot(m0.owner, b);
      AfterApart(m0, p, c, a, b, u, w);
    }
  }

  lemma ForkUser(m0: Mem, m': Mem, p: Ppn, c: Ppn)
    requires Forkable(m0, p, c) && UserPages(m0) && Dupd(m0, m', p, c, PAGE_COUNT)
    ensures UserPages(m')
  {
    forall q, u: Vpn | IsRoot(m'.owner, q) ensures UserEntry(m'.boot, u, Lookup(m'.tab, q, u)) {
      assert IsRoot(m0.owner, q);
      AfterDerived(m0, p, c, q, u);
      assert UserEntry(m0.boot, u, Lookup(m0.tab, Origin(m0, p, c, q, u), u));
    }
  }

  /** Every entry shows the page its origin showed before. */
  lemma ForkPage(m0: Mem, m': Mem, p: Ppn, c: Ppn, q: Ppn, u: Vpn)
    requires Forkable(m0, p, c) && Dupd(m0, m', p, c, PAGE_COUNT) && IsRoot(m0.owner, q)
    ensures var old' := Lookup(m0.tab, Origin(m0, p, c, q, u), u);
            && InView(Lookup(m'.tab, q, u)) == InView(old') && KindOf(Lookup(m'.tab, q, u)) == KindOf(old')
            && PageAt(m', Lookup(m'.tab, q, u)) == PageAt(m0, old')
  {
    var o := Origin(m0, p, c, q, u);
    AfterDerived(m0, p, c, q, u);
    assert Lookup(m'.tab, q, u) == After(m0, p, c, q, u);
    if Lookup(m0.tab, o, u).v { InUse(m0, o, u); }
  }

  /** Two address spaces, in two states, that show the same pages. */
  lemma ViewBy(m: Mem, q: Ppn, m': Mem, q': Ppn)
    requires forall u: Vpn | !Special(u) :: InView(Lookup(m'.tab, q', u)) == InView(Lookup(m.tab, q, u))
    requires forall u: Vpn | !Special(u) :: PageAt(m', Lookup(m'.tab, q', u)) == PageAt(m, Lookup(m.tab, q, u))
    ensures ViewOf(m', q') == ViewOf(m, q)
  {
  }

  /** Two address spaces, in two states, whose user pages are of the same kinds. */
  lemma KindsBy(m: Mem, q: Ppn, m': Mem, q': Ppn)
    requires forall u: Vpn {:trigger Lookup(m'.tab, q', u)} ::
               KindOf(Lookup(m'.tab, q', u)) == if Special(u) then Private else KindOf(Lookup(m.tab, q, u))
    ensures KindsOf(m', q') == UserKinds(KindsOf(m, q))
  {
    var a, b := KindsOf(m', q'), UserKinds(KindsOf(m, q));
    forall u: Vpn ensures u in a <==> u in b {
      assert Lookup(m'.tab, q', u).perm.shared <==> KindOf(Lookup(m'.tab, q', u)) != Private;
    }
  }

  lemma SameKinds(m: Mem, m': Mem, q: Ppn)
    requires forall u: Vpn {:trigger Lookup(m'.tab, q, u)} :: KindOf(Lookup(m'.tab, q, u)) == KindOf(Lookup(m.tab, q, u))
    ensures KindsOf(m', q) == KindsOf(m, q)
  {
    var a, b := KindsOf(m', q), KindsOf(m, q);
    forall u: Vpn ensures u in a <==> u in b {
      assert Lookup(m'.tab, q, u).perm.shared <==> KindOf(Lookup(m'.tab, q, u)) != Private;
    }
  }

  lemma ForkOther(m0: Mem, m': Mem, p: Ppn, c: Ppn, q: Ppn)
    requires Forkable(m0, p, c) && Dupd(m0, m', p, c, PAGE_COUNT) && IsRoot(m0.owner, q) && q != c
    ensures ViewOf(m', q) == ViewOf(m0, q) && KindsOf(m', q) == KindsOf(m0, q)
  {
    hide Whole, Dupd, Lookup, PageAt, KindOf, ViewOf, KindsOf;
    forall u: Vpn
      ensures InView(Lookup(m'.tab, q, u)) == InView(Lookup(m0.tab, q, u))
      ensures KindOf(Lookup(m'.tab, q, u)) == KindOf(Lookup(m0.tab, q, u))
      ensures PageAt(m', Lookup(m'.tab, q, u)) == PageAt(m0, Lookup(m0.tab, q, u))
    {
      ForkPage(m0, m', p, c, q, u);
    }
    ViewBy(m0, q, m', q);
    SameKinds(m0, m', q);
  }

  /** The child reads the parent's bytes at every user address, and shares what the parent shared. */
  lemma ForkChild(m0: Mem, m': Mem, p: Ppn, c: Ppn)
    requires Forkable(m0, p, c) && Dupd(m0, m', p, c, PAGE_COUNT) && NewSpace(m0, c)
    ensures ViewOf(m', c) == ViewOf(m0, p) && KindsOf(m', c) == UserKinds(KindsOf(m0, p))
  {
    hide Whole, Dupd, Lookup, PageAt, ViewOf, KindsOf;
    forall u: Vpn
      ensures !Special(u) ==> InView(Lookup(m'.tab, c, u)) == InView(Lookup(m0.tab, p, u))
      ensures !Special(u) ==> PageAt(m', Lookup(m'.tab, c, u)) == PageAt(m0, Lookup(m0.tab, p, u))
      ensures KindOf(Lookup(m'.tab, c, u)) == if Special(u) then Private else KindOf(Lookup(m0.tab, p, u))
    {
      ForkPage(m0, m', p, c, c, u);
      if Special(u) {
        assert Lookup(m0.tab, c, u) != ZERO_PTE && !Lookup(m0.tab, c, u).perm.shared;
      } else {
        assert Lookup(m0.tab, c, u) == ZERO_PTE;
      }
    }
    ViewBy(m0, p, m', c);
    KindsBy(m0, p, m', c);
  }

  /** An address space that has just been made. */
  ghost predicate NewSpace(m: Mem, c: Ppn) {
    && (forall u: Vpn {:trigger Lookup(m.tab, c, u)} | !Special(u) :: Lookup(m.tab, c, u) == ZERO_PTE)
    && (forall u: Vpn {:trigger Lookup(m.tab, c, u)} :: !Lookup(m.tab, c, u).perm.shared)
    && HasSpecials(m, c)
  }

  lemma BootCarried(m0: Mem, m': Mem)
    requires Whole(m0) && BootHeld(m0) && Carried(m0, m')
    ensures BootHeld(m')
  {
    forall f | f in m'.boot ensures f in m'.hold && m'.hold[f] > 0 && f !in m'.tab {
      assert m0.ref[f] == |Slots(m0.tab, m0.dead, f)| + m0.hold[f];
    }
  }

  lemma DupViews(m0: Mem, m': Mem, p: Ppn, c: Ppn)
    requires Forkable(m0, p, c) && Progress(m0, m', p, c, PAGE_COUNT) && UserOk(m0) && NewSpace(m0, c)
    ensures UserOk(m') && (forall q :: IsRoot(m'.owner, q) <==> IsRoot(m0.owner, q))
    ensures forall q | IsRoot(m0.owner, q) && q != c :: ViewOf(m', q) == ViewOf(m0, q) && KindsOf(m', q) == KindsOf(m0, q)
    ensures ViewOf(m', c) == ViewOf(m0, p) && KindsOf(m', c) == UserKinds(KindsOf(m0, p))
  {
    ForkCow(m0, m', p, c);
    ForkUser(m0, m', p, c);
    BootCarried(m0, m');
    forall q | IsRoot(m0.owner, q) && q != c ensures ViewOf(m', q) == ViewOf(m0, q) && KindsOf(m', q) == KindsOf(m0, q) {
      ForkOther(m0, m', p, c, q);
    }
    ForkChild(m0, m', p, c);
  }

  lemma ForkedBy(m: Mem, m0: Mem, m': Mem, p: Ppn, c: Ppn)
    requires IsRoot(m.owner, p) && p != c && Spawned(SimpleOf(m), c, SimpleOf(m0))
    requires forall q :: IsRoot(m'.owner, q) <==> IsRoot(m0.owner, q)
    requires forall q | IsRoot(m0.owner, q) && q != c :: ViewOf(m', q) == ViewOf(m0, q) && KindsOf(m', q) == KindsOf(m0, q)
    requires ViewOf(m', c) == ViewOf(m0, p) && KindsOf(m', c) == UserKinds(KindsOf(m0, p))
    ensures Forked(SimpleOf(m), p, c, SimpleOf(m'))
  {
    hide ViewOf, KindsOf, UserKinds, AllViews, AllKinds, IsRoot;
    forall q ensures ForkedAt(SimpleOf(m), SimpleOf(m'), p, c, q) {
      RootIs(m0, q);
      RootIs(m', q);
      RootIs(m, q);
      RootIs(m0, p);
      RootIs(m, p);
    }
    RootIs(m, p);
    ForkedAll(SimpleOf(m), SimpleOf(m'), p, c);
  }

  ghost predicate ForkedAt(s: Simple, s': Simple, p: Ppn, c: Ppn, q: Ppn) {
    && (q in s'.views <==> q in s.views || q == c) && (q in s'.kinds <==> q in s.kinds || q == c)
    && (q in s'.views ==> if q == c then p in s.views && s'.views[q] == s.views[p] else s'.views[q] == s.views[q])
    && (q in s'.kinds ==> if q == c then p in s.kinds && s'.kinds[q] == UserKinds(s.kinds[p]) else s'.kinds[q] == s.kinds[q])
  }

  lemma ForkedAll(s: Simple, s': Simple, p: Ppn, c: Ppn)
    requires p in s.views && p in s.kinds && c !in s.views
    requires forall q {:trigger ForkedAt(s, s', p, c, q)} :: ForkedAt(s, s', p, c, q)
    ensures Forked(s, p, c, s')
  {
    hide UserKinds;
    forall q ensures (q in s'.views <==> q in s.views || q == c) && (q in s'.kinds <==> q in s.kinds || q == c) {
      assert ForkedAt(s, s', p, c, q);
    }
    assert ForkedAt(s, s', p, c, c);
    var views, kinds := s.views[c := s.views[p]], s.kinds[c := UserKinds(s.kinds[p])];
    forall q | q in s'.views ensures s'.views[q] == views[q] { assert ForkedAt(s, s', p, c, q); }
    forall q | q in s'.kinds ensures s'.kinds[q] == kinds[q] { assert ForkedAt(s, s', p, c, q); }
    assert s'.views == views && s'.kinds == kinds;
  }

  /**
   Fork in the simple system: right after it the child reads the parent's bytes at
   every user address, private or shared, and nothing any other process reads has changed.
   */
  lemma ForkViews(m: Mem, p: Ppn, tramp: Ppn, sig: Ppn, m': Mem, c: Ppn)
    requires UserOk(m) && IsRoot(m.owner, p) && BootFrame(m, tramp) && BootFrame(m, sig)
    requires ForkSpace(m, p, tramp, sig) == Ok((m', c))
    ensures UserOk(m') && Forked(SimpleOf(m), p, c, SimpleOf(m'))
  {
    hide InitUpt, PdWalk, Lookup, AllViews, AllKinds, CowOk, UserPages, BootHeld, Whole, ViewOf, KindsOf;
    var m0 := ForkParts(m, p, tramp, sig, m', c);
    InitUptBorn(m, tramp, sig, m0, c);
    RootIs(m, p);
    RootIs(m, c);
    RootIs(m0, p);
    DupWalk(m0, p, c, m');
    DupViews(m0, m', p, c);
    ForkedBy(m, m0, m', p, c);
  }

  /** The same page by page, without the simple system. */
  lemma ForkReads(m: Mem, p: Ppn, tramp: Ppn, sig: Ppn, m': Mem, c: Ppn, u: Vpn)
    requires UserOk(m) && IsRoot(m.owner, p) && BootFrame(m, tramp) && BootFrame(m, sig) && !Special(u)
    requires ForkSpace(m, p, tramp, sig) == Ok((m', c))
    ensures var before, child := Lookup(m.tab, p, u), Lookup(m'.tab, c, u);
            child.perm.u == before.perm.u && PageAt(m', child) == PageAt(m, before) && KindOf(child) == KindOf(before)
  {
    hide ForkSpace, AllViews, AllKinds, Lookup, PageAt, CowOk, BootHeld, Whole;
    ForkViews(m, p, tramp, sig, m', c);
    RootIs(m, p);
    RootIs(m', c);
    assert UserEntry(m.boot, u, Lookup(m.tab, p, u)) && UserEntry(m'.boot, u, Lookup(m'.tab, c, u));
    assert u in ViewOf(m', c) <==> u in ViewOf(m, p);
    assert u in KindsOf(m', c) <==> u in KindsOf(m, p);
    if u !in ViewOf(m, p) { assert Lookup(m'.tab, c, u) == ZERO_PTE == Lookup(m.tab, p, u); NoPage(m, m'); }
  }

  lemma NoPage(m: Mem, m': Mem)
    ensures PageAt(m', ZERO_PTE) == PageAt(m, ZERO_PTE)
  {
  }

  // ---- the entries after fork ---------------------------------------------------------

  lemma Numbered(v: Vpn)
    ensures Num(v) < PAGE_COUNT
  {
  }

  /** Entry a permits what b does: the same modes, and stores at once or after a copy. */
  predicate Permits(a: Pte, b: Pte) {
    && a.perm.u == b.perm.u && a.perm.r == b.perm.r && a.perm.x == b.perm.x
    && (a.perm.w || a.perm.cow <==> b.perm.w || b.perm.cow)
  }

  lemma ExpectPermits(m0: Mem, p: Ppn, c: Ppn, q: Ppn, u: Vpn)
    requires p != c && Lookup(m0.tab, c, u) == ZERO_PTE
    ensures var e, e' := Lookup(m0.tab, if q == c then p else q, u), After(m0, p, c, q, u);
            Permits(e', e) && (!e.v ==> e' == e)
  {
    hide Lookup, PAGE_COUNT, Num;
    Numbered(u);
  }

  /**
   At a user page fork leaves parent and child with what the parent's entry permitted;
   an entry without a frame is carried over as it is; no other process is touched.
   */
  lemma ForkEntries(m: Mem, p: Ppn, tramp: Ppn, sig: Ppn, m': Mem, c: Ppn, q: Ppn, u: Vpn)
    requires UserOk(m) && IsRoot(m.owner, p) && BootFrame(m, tramp) && BootFrame(m, sig) && !Special(u)
    requires ForkSpace(m, p, tramp, sig) == Ok((m', c)) && IsRoot(m'.owner, q)
    ensures !IsRoot(m.owner, c) && (IsRoot(m.owner, q) || q == c)
    ensures var e, e' := Lookup(m.tab, if q == c then p else q, u), Lookup(m'.tab, q, u);
            Permits(e', e) && (!e.v ==> e' == e)
  {
    hide InitUpt, PdWalk, Lookup, AllViews, AllKinds, CowOk, UserPages, BootHeld, Whole, Expect, Permits, Stable, HasSpecials;
    var m0 := ForkParts(m, p, tramp, sig, m', c);
    InitUptBorn(m, tramp, sig, m0, c);
    RootIs(m, p);
    RootIs(m0, p);
    RootIs(m, q);
    RootIs(m0, q);
    DupWalk(m0, p, c, m');
    ExpectPermits(m0, p, c, q, u);
  }
}
