/**
 The system the kernel lets its processes believe in: every process has pages of
 bytes, some of them shared with other processes, and no frames, tables or counts.
 */
module SimpleSystem {
  import opened Words
  import opened Sv39
  import opened PageTables
  import opened VmState

  /** TRAPFRAME, SIGNAL_TRAMPOLINE and TRAMPOLINE: the pages every address space has above user memory. */
  predicate Special(v: Vpn) {
    v.i == 255 && v.j == 511 && v.k >= 509
  }

  /** The user pages of one process, private and shared, by number. */
  type View = imap<Vpn, Page>

  type Views = imap<Ppn, View>

  /** A page of one process alone; a shared page nobody has touched; or a page that others may have too, under a common name. */
  datatype Kind = Private | Lazy | Linked(name: Ppn)

  /** The kinds of the shared pages of one process; all others are private. */
  type KindMap = imap<Vpn, Kind>

  type Kinds = imap<Ppn, KindMap>

  datatype Simple = Simple(views: Views, kinds: Kinds)

  ghost function KindAt(kinds: Kinds, p: Ppn, v: Vpn): Kind {
    if p in kinds && v in kinds[p] then kinds[p][v] else Private
  }

  /** Page u of q and page v of p are one and the same memory. */
  ghost predicate Same(kinds: Kinds, p: Ppn, v: Vpn, q: Ppn, u: Vpn) {
    (q == p && u == v) || (KindAt(kinds, p, v).Linked? && KindAt(kinds, q, u) == KindAt(kinds, p, v))
  }

  // ---- what steps do to pages ---------------------------------------------------------

  /** The view after page v has been given new contents, or has stopped being a user page. */
  ghost function SetPage(view: View, v: Vpn, visible: bool, page: Page): View {
    imap u: Vpn | (if u == v then !Special(v) && visible else u in view) :: if u == v then page else view[u]
  }

  ghost function SetKind(kinds: Kinds, p: Ppn, v: Vpn, k: Kind): Kinds {
    if p in kinds then kinds[p := SetShared(kinds[p], v, k)] else kinds
  }

  ghost function SetShared(shared: KindMap, v: Vpn, k: Kind): KindMap {
    imap u: Vpn | (if u == v then k != Private else u in shared) :: if u == v then k else shared[u]
  }

  /** Some bytes of page v of p change, and with them those of every page that is the same memory. */
  ghost function PutAt(views: Views, kinds: Kinds, p: Ppn, v: Vpn, off: nat, bytes: seq<Byte>): Views {
    imap q | q in views :: PutIn(views[q], kinds, p, v, off, bytes, q)
  }

  ghost function PutIn(view: View, kinds: Kinds, p: Ppn, v: Vpn, off: nat, bytes: seq<Byte>, q: Ppn): View {
    imap u | u in view ::
      if Same(kinds, p, v, q, u) && off + |bytes| <= |view[u]| then Patch(view[u], off, bytes) else view[u]
  }

  /** Bytes are stored one after the other, over as many pages as it takes. */
  ghost function PutBytes(views: Views, kinds: Kinds, p: Ppn, va: nat, bytes: seq<Byte>): Views
    decreases |bytes|
  {
    if bytes == [] then views
    else PutBytes(PutAt(views, kinds, p, VpnOf(va), va % PAGE_SIZE, bytes[..1]), kinds, p, va + 1, bytes[1..])
  }

  /** Shared pages that p has touched for the first time have a name of their own now; nothing else is different. */
  ghost predicate Touched(kinds: Kinds, p: Ppn, kinds': Kinds) {
    && (forall q :: q in kinds' <==> q in kinds)
    && (forall q, u {:trigger KindAt(kinds', q, u)} ::
          KindAt(kinds', q, u) == KindAt(kinds, q, u) || (q == p && Named(kinds, kinds', q, u)))
  }

  ghost predicate Named(kinds: Kinds, kinds': Kinds, q: Ppn, u: Vpn) {
    && KindAt(kinds, q, u) == Lazy && KindAt(kinds', q, u).Linked?
    && forall r, w {:trigger KindAt(kinds', r, w)} | !(r == q && w == u) :: KindAt(kinds', r, w) != KindAt(kinds', q, u)
  }

  /** No page has the name n. */
  ghost predicate Unused(kinds: Kinds, n: Ppn) {
    forall q, u {:trigger KindAt(kinds, q, u)} :: KindAt(kinds, q, u) != Linked(n)
  }

  /** What a child takes over: the kinds of all pages but the three special ones. */
  ghost function UserKinds(shared: KindMap): KindMap {
    imap v | v in shared && !Special(v) :: shared[v]
  }

  ghost function Without<T>(a: imap<Ppn, T>, p: Ppn): imap<Ppn, T> {
    imap q | q in a && q != p :: a[q]
  }

  /** bytes is what a view holds from va on, as far as it has the pages. */
  ghost predicate ReadsAs(view: View, va: nat, bytes: seq<Byte>) {
    forall i {:trigger bytes[i]} | 0 <= i < |bytes| :: ByteIs(view, va + i, bytes[i])
  }

  ghost predicate ByteIs(view: View, va: nat, b: Byte) {
    VpnOf(va) in view ==> va % PAGE_SIZE < |view[VpnOf(va)]| && b == view[VpnOf(va)][va % PAGE_SIZE]
  }

  // ---- the steps ----------------------------------------------------------------------

  /** What a process, or the kernel on its behalf, does to memory, with what came of it. */
  datatype Op =
    | Spawn(p: Ppn)
    | Fork(p: Ppn, child: Ppn)
    | Exit(p: Ppn)
    | Load(p: Ppn, v: Vpn, off: nat, b: Byte, done: bool)
    | Store(p: Ppn, v: Vpn, off: nat, b: Byte, done: bool)
    | MapAt(p: Ppn, v: Vpn, perm: Perm, added: bool)
    | UnmapAt(p: Ppn, v: Vpn)
    | Read(p: Ppn, uptr: nat, bytes: seq<Byte>)
    | Write(p: Ppn, uptr: nat, bytes: seq<Byte>)

  /** The kind a page can have that has just been mapped. */
  ghost predicate NewKind(kinds: Kinds, shared: bool, k: Kind) {
    if !shared then k == Private else k == Lazy || (k.Linked? && Unused(kinds, k.name))
  }

  ghost predicate Mapped(s: Simple, p: Ppn, v: Vpn, shared: bool, s': Simple) {
    && p in s.views && s'.views == s.views[p := SetPage(s.views[p], v, true, ZeroPage())]
    && exists k :: NewKind(s.kinds, shared, k) && s'.kinds == SetKind(s.kinds, p, v, k)
  }

  ghost predicate Unmapped(s: Simple, p: Ppn, v: Vpn, s': Simple) {
    && p in s.views && s'.views == s.views[p := SetPage(s.views[p], v, false, ZeroPage())]
    && s'.kinds == SetKind(s.kinds, p, v, Private)
  }

  ghost predicate Spawned(s: Simple, p: Ppn, s': Simple) {
    p !in s.views && s' == Simple(s.views[p := imap[]], s.kinds[p := imap[]])
  }

  ghost predicate Forked(s: Simple, p: Ppn, child: Ppn, s': Simple) {
    && p in s.views && p in s.kinds && child !in s.views
    && s' == Simple(s.views[child := s.views[p]], s.kinds[child := UserKinds(s.kinds[p])])
  }

  ghost predicate Exited(s: Simple, p: Ppn, s': Simple) {
    p in s.views && s' == Simple(Without(s.views, p), Without(s.kinds, p))
  }

  ghost predicate Loaded(s: Simple, p: Ppn, v: Vpn, off: nat, b: Byte, done: bool, s': Simple) {
    && p in s.views && s'.views == s.views && Touched(s.kinds, p, s'.kinds)
    && (done && v in s.views[p] ==> off < |s.views[p][v]| && b == s.views[p][v][off])
  }

  ghost predicate Stored(s: Simple, p: Ppn, v: Vpn, off: nat, b: Byte, done: bool, s': Simple) {
    && p in s.views && Touched(s.kinds, p, s'.kinds)
    && s'.views == if done then PutAt(s.views, s'.kinds, p, v, off, [b]) else s.views
  }

  ghost predicate CopiedIn(s: Simple, p: Ppn, uptr: nat, bytes: seq<Byte>, s': Simple) {
    p in s.views && s'.views == s.views && Touched(s.kinds, p, s'.kinds) && ReadsAs(s.views[p], uptr, bytes)
  }

  ghost predicate CopiedOut(s: Simple, p: Ppn, uptr: nat, bytes: seq<Byte>, s': Simple) {
    p in s.views && Touched(s.kinds, p, s'.kinds) && s'.views == PutBytes(s.views, s'.kinds, p, uptr, bytes)
  }

  /**
   One step.  Left open are the names of shared pages, whether a refused access has
   touched one, and which accesses are refused: that is the table of rights.
   */
  ghost predicate SimpleStep(s: Simple, op: Op, s': Simple) {
    match op
    case Spawn(p) => Spawned(s, p, s')
    case Fork(p, child) => Forked(s, p, child, s')
    case Exit(p) => Exited(s, p, s')
    case Load(p, v, off, b, done) => Loaded(s, p, v, off, b, done, s')
    case Store(p, v, off, b, done) => Stored(s, p, v, off, b, done, s')
    case MapAt(p, v, perm, added) => if added then Mapped(s, p, v, perm.shared, s') else p in s.views && s' == s
    case UnmapAt(p, v) => Unmapped(s, p, v, s')
    case Read(p, uptr, bytes) => CopiedIn(s, p, uptr, bytes, s')
    case Write(p, uptr, bytes) => CopiedOut(s, p, uptr, bytes, s')
  }

  /** A store to a private page changes no other page of any process. */
  lemma StoredElsewhere(s: Simple, p: Ppn, v: Vpn, off: nat, b: Byte, done: bool, s': Simple, q: Ppn, u: Vpn)
    requires Stored(s, p, v, off, b, done, s') && KindAt(s.kinds, p, v) == Private
    requires q in s.views && u in s.views[q] && !(q == p && u == v)
    ensures q in s'.views && u in s'.views[q] && s'.views[q][u] == s.views[q][u]
  {
    hide Patch;
    assert KindAt(s'.kinds, p, v) == Private;
  }

  // ---- touching -------------------------------------------------------------------------

  lemma TouchedNot(kinds: Kinds, p: Ppn)
    ensures Touched(kinds, p, kinds)
  {
  }

  lemma TouchedOnce(kinds: Kinds, p: Ppn, v: Vpn, n: Ppn)
    requires KindAt(kinds, p, v) == Lazy && Unused(kinds, n)
    ensures Touched(kinds, p, SetKind(kinds, p, v, Linked(n)))
  {
    var kinds' := SetKind(kinds, p, v, Linked(n));
    forall q, u ensures KindAt(kinds', q, u) == if q == p && u == v then Linked(n) else KindAt(kinds, q, u) {
    }
    assert Named(kinds, kinds', p, v);
  }

  lemma TouchedTwice(a: Kinds, p: Ppn, b: Kinds, c: Kinds)
    requires Touched(a, p, b) && Touched(b, p, c)
    ensures Touched(a, p, c)
  {
    forall q, u ensures KindAt(c, q, u) == KindAt(a, q, u) || (q == p && Named(a, c, q, u)) {
      assert KindAt(b, q, u) == KindAt(a, q, u) || (q == p && Named(a, b, q, u));
      if KindAt(c, q, u) == KindAt(b, q, u) != KindAt(a, q, u) {
        forall r, w | !(r == q && w == u) ensures KindAt(c, r, w) != KindAt(c, q, u) {
          assert KindAt(b, r, w) != KindAt(b, q, u);
        }
      }
    }
  }

  /** Touching other pages does not change which pages are the same memory as v, once v has been touched. */
  lemma SameKept(a: Kinds, p: Ppn, b: Kinds, v: Vpn, q: Ppn, u: Vpn)
    requires Touched(a, p, b) && KindAt(a, p, v) != Lazy
    ensures Same(a, p, v, q, u) == Same(b, p, v, q, u)
  {
    assert KindAt(b, p, v) == KindAt(a, p, v);
    assert KindAt(b, q, u) == KindAt(a, q, u) || (q == p && Named(a, b, q, u));
  }

  lemma PutKept(views: Views, a: Kinds, p: Ppn, b: Kinds, v: Vpn, off: nat, bytes: seq<Byte>)
    requires Touched(a, p, b) && KindAt(a, p, v) != Lazy
    ensures PutAt(views, a, p, v, off, bytes) == PutAt(views, b, p, v, off, bytes)
  {
    forall q | q in views ensures PutIn(views[q], a, p, v, off, bytes, q) == PutIn(views[q], b, p, v, off, bytes, q) {
      forall u | u in views[q] ensures Same(a, p, v, q, u) == Same(b, p, v, q, u) {
        SameKept(a, p, b, v, q, u);
      }
    }
  }

  // ---- storing ---------------------------------------------------------------------------

  ghost predicate Sized(views: Views) {
    forall q, u {:trigger views[q][u]} | q in views && u in views[q] :: |views[q][u]| == PAGE_SIZE
  }

  lemma PutSized(views: Views, kinds: Kinds, p: Ppn, v: Vpn, off: nat, bytes: seq<Byte>)
    requires Sized(views)
    ensures Sized(PutAt(views, kinds, p, v, off, bytes))
  {
  }

  lemma PatchTwice(page: Page, off: nat, a: seq<Byte>, b: seq<Byte>)
    requires off + |a| + |b| <= |page|
    ensures Patch(Patch(page, off, a), off + |a|, b) == Patch(page, off, a + b)
  {
  }

  lemma PutInTwice(view: View, kinds: Kinds, p: Ppn, v: Vpn, off: nat, a: seq<Byte>, b: seq<Byte>, q: Ppn)
    requires (forall u | u in view :: |view[u]| == PAGE_SIZE) && off + |a| + |b| <= PAGE_SIZE
    ensures PutIn(PutIn(view, kinds, p, v, off, a, q), kinds, p, v, off + |a|, b, q) == PutIn(view, kinds, p, v, off, a + b, q)
  {
    hide Same, Patch;
    forall u | u in view
      ensures PutIn(PutIn(view, kinds, p, v, off, a, q), kinds, p, v, off + |a|, b, q)[u] == PutIn(view, kinds, p, v, off, a + b, q)[u]
    {
      PatchTwice(view[u], off, a, b);
    }
  }

  lemma PutTwice(views: Views, kinds: Kinds, p: Ppn, v: Vpn, off: nat, a: seq<Byte>, b: seq<Byte>)
    requires Sized(views) && off + |a| + |b| <= PAGE_SIZE
    ensures PutAt(PutAt(views, kinds, p, v, off, a), kinds, p, v, off + |a|, b) == PutAt(views, kinds, p, v, off, a + b)
  {
    hide PutIn;
    forall q | q in views
      ensures PutIn(PutIn(views[q], kinds, p, v, off, a, q), kinds, p, v, off + |a|, b, q) == PutIn(views[q], kinds, p, v, off, a + b, q)
    {
      assert forall u | u in views[q] :: |views[q][u]| == PAGE_SIZE;
      PutInTwice(views[q], kinds, p, v, off, a, b, q);
    }
  }

  lemma PutNone(views: Views, kinds: Kinds, p: Ppn, v: Vpn, off: nat)
    ensures PutAt(views, kinds, p, v, off, []) == views
  {
    forall q | q in views ensures PutIn(views[q], kinds, p, v, off, [], q) == views[q] {
      forall u | u in views[q] && off <= |views[q][u]| ensures Patch(views[q][u], off, []) == views[q][u] {
      }
    }
  }

  lemma {:induction false} PutBytesSized(views: Views, kinds: Kinds, p: Ppn, va: nat, bytes: seq<Byte>)
    requires Sized(views)
    ensures Sized(PutBytes(views, kinds, p, va, bytes))
    decreases |bytes|
  {
    if bytes != [] {
      var next := PutAt(views, kinds, p, VpnOf(va), va % PAGE_SIZE, bytes[..1]);
      PutSized(views, kinds, p, VpnOf(va), va % PAGE_SIZE, bytes[..1]);
      PutBytesSized(next, kinds, p, va + 1, bytes[1..]);
    }
  }

  lemma SamePage(va: nat, i: nat)
    requires va % PAGE_SIZE + i < PAGE_SIZE
    ensures VpnOf(va + i) == VpnOf(va) && (va + i) % PAGE_SIZE == va % PAGE_SIZE + i
  {
    assert (va + i) / 0x1000 == va / 0x1000;
    assert va / 0x20_0000 == va / 0x1000 / 512 && (va + i) / 0x20_0000 == (va + i) / 0x1000 / 512;
    assert va / 0x4000_0000 == va / 0x1000 / 512 / 512 && (va + i) / 0x4000_0000 == (va + i) / 0x1000 / 512 / 512;
  }

  /** Inside one page the bytes may be stored all at once. */
  lemma {:induction false} PutWhole(views: Views, kinds: Kinds, p: Ppn, va: nat, bytes: seq<Byte>)
    requires Sized(views) && va % PAGE_SIZE + |bytes| <= PAGE_SIZE
    ensures PutBytes(views, kinds, p, va, bytes) == PutAt(views, kinds, p, VpnOf(va), va % PAGE_SIZE, bytes)
    decreases |bytes|
  {
    hide VpnOf, PutAt;
    var v, off := VpnOf(va), va % PAGE_SIZE;
    if bytes == [] {
      PutNone(views, kinds, p, v, off);
    } else {
      var next := PutAt(views, kinds, p, v, off, bytes[..1]);
      PutSized(views, kinds, p, v, off, bytes[..1]);
      assert bytes == bytes[..1] + bytes[1..];
      PutTwice(views, kinds, p, v, off, bytes[..1], bytes[1..]);
      if |bytes| > 1 {
        SamePage(va, 1);
        PutWhole(next, kinds, p, va + 1, bytes[1..]);
      } else {
        PutNone(next, kinds, p, v, off + 1);
      }
    }
  }

  lemma {:induction false} PutJoin(views: Views, kinds: Kinds, p: Ppn, va: nat, a: seq<Byte>, b: seq<Byte>)
    ensures PutBytes(PutBytes(views, kinds, p, va, a), kinds, p, va + |a|, b) == PutBytes(views, kinds, p, va, a + b)
    decreases |a|
  {
    hide PutAt, VpnOf;
    if a == [] {
      assert a + b == b;
    } else {
      assert (a + b)[..1] == a[..1] && (a + b)[1..] == a[1..] + b;
      PutJoin(PutAt(views, kinds, p, VpnOf(va), va % PAGE_SIZE, a[..1]), kinds, p, va + 1, a[1..], b);
    }
  }

  // ---- which byte ends up where ------------------------------------------------------------

  /** Address va of process p is byte o of page u of process q. */
  ghost predicate Hits(kinds: Kinds, p: Ppn, va: nat, q: Ppn, u: Vpn, o: nat) {
    Same(kinds, p, VpnOf(va), q, u) && va % PAGE_SIZE == o
  }

  lemma PutOne(views: Views, kinds: Kinds, p: Ppn, va: nat, b: Byte, q: Ppn, u: Vpn, o: nat)
    requires Sized(views) && q in views && u in views[q] && o < PAGE_SIZE
    ensures var views' := PutAt(views, kinds, p, VpnOf(va), va % PAGE_SIZE, [b]);
            && Sized(views') && q in views' && u in views'[q] && |views[q][u]| == |views'[q][u]| == PAGE_SIZE
            && views'[q][u][o] == if Hits(kinds, p, va, q, u, o) then b else views[q][u][o]
  {
    PutSized(views, kinds, p, VpnOf(va), va % PAGE_SIZE, [b]);
    var views' := PutAt(views, kinds, p, VpnOf(va), va % PAGE_SIZE, [b]);
    assert |views[q][u]| == PAGE_SIZE && |views'[q][u]| == PAGE_SIZE;
  }

  /** Stored byte k of a write at va falls on the place. */
  ghost predicate HitBy(kinds: Kinds, p: Ppn, va: nat, k: nat, q: Ppn, u: Vpn, o: nat) {
    Hits(kinds, p, va + k, q, u, o)
  }

  /** Byte j is the last of len stored ones that falls on the place; -1 says that none does. */
  ghost predicate LastHit(kinds: Kinds, p: Ppn, va: nat, len: nat, q: Ppn, u: Vpn, o: nat, j: int) {
    && -1 <= j < len && (j >= 0 ==> HitBy(kinds, p, va, j, q, u, o))
    && forall k: nat {:trigger HitBy(kinds, p, va, k, q, u, o)} | j < k < len :: !HitBy(kinds, p, va, k, q, u, o)
  }

  lemma FindLast(kinds: Kinds, p: Ppn, va: nat, len: nat, q: Ppn, u: Vpn, o: nat) returns (j: int)
    ensures LastHit(kinds, p, va, len, q, u, o, j)
  {
    hide HitBy;
    j := len - 1;
    while j >= 0 && !HitBy(kinds, p, va, j, q, u, o)
      invariant -1 <= j < len
      invariant forall k: nat {:trigger HitBy(kinds, p, va, k, q, u, o)} | j < k < len :: !HitBy(kinds, p, va, k, q, u, o)
    {
      j := j - 1;
    }
  }

  lemma HitLater(kinds: Kinds, p: Ppn, va: nat, va1: nat, k: nat, q: Ppn, u: Vpn, o: nat)
    requires va1 == va + 1
    ensures HitBy(kinds, p, va1, k, q, u, o) == HitBy(kinds, p, va, k + 1, q, u, o)
  {
    assert va1 + k == va + (k + 1);
  }

  lemma LastLater(kinds: Kinds, p: Ppn, va: nat, va1: nat, len: nat, q: Ppn, u: Vpn, o: nat, j: int)
    requires len > 0 && va1 == va + 1 && LastHit(kinds, p, va, len, q, u, o, j)
    ensures LastHit(kinds, p, va1, len - 1, q, u, o, if j < 0 then -1 else j - 1)
    ensures if j == 0 then Hits(kinds, p, va, q, u, o) else j < 0 ==> !Hits(kinds, p, va, q, u, o)
  {
    assert HitBy(kinds, p, va, 0, q, u, o) == Hits(kinds, p, va, q, u, o);
    hide HitBy;
    forall k: nat | (if j < 0 then -1 else j - 1) < k < len - 1 ensures !HitBy(kinds, p, va1, k, q, u, o) {
      HitLater(kinds, p, va, va1, k, q, u, o);
    }
    if j > 0 { HitLater(kinds, p, va, va1, j - 1, q, u, o); }
  }

  /** Every place holds the last byte stored there, or what it held before. */
  lemma {:induction false} LastWins(views: Views, kinds: Kinds, p: Ppn, va: nat, bytes: seq<Byte>, q: Ppn, u: Vpn, o: nat, j: int)
    requires Sized(views) && q in views && u in views[q] && o < PAGE_SIZE
    requires LastHit(kinds, p, va, |bytes|, q, u, o, j)
    ensures var views' := PutBytes(views, kinds, p, va, bytes);
            && q in views' && u in views'[q] && |views[q][u]| == |views'[q][u]| == PAGE_SIZE
            && views'[q][u][o] == if j < 0 then views[q][u][o] else bytes[j]
    decreases |bytes|
  {
    if bytes == [] {
      assert |views[q][u]| == PAGE_SIZE;
    } else {
      var next := PutAt(views, kinds, p, VpnOf(va), va % PAGE_SIZE, bytes[..1]);
      assert bytes[..1] == [bytes[0]];
      PutOne(views, kinds, p, va, bytes[0], q, u, o);
      LastLater(kinds, p, va, va + 1, |bytes|, q, u, o, j);
      hide LastHit, Hits, PutAt, VpnOf;
      LastWins(next, kinds, p, va + 1, bytes[1..], q, u, o, if j < 0 then -1 else j - 1);
    }
  }
}
