/**
 The buffer cache (kern/fs/buf.c): groups of buffers over a disk of sectors, with
 write-back on eviction and least-recently-released replacement.
 */
module Buffers {
  import opened Panics
  import opened Words

  const BUF_SIZE := 512
  const BGROUP_NUM := 16384
  const BGROUP_BUF_NUM := 32

  /** A sector's bytes. */
  type Sector = s: seq<Byte> | |s| == BUF_SIZE witness seq(BUF_SIZE, _ => 0)

  datatype Block = Block(dev: int, no: nat)

  type Disk = map<Block, Sector>

  /** dev is -1 in a buffer that has never been used. */
  datatype Buf = Buf(key: Block, valid: bool, dirty: bool, refcnt: nat, data: Sector)

  /** One group: its buffers, and the list that orders them, most recently released first. */
  datatype Group = Group(bufs: seq<Buf>, list: seq<nat>)

  datatype Slot = Slot(g: nat, i: nat)

  function GroupOf(b: Block): (g: nat)
    ensures g < BGROUP_NUM
  {
    b.no % BGROUP_NUM
  }

  /** The list names each buffer of the group once. */
  ghost predicate ListOk(g: Group) {
    && |g.bufs| == BGROUP_BUF_NUM && |g.list| == BGROUP_BUF_NUM && NoDup(g.list)
    && (forall p {:trigger g.list[p]} | 0 <= p < |g.list| :: g.list[p] < BGROUP_BUF_NUM)
    && (forall i {:trigger g.bufs[i]} | 0 <= i < |g.bufs| :: i in g.list)
  }

  /** A block has at most one buffer, in the group its number selects. */
  ghost predicate KeysOk(g: Group, gi: nat, disk: Disk) {
    && (forall i, j {:trigger g.bufs[i], g.bufs[j]} | 0 <= i < |g.bufs| && 0 <= j < |g.bufs| ::
          g.bufs[i].key == g.bufs[j].key && g.bufs[i].key.dev >= 0 ==> i == j)
    && (forall i {:trigger g.bufs[i]} | 0 <= i < |g.bufs| ::
          if g.bufs[i].key.dev >= 0 then g.bufs[i].key in disk && GroupOf(g.bufs[i].key) == gi
          else !g.bufs[i].valid)
  }

  /** A valid buffer that is not marked dirty, and that nobody has written to unmarked, equals the disk. */
  ghost predicate CleanOk(g: Group, gi: nat, disk: Disk, loose: set<Slot>) {
    forall i {:trigger g.bufs[i]} | 0 <= i < |g.bufs| ::
      g.bufs[i].valid && !g.bufs[i].dirty && Slot(gi, i) !in loose ==>
        g.bufs[i].key in disk && g.bufs[i].data == disk[g.bufs[i].key]
  }

  ghost predicate GroupOk(g: Group, gi: nat, disk: Disk, loose: set<Slot>) {
    ListOk(g) && KeysOk(g, gi, disk) && CleanOk(g, gi, disk, loose)
  }

  ghost predicate CacheOk(groups: seq<Group>, disk: Disk, loose: set<Slot>) {
    && |groups| == BGROUP_NUM && (forall b | b in disk :: b.dev >= 0)
    && (forall s {:trigger s in loose} | s in loose :: s.g < |groups| && s.i < |groups[s.g].bufs| && groups[s.g].bufs[s.i].refcnt > 0)
    && (forall gi {:trigger groups[gi]} | 0 <= gi < |groups| :: GroupOk(groups[gi], gi, disk, loose))
  }

  ghost predicate Holds(g: Group, i: nat, b: Block) {
    i < |g.bufs| && g.bufs[i].key == b && g.bufs[i].valid
  }

  /** What block b reads as: the cached bytes if there are any, otherwise the disk's. */
  ghost function Look(g: Group, disk: Disk, b: Block): Sector
    requires b in disk
  {
    if i: nat :| Holds(g, i, b) then g.bufs[i].data else disk[b]
  }

  /** The disk as the rest of the kernel sees it. */
  ghost function DiskView(groups: seq<Group>, disk: Disk): Disk {
    map b | b in disk :: if GroupOf(b) < |groups| then Look(groups[GroupOf(b)], disk, b) else disk[b]
  }

  /** A buffer for b decides what it reads as, and without one the disk does. */
  lemma LookIs(g: Group, gi: nat, disk: Disk, b: Block, x: Sector)
    requires KeysOk(g, gi, disk) && b in disk && b.dev >= 0
    requires forall i: nat | Holds(g, i, b) :: g.bufs[i].data == x
    requires (forall i: nat :: !Holds(g, i, b)) ==> disk[b] == x
    ensures Look(g, disk, b) == x
  {
    if exists i: nat :: Holds(g, i, b) {
      var i: nat :| Holds(g, i, b);
      assert g.bufs[i].data == x;
    }
  }

  lemma LookAt(g: Group, gi: nat, disk: Disk, b: Block, i: nat)
    requires KeysOk(g, gi, disk) && b in disk && b.dev >= 0 && Holds(g, i, b)
    ensures Look(g, disk, b) == g.bufs[i].data
  {
    LookIs(g, gi, disk, b, g.bufs[i].data);
  }

  lemma LookMiss(g: Group, disk: Disk, b: Block)
    requires b in disk && forall i: nat :: !Holds(g, i, b)
    ensures Look(g, disk, b) == disk[b]
  {
  }

  /** Only group gi and the sectors of its blocks have changed, and those read as view says. */
  lemma ViewBy(groups: seq<Group>, disk: Disk, gi: nat, g': Group, disk': Disk, view: Disk)
    requires |groups| == BGROUP_NUM && gi < BGROUP_NUM && disk'.Keys == disk.Keys == view.Keys
    requires forall b {:trigger Look(groups[gi], disk, b)} | b in disk && GroupOf(b) == gi :: Look(g', disk', b) == view[b]
    requires forall b {:trigger view[b]} | b in disk && GroupOf(b) != gi ::
               disk'[b] == disk[b] && view[b] == Look(groups[GroupOf(b)], disk, b)
    ensures DiskView(groups[gi := g'], disk') == view
  {
    forall b | b in disk ensures Look(groups[gi := g'][GroupOf(b)], disk', b) == view[b] {
      if GroupOf(b) == gi {
        assert b in disk && Look(groups[gi], disk, b) == Look(groups[gi], disk, b);
      } else {
        SameLook(groups[GroupOf(b)], disk, disk', b);
      }
    }
  }

  lemma SameLook(g: Group, disk: Disk, disk': Disk, b: Block)
    requires b in disk && b in disk' && disk'[b] == disk[b]
    ensures Look(g, disk', b) == Look(g, disk, b)
  {
  }

  // ---- changing one buffer --------------------------------------------------------------

  function WithBuf(g: Group, i: nat, buf: Buf): Group
    requires i < |g.bufs|
  {
    g.(bufs := g.bufs[i := buf])
  }

  /** A buffer that stays with its block changes at most what that block reads as. */
  lemma BufLook(g: Group, gi: nat, disk: Disk, i: nat, buf: Buf, b: Block)
    requires i < |g.bufs| && KeysOk(g, gi, disk) && b in disk && b.dev >= 0 && buf.key == g.bufs[i].key
    requires buf.valid ==> buf.key.dev >= 0
    requires g.bufs[i].valid ==> buf.valid
    ensures KeysOk(WithBuf(g, i, buf), gi, disk)
    ensures Look(WithBuf(g, i, buf), disk, b) == if b == buf.key && buf.valid then buf.data else Look(g, disk, b)
  {
    var g' := WithBuf(g, i, buf);
    if b == buf.key && buf.valid {
      LookAt(g', gi, disk, b, i);
    } else if exists j: nat :: Holds(g, j, b) {
      var j: nat :| Holds(g, j, b);
      assert g.bufs[j].key == b;
      assert Holds(g', j, b);
      LookAt(g, gi, disk, b, j);
      LookAt(g', gi, disk, b, j);
    } else {
      LookMiss(g, disk, b);
      forall j: nat ensures !Holds(g', j, b) {
        assert !Holds(g, j, b);
      }
      LookMiss(g', disk, b);
    }
  }

  /** disk_rw of a buffer about to be reused. */
  function WrittenBack(disk: Disk, buf: Buf): Disk {
    if buf.valid && buf.dirty then disk[buf.key := buf.data] else disk
  }

  function Claimed(g: Group, i: nat, b: Block): Group
    requires i < |g.bufs|
  {
    WithBuf(g, i, Buf(b, false, false, 1, g.bufs[i].data))
  }

  ghost predicate NoBufferFor(g: Group, b: Block) {
    forall i {:trigger g.bufs[i]} | 0 <= i < |g.bufs| :: g.bufs[i].key != b
  }

  /** Eviction: the buffer's old block now reads from the disk, what it read from the buffer before. */
  lemma ClaimLook(g: Group, gi: nat, disk: Disk, loose: set<Slot>, i: nat, b: Block, b': Block)
    requires i < |g.bufs| && GroupOk(g, gi, disk, loose) && Slot(gi, i) !in loose && NoBufferFor(g, b)
    requires b in disk && b.dev >= 0 && GroupOf(b) == gi && b' in disk && b'.dev >= 0
    ensures WrittenBack(disk, g.bufs[i]).Keys == disk.Keys
    ensures Look(Claimed(g, i, b), WrittenBack(disk, g.bufs[i]), b') == Look(g, disk, b')
  {
    var old', disk', g' := g.bufs[i], WrittenBack(disk, g.bufs[i]), Claimed(g, i, b);
    if old'.key == b' && old'.valid {
      LookAt(g, gi, disk, b', i);
      forall j: nat ensures !Holds(g', j, b') {
        assert j < |g.bufs| && j != i ==> g.bufs[j].key != b';
      }
      LookMiss(g', disk', b');
    } else if exists j: nat :: Holds(g, j, b') {
      var j: nat :| Holds(g, j, b');
      assert g.bufs[j].key == b' && j != i;
      LookAt(g, gi, disk, b', j);
      assert Holds(g', j, b');
      ClaimKeys(g, gi, disk, i, b);
      LookAt(g', gi, disk', b', j);
    } else {
      LookMiss(g, disk, b');
      forall j: nat ensures !Holds(g', j, b') {
        assert !Holds(g, j, b');
      }
      LookMiss(g', disk', b');
    }
  }

  lemma ClaimKeys(g: Group, gi: nat, disk: Disk, i: nat, b: Block)
    requires i < |g.bufs| && KeysOk(g, gi, disk) && NoBufferFor(g, b) && b in disk && b.dev >= 0 && GroupOf(b) == gi
    ensures KeysOk(Claimed(g, i, b), gi, WrittenBack(disk, g.bufs[i]))
  {
    var g' := Claimed(g, i, b);
    forall k, j | 0 <= k < |g'.bufs| && 0 <= j < |g'.bufs| && g'.bufs[k].key == g'.bufs[j].key && g'.bufs[k].key.dev >= 0
      ensures k == j
    {
      assert g.bufs[k].key != b && g.bufs[j].key != b;
    }
  }

  /** The dirty bytes reach the disk before the buffer is reused; all other buffers stay clean or dirty as they were. */
  lemma ClaimOk(g: Group, gi: nat, disk: Disk, loose: set<Slot>, i: nat, b: Block)
    requires i < |g.bufs| && GroupOk(g, gi, disk, loose) && NoBufferFor(g, b)
    requires b in disk && b.dev >= 0 && GroupOf(b) == gi
    ensures GroupOk(Claimed(g, i, b), gi, WrittenBack(disk, g.bufs[i]), loose)
  {
    ClaimKeys(g, gi, disk, i, b);
    var g', disk' := Claimed(g, i, b), WrittenBack(disk, g.bufs[i]);
    assert ListOk(g') by {
      forall k | 0 <= k < |g'.bufs| ensures k in g'.list { assert g.bufs[k] == g.bufs[k]; }
    }
    forall k | 0 <= k < |g'.bufs| && g'.bufs[k].valid && !g'.bufs[k].dirty && Slot(gi, k) !in loose
      ensures g'.bufs[k].key in disk' && g'.bufs[k].data == disk'[g'.bufs[k].key]
    {
      assert g'.bufs[k] == g.bufs[k];
    }
  }

  /** Another group is not disturbed by a write-back. */
  lemma OtherGroup(g: Group, gi: nat, disk: Disk, loose: set<Slot>, buf: Buf)
    requires GroupOk(g, gi, disk, loose) && (buf.valid ==> buf.key in disk && GroupOf(buf.key) != gi)
    ensures GroupOk(g, gi, WrittenBack(disk, buf), loose)
  {
  }

  // ---- the whole cache --------------------------------------------------------------------

  /** The list is in the order of the last release, latest first. */
  ghost predicate Ordered(g: Group, stamp: seq<int>, clock: int) {
    && |stamp| == |g.bufs|
    && (forall p, q {:trigger g.list[p], g.list[q]} | 0 <= p < q < |g.list| && g.list[p] < |stamp| && g.list[q] < |stamp| ::
          stamp[g.list[p]] > stamp[g.list[q]])
    && (forall i {:trigger stamp[i]} | 0 <= i < |stamp| :: stamp[i] < clock)
  }

  ghost predicate LruOk(groups: seq<Group>, stamps: seq<seq<int>>, clock: int) {
    |stamps| == |groups| && forall gi {:trigger groups[gi]} | 0 <= gi < |groups| :: Ordered(groups[gi], stamps[gi], clock)
  }

  /** Buffer i is unreferenced, and no unreferenced one was released before it. */
  ghost predicate Oldest(g: Group, stamp: seq<int>, i: nat) {
    && i < |g.bufs| == |stamp| && g.bufs[i].refcnt == 0
    && forall j {:trigger g.bufs[j]} | 0 <= j < |g.bufs| && g.bufs[j].refcnt == 0 :: stamp[i] <= stamp[j]
  }

  /** The last unreferenced buffer of the list is the oldest. */
  lemma LastIsOldest(g: Group, stamp: seq<int>, clock: int, p: nat)
    requires ListOk(g) && Ordered(g, stamp, clock) && p < |g.list| && g.bufs[g.list[p]].refcnt == 0
    requires forall q {:trigger g.list[q]} | p < q < |g.list| :: g.bufs[g.list[q]].refcnt > 0
    ensures Oldest(g, stamp, g.list[p])
  {
    forall j | 0 <= j < |g.bufs| && g.bufs[j].refcnt == 0 ensures stamp[g.list[p]] <= stamp[j] {
      var q :| 0 <= q < |g.list| && g.list[q] == j;
    }
  }

  /** What bufAlloc hands out for b: its buffer if there is one, otherwise the oldest unreferenced one. */
  ghost predicate Got(g: Group, stamp: seq<int>, b: Block, i: nat, g': Group) {
    i < |g.bufs| &&
    if g.bufs[i].key == b then g' == WithBuf(g, i, g.bufs[i].(refcnt := g.bufs[i].refcnt + 1))
    else NoBufferFor(g, b) && Oldest(g, stamp, i) && g' == Claimed(g, i, b)
  }

  /** A change to one buffer that keeps its block: the cache stays well-formed and one block reads differently. */
  lemma BufChange(groups: seq<Group>, disk: Disk, loose: set<Slot>, s: Slot, buf: Buf, loose': set<Slot>)
    requires CacheOk(groups, disk, loose) && s.g < BGROUP_NUM && s.i < BGROUP_BUF_NUM
    requires var cur := groups[s.g].bufs[s.i]; buf.key == cur.key && buf.key in disk && (cur.valid ==> buf.valid)
    requires loose' - {s} == loose - {s} && (s in loose' ==> buf.refcnt > 0)
    requires buf.valid && !buf.dirty && s !in loose' ==> buf.data == disk[buf.key]
    ensures CacheOk(groups[s.g := WithBuf(groups[s.g], s.i, buf)], disk, loose')
    ensures DiskView(groups[s.g := WithBuf(groups[s.g], s.i, buf)], disk)
            == if buf.valid then DiskView(groups, disk)[buf.key := buf.data] else DiskView(groups, disk)
  {
    hide CacheOk, GroupOk, DiskView, KeysOk;
    InGroup(groups, disk, loose, s.g);
    GroupSize(groups[s.g], s.g, disk, loose);
    GroupKeys(groups[s.g], s.g, disk, loose, s.i);
    BufView(groups, disk, s, buf);
    BufLook(groups[s.g], s.g, disk, s.i, buf, buf.key);
    BufChangeOk(groups, disk, loose, s, buf, loose');
  }

  lemma GroupKeys(g: Group, gi: nat, disk: Disk, loose: set<Slot>, i: nat)
    requires GroupOk(g, gi, disk, loose) && i < |g.bufs|
    ensures KeysOk(g, gi, disk) && (g.bufs[i].key.dev >= 0 ==> GroupOf(g.bufs[i].key) == gi)
  {
  }

  lemma BufView(groups: seq<Group>, disk: Disk, s: Slot, buf: Buf)
    requires |groups| == BGROUP_NUM && s.g < BGROUP_NUM && s.i < |groups[s.g].bufs| && KeysOk(groups[s.g], s.g, disk)
    requires forall b | b in disk :: b.dev >= 0
    requires var cur := groups[s.g].bufs[s.i]; buf.key == cur.key && buf.key in disk && (cur.valid ==> buf.valid)
    requires GroupOf(buf.key) == s.g
    ensures DiskView(groups[s.g := WithBuf(groups[s.g], s.i, buf)], disk)
            == if buf.valid then DiskView(groups, disk)[buf.key := buf.data] else DiskView(groups, disk)
  {
    hide KeysOk, Look, WithBuf;
    var g, g' := groups[s.g], WithBuf(groups[s.g], s.i, buf);
    var view := if buf.valid then DiskView(groups, disk)[buf.key := buf.data] else DiskView(groups, disk);
    forall b | b in disk && GroupOf(b) == s.g ensures Look(g', disk, b) == view[b] {
      BufLook(g, s.g, disk, s.i, buf, b);
    }
    ViewBy(groups, disk, s.g, g', disk, view);
  }

  lemma BufChangeOk(groups: seq<Group>, disk: Disk, loose: set<Slot>, s: Slot, buf: Buf, loose': set<Slot>)
    requires CacheOk(groups, disk, loose) && s.g < BGROUP_NUM && s.i < BGROUP_BUF_NUM
    requires buf.key == groups[s.g].bufs[s.i].key && buf.key in disk
    requires KeysOk(WithBuf(groups[s.g], s.i, buf), s.g, disk)
    requires loose' - {s} == loose - {s} && (s in loose' ==> buf.refcnt > 0)
    requires buf.valid && !buf.dirty && s !in loose' ==> buf.data == disk[buf.key]
    ensures CacheOk(groups[s.g := WithBuf(groups[s.g], s.i, buf)], disk, loose')
  {
    var g, g' := groups[s.g], WithBuf(groups[s.g], s.i, buf);
    var groups' := groups[s.g := g'];
    assert forall t: Slot | t != s :: t in loose' <==> t in loose by {
      assert forall t: Slot | t != s :: t in loose' <==> t in loose' - {s};
      assert forall t: Slot | t != s :: t in loose <==> t in loose - {s};
    }
    forall gi | 0 <= gi < |groups'| ensures GroupOk(groups'[gi], gi, disk, loose') {
      assert GroupOk(groups[gi], gi, disk, loose);
      if gi == s.g {
        forall k | 0 <= k < |g'.bufs| ensures k in g'.list { assert g.bufs[k] == g.bufs[k]; }
      }
    }
  }

  /** One group of a good cache. */
  lemma InGroup(groups: seq<Group>, disk: Disk, loose: set<Slot>, gi: nat)
    requires CacheOk(groups, disk, loose) && gi < BGROUP_NUM
    ensures |groups| == BGROUP_NUM && GroupOk(groups[gi], gi, disk, loose) && forall b | b in disk :: b.dev >= 0
  {
  }

  lemma NotLoose(groups: seq<Group>, disk: Disk, loose: set<Slot>, s: Slot)
    requires CacheOk(groups, disk, loose) && s.g < BGROUP_NUM && s.i < |groups[s.g].bufs| && groups[s.g].bufs[s.i].refcnt == 0
    ensures s !in loose
  {
  }

  lemma ClaimChange(groups: seq<Group>, disk: Disk, loose: set<Slot>, s: Slot, b: Block)
    requires CacheOk(groups, disk, loose) && s.g == GroupOf(b) && s.i < BGROUP_BUF_NUM && b in disk
    requires NoBufferFor(groups[s.g], b) && groups[s.g].bufs[s.i].refcnt == 0
    ensures var groups', disk' := groups[s.g := Claimed(groups[s.g], s.i, b)], WrittenBack(disk, groups[s.g].bufs[s.i]);
            disk'.Keys == disk.Keys && CacheOk(groups', disk', loose) && DiskView(groups', disk') == DiskView(groups, disk)
  {
    hide CacheOk, GroupOk, DiskView, NoBufferFor, WrittenBack, Claimed;
    InGroup(groups, disk, loose, s.g);
    GroupSize(groups[s.g], s.g, disk, loose);
    NotLoose(groups, disk, loose, s);
    ClaimLook(groups[s.g], s.g, disk, loose, s.i, b, b);
    ClaimView(groups, disk, loose, s, b);
    ClaimCache(groups, disk, loose, s, b);
  }

  lemma GroupSize(g: Group, gi: nat, disk: Disk, loose: set<Slot>)
    requires GroupOk(g, gi, disk, loose)
    ensures |g.bufs| == BGROUP_BUF_NUM
  {
  }

  lemma ClaimView(groups: seq<Group>, disk: Disk, loose: set<Slot>, s: Slot, b: Block)
    requires |groups| == BGROUP_NUM && s.g == GroupOf(b) && s.i < |groups[s.g].bufs| && b in disk && s !in loose
    requires GroupOk(groups[s.g], s.g, disk, loose) && NoBufferFor(groups[s.g], b) && forall b' | b' in disk :: b'.dev >= 0
    requires WrittenBack(disk, groups[s.g].bufs[s.i]).Keys == disk.Keys
    ensures DiskView(groups[s.g := Claimed(groups[s.g], s.i, b)], WrittenBack(disk, groups[s.g].bufs[s.i])) == DiskView(groups, disk)
  {
    var g, view := groups[s.g], DiskView(groups, disk);
    var g', disk' := Claimed(g, s.i, b), WrittenBack(disk, g.bufs[s.i]);
    assert g.bufs[s.i].valid ==> GroupOf(g.bufs[s.i].key) == s.g;
    hide GroupOk, Look, NoBufferFor, Claimed;
    forall b' | b' in disk && GroupOf(b') == s.g ensures Look(g', disk', b') == view[b'] {
      ClaimLook(g, s.g, disk, loose, s.i, b, b');
    }
    ViewBy(groups, disk, s.g, g', disk', view);
  }

  lemma ClaimCache(groups: seq<Group>, disk: Disk, loose: set<Slot>, s: Slot, b: Block)
    requires CacheOk(groups, disk, loose) && s.g == GroupOf(b) && s.i < |groups[s.g].bufs| && b in disk && s !in loose
    requires NoBufferFor(groups[s.g], b) && WrittenBack(disk, groups[s.g].bufs[s.i]).Keys == disk.Keys
    ensures CacheOk(groups[s.g := Claimed(groups[s.g], s.i, b)], WrittenBack(disk, groups[s.g].bufs[s.i]), loose)
  {
    var g := groups[s.g];
    var buf, groups', disk' := g.bufs[s.i], groups[s.g := Claimed(g, s.i, b)], WrittenBack(disk, g.bufs[s.i]);
    assert buf.valid ==> buf.key in disk && GroupOf(buf.key) == s.g by { assert GroupOk(g, s.g, disk, loose); }
    hide GroupOk, NoBufferFor, WrittenBack;
    forall gi | 0 <= gi < |groups'| ensures GroupOk(groups'[gi], gi, disk', loose) {
      assert GroupOk(groups[gi], gi, disk, loose);
      if gi == s.g {
        ClaimOk(g, gi, disk, loose, s.i, b);
      } else {
        OtherGroup(groups[gi], gi, disk, loose, buf);
      }
    }
  }

  /** TAILQ_REMOVE and TAILQ_INSERT_HEAD of the entry at position p. */
  function ToFront(list: seq<nat>, p: nat): seq<nat>
    requires p < |list|
  {
    [list[p]] + list[..p] + list[p + 1..]
  }

  lemma ToFrontList(g: Group, p: nat)
    requires ListOk(g) && p < |g.list|
    ensures ListOk(g.(list := ToFront(g.list, p)))
  {
    var list, list' := g.list, ToFront(g.list, p);
    forall i | 0 <= i < |g.bufs| ensures i in list' {
      assert g.bufs[i] == g.bufs[i];
      var q :| 0 <= q < |list| && list[q] == i;
      assert list'[if q == p then 0 else if q < p then q + 1 else q] == i;
    }
  }

  lemma ToFrontOrdered(g: Group, stamp: seq<int>, clock: int, p: nat)
    requires ListOk(g) && Ordered(g, stamp, clock) && p < |g.list|
    ensures Ordered(g.(list := ToFront(g.list, p)), stamp[g.list[p] := clock], clock + 1)
  {
    var list, list', stamp' := g.list, ToFront(g.list, p), stamp[g.list[p] := clock];
    forall x, y | 0 <= x < y < |list'| ensures stamp'[list'[x]] > stamp'[list'[y]] {
      var y0 := if y <= p then y - 1 else y;
      assert list'[y] == list[y0] && y0 != p && list[y0] != list[p];
      if x > 0 {
        var x0 := if x <= p then x - 1 else x;
        assert list'[x] == list[x0] && list[x0] != list[p];
      }
    }
  }

  lemma ListChange(groups: seq<Group>, disk: Disk, loose: set<Slot>, gi: nat, p: nat)
    requires CacheOk(groups, disk, loose) && gi < BGROUP_NUM && p < BGROUP_BUF_NUM
    ensures var g' := groups[gi].(list := ToFront(groups[gi].list, p));
            CacheOk(groups[gi := g'], disk, loose) && DiskView(groups[gi := g'], disk) == DiskView(groups, disk)
  {
    var g := groups[gi];
    assert GroupOk(g, gi, disk, loose);
    var g' := g.(list := ToFront(g.list, p));
    ToFrontList(g, p);
    assert GroupOk(g', gi, disk, loose);
    hide GroupOk, ListOk, Look;
    var groups' := groups[gi := g'];
    forall k | 0 <= k < |groups'| ensures GroupOk(groups'[k], k, disk, loose) {
      assert GroupOk(groups[k], k, disk, loose);
    }
    forall b | b in disk && GroupOf(b) == gi ensures Look(g', disk, b) == Look(g, disk, b) {
      SameBufs(g, g', gi, disk, loose, b);
    }
    ViewBy(groups, disk, gi, g', disk, DiskView(groups, disk));
  }

  /** The order of the list plays no part in what a block reads as. */
  lemma SameBufs(g: Group, g': Group, gi: nat, disk: Disk, loose: set<Slot>, b: Block)
    requires GroupOk(g, gi, disk, loose) && GroupOk(g', gi, disk, loose) && g'.bufs == g.bufs && b in disk && b.dev >= 0
    ensures Look(g', disk, b) == Look(g, disk, b)
  {
    if exists i: nat :: Holds(g, i, b) {
      var i: nat :| Holds(g, i, b);
      assert Holds(g', i, b);
      LookAt(g, gi, disk, b, i);
      LookAt(g', gi, disk, b, i);
    } else {
      forall j: nat ensures !Holds(g', j, b) { assert !Holds(g, j, b); }
      LookMiss(g, disk, b);
      LookMiss(g', disk, b);
    }
  }

  /** From one state of the buffers to the next only buffer s has changed, and no list. */
  ghost predicate Only(groups: seq<Group>, groups': seq<Group>, s: Slot) {
    && |groups| == |groups'| && s.g < |groups| && s.i < |groups[s.g].bufs| == |groups'[s.g].bufs|
    && groups' == groups[s.g := WithBuf(groups[s.g], s.i, groups'[s.g].bufs[s.i])]
  }

  lemma OnlyTwice(groups: seq<Group>, groups': seq<Group>, s: Slot, buf: Buf)
    requires Only(groups, groups', s)
    ensures Only(groups, groups'[s.g := WithBuf(groups'[s.g], s.i, buf)], s)
  {
    var g, g' := groups[s.g], groups'[s.g];
    assert g'.bufs[s.i := buf] == g.bufs[s.i := buf];
  }

  lemma GroupFacts(groups: seq<Group>, disk: Disk, loose: set<Slot>, stamps: seq<seq<int>>, clock: int, gi: nat)
    requires CacheOk(groups, disk, loose) && LruOk(groups, stamps, clock) && gi < BGROUP_NUM
    ensures |groups| == |stamps| == BGROUP_NUM && |groups[gi].bufs| == BGROUP_BUF_NUM
    ensures ListOk(groups[gi]) && Ordered(groups[gi], stamps[gi], clock)
  {
    assert GroupOk(groups[gi], gi, disk, loose);
  }

  /** bufAlloc's first loop. */
  method FindBuffer(g: Group, b: Block) returns (found: bool, i: nat)
    requires ListOk(g)
    ensures if found then i < |g.bufs| && g.bufs[i].key == b else NoBufferFor(g, b)
  {
    var p := 0;
    while p < |g.list|
      invariant p <= |g.list| && forall q | 0 <= q < p :: g.bufs[g.list[q]].key != b
    {
      if g.bufs[g.list[p]].key == b { return true, g.list[p]; }
      p := p + 1;
    }
    NoHit(g, b);
    return false, 0;
  }

  /** bufAlloc's second loop, from the end of the list. */
  method FindVictim(g: Group, ghost stamp: seq<int>, ghost clock: int) returns (found: bool, i: nat)
    requires ListOk(g) && Ordered(g, stamp, clock)
    ensures if found then Oldest(g, stamp, i) else forall j | 0 <= j < |g.bufs| :: g.bufs[j].refcnt > 0
  {
    var p := |g.list|;
    while p > 0
      invariant 0 <= p <= |g.list| && forall q {:trigger g.list[q]} | p <= q < |g.list| :: g.bufs[g.list[q]].refcnt > 0
    {
      p := p - 1;
      if g.bufs[g.list[p]].refcnt == 0 {
        LastIsOldest(g, stamp, clock, p);
        return true, g.list[p];
      }
    }
    forall j | 0 <= j < |g.bufs| ensures g.bufs[j].refcnt > 0 {
      assert g.bufs[j] == g.bufs[j];
      var q :| 0 <= q < |g.list| && g.list[q] == j;
    }
    return false, 0;
  }

  /** Block b has no buffer, and every buffer of its group is in use. */
  ghost predicate AllBusy(groups: seq<Group>, b: Block) {
    && |groups| == BGROUP_NUM && NoBufferFor(groups[GroupOf(b)], b)
    && forall i {:trigger groups[GroupOf(b)].bufs[i]} | 0 <= i < |groups[GroupOf(b)].bufs| :: groups[GroupOf(b)].bufs[i].refcnt > 0
  }

  /** bufAlloc found or claimed buffer s for b; what every block reads as is unchanged. */
  ghost predicate Allocated(groups: seq<Group>, disk: Disk, loose: set<Slot>, stamps: seq<seq<int>>, clock: int,
                            b: Block, s: Slot, groups': seq<Group>, disk': Disk) {
    && |groups| == |stamps| == BGROUP_NUM && s.g == GroupOf(b) && disk'.Keys == disk.Keys && b in disk
    && CacheOk(groups', disk', loose) && LruOk(groups', stamps, clock) && DiskView(groups', disk') == DiskView(groups, disk)
    && Only(groups, groups', s) && Got(groups[s.g], stamps[s.g], b, s.i, groups'[s.g])
  }

  lemma AllocHit(groups: seq<Group>, disk: Disk, loose: set<Slot>, stamps: seq<seq<int>>, clock: int, b: Block, i: nat)
    requires CacheOk(groups, disk, loose) && LruOk(groups, stamps, clock) && b in disk
    requires |groups| == |stamps| == BGROUP_NUM && i < BGROUP_BUF_NUM == |groups[GroupOf(b)].bufs| && groups[GroupOf(b)].bufs[i].key == b
    ensures var g := groups[GroupOf(b)];
            var g' := WithBuf(g, i, g.bufs[i].(refcnt := g.bufs[i].refcnt + 1));
            Allocated(groups, disk, loose, stamps, clock, b, Slot(GroupOf(b), i), groups[GroupOf(b) := g'], disk)
  {
    hide DiskView, CacheOk, LruOk;
    var g := groups[GroupOf(b)];
    var buf := g.bufs[i].(refcnt := g.bufs[i].refcnt + 1);
    HitChange(groups, disk, loose, Slot(GroupOf(b), i), buf);
    LruChange(groups, stamps, clock, GroupOf(b), WithBuf(g, i, buf));
  }

  lemma AllocMiss(groups: seq<Group>, disk: Disk, loose: set<Slot>, stamps: seq<seq<int>>, clock: int, b: Block, i: nat)
    requires CacheOk(groups, disk, loose) && LruOk(groups, stamps, clock) && b in disk
    requires i < BGROUP_BUF_NUM == |groups[GroupOf(b)].bufs| && NoBufferFor(groups[GroupOf(b)], b)
    requires Oldest(groups[GroupOf(b)], stamps[GroupOf(b)], i)
    ensures var g := groups[GroupOf(b)];
            Allocated(groups, disk, loose, stamps, clock, b, Slot(GroupOf(b), i), groups[GroupOf(b) := Claimed(g, i, b)],
                      WrittenBack(disk, g.bufs[i]))
  {
    var g := groups[GroupOf(b)];
    ClaimChange(groups, disk, loose, Slot(GroupOf(b), i), b);
    LruChange(groups, stamps, clock, GroupOf(b), Claimed(g, i, b));
  }

  /** bufRead returned buffer s for b: it is valid, referenced, and holds what b reads as from now on. */
  ghost predicate Opened(groups: seq<Group>, disk: Disk, loose: set<Slot>, stamps: seq<seq<int>>, clock: int, b: Block, read: bool,
                         s: Slot, groups': seq<Group>, disk': Disk, loose': set<Slot>) {
    && |groups| == |stamps| == BGROUP_NUM && s.g == GroupOf(b) && disk'.Keys == disk.Keys && b in disk
    && CacheOk(groups', disk', loose') && LruOk(groups', stamps, clock) && Only(groups, groups', s)
    && var buf, buf' := groups[s.g].bufs[s.i], groups'[s.g].bufs[s.i];
       && buf'.key == b && buf'.valid && buf'.refcnt == (if buf.key == b then buf.refcnt + 1 else 1)
       && (buf.key != b ==> Oldest(groups[s.g], stamps[s.g], s.i))
       && DiskView(groups', disk') == DiskView(groups, disk)[b := buf'.data]
       && (read ==> buf'.data == DiskView(groups, disk)[b] && loose' == loose)
       && (!read ==> loose' - {s} == loose - {s})
  }

  lemma OpenBuffer(groups: seq<Group>, disk: Disk, loose: set<Slot>, stamps: seq<seq<int>>, clock: int, b: Block, read: bool,
                   s: Slot, groups1: seq<Group>, disk1: Disk)
    requires Allocated(groups, disk, loose, stamps, clock, b, s, groups1, disk1)
    ensures |groups1| == BGROUP_NUM && s.g < BGROUP_NUM && s.i < |groups1[s.g].bufs| && b in disk1
    ensures groups1[s.g := WithBuf(groups1[s.g], s.i, groups1[s.g].bufs[s.i])] == groups1
    ensures var buf := groups1[s.g].bufs[s.i];
            var buf' := if buf.valid then buf else buf.(data := if read then disk1[b] else buf.data, valid := true);
            Opened(groups, disk, loose, stamps, clock, b, read, s, groups1[s.g := WithBuf(groups1[s.g], s.i, buf')], disk1,
                   if read || buf.valid then loose else loose + {s})
  {
    hide DiskView, LruOk, Oldest, NoBufferFor, CacheOk, GroupOk;
    InGroup(groups1, disk1, loose, s.g);
    GroupSize(groups1[s.g], s.g, disk1, loose);
    var buf := groups1[s.g].bufs[s.i];
    var buf' := if buf.valid then buf else buf.(data := if read then disk1[b] else buf.data, valid := true);
    assert groups1[s.g].bufs[s.i := buf] == groups1[s.g].bufs;
    if buf.valid {
      ReadBack(groups1, disk1, loose, s);
    } else {
      LoadChange(groups1, disk1, loose, s, read, buf');
      OnlyTwice(groups, groups1, s, buf');
      LruChange(groups1, stamps, clock, s.g, WithBuf(groups1[s.g], s.i, buf'));
      UncachedView(groups1, disk1, loose, s);
    }
  }

  function Position(list: seq<nat>, i: nat): (p: nat)
    requires i in list
    ensures p < |list| && list[p] == i
  {
    if list[0] == i then 0 else 1 + Position(list[1..], i)
  }

  /** The group after buffer i has been released once. */
  function Released(g: Group, i: nat): Group
    requires i < |g.bufs|
  {
    var n := g.bufs[i].refcnt - 1;
    if n < 0 || i !in g.list then g
    else
      var g' := WithBuf(g, i, g.bufs[i].(refcnt := n));
      if n == 0 then g'.(list := ToFront(g.list, Position(g.list, i))) else g'
  }

  ghost function ReleaseStamps(groups: seq<Group>, stamps: seq<seq<int>>, clock: int, s: Slot): seq<seq<int>>
    requires s.g < |groups| && s.g < |stamps| && s.i < |groups[s.g].bufs| && s.i < |stamps[s.g]|
  {
    if groups[s.g].bufs[s.i].refcnt == 1 then stamps[s.g := stamps[s.g][s.i := clock]] else stamps
  }

  /** No buffer is referenced. */
  ghost predicate Quiet(groups: seq<Group>) {
    forall gi, i {:trigger groups[gi].bufs[i]} | 0 <= gi < |groups| && 0 <= i < |groups[gi].bufs| :: groups[gi].bufs[i].refcnt == 0
  }

  lemma QuietNotBusy(groups: seq<Group>, disk: Disk, loose: set<Slot>, b: Block)
    requires CacheOk(groups, disk, loose) && Quiet(groups)
    ensures !AllBusy(groups, b) && loose == {}
  {
    assert GroupOk(groups[GroupOf(b)], GroupOf(b), disk, loose);
    assert groups[GroupOf(b)].bufs[0].refcnt == 0;
    if s :| s in loose { assert false; }
  }

  /** One buffer taken and given back: nothing is referenced again. */
  lemma QuietAgain(groups: seq<Group>, groups': seq<Group>, s: Slot)
    requires Quiet(groups) && Only(groups, groups', s) && groups'[s.g].bufs[s.i].refcnt == 1 && s.i in groups'[s.g].list
    ensures Quiet(groups'[s.g := Released(groups'[s.g], s.i)])
  {
    var groups2 := groups'[s.g := Released(groups'[s.g], s.i)];
    forall gi, i | 0 <= gi < |groups2| && 0 <= i < |groups2[gi].bufs| ensures groups2[gi].bufs[i].refcnt == 0 {
      assert groups[gi].bufs[i].refcnt == 0;
    }
  }

  /** Bytes replaced from an offset on. */
  function Splice(sector: Sector, off: nat, bytes: seq<Byte>): (r: Sector)
    requires off + |bytes| <= BUF_SIZE
    ensures forall o | 0 <= o < BUF_SIZE :: r[o] == if off <= o < off + |bytes| then bytes[o - off] else sector[o]
  {
    Patch(sector, off, bytes)
  }

  function ZeroSector(): Sector {
    Zeros(BUF_SIZE)
  }

  /** A group with n unused buffers in the order of their indices. */
  ghost function Fresh(n: nat): Group {
    Group(seq(n, _ => Buf(Block(-1, 0), false, false, 0, ZeroSector())), seq(n, i => i))
  }

  lemma FreshOk(disk: Disk, groups: seq<Group>, stamps: seq<seq<int>>)
    requires forall b | b in disk :: b.dev >= 0
    requires |groups| == BGROUP_NUM == |stamps| && forall k | 0 <= k < BGROUP_NUM :: groups[k] == Fresh(BGROUP_BUF_NUM)
    requires forall k | 0 <= k < BGROUP_NUM :: stamps[k] == seq(BGROUP_BUF_NUM, i => -i)
    ensures CacheOk(groups, disk, {}) && LruOk(groups, stamps, 1) && Quiet(groups) && DiskView(groups, disk) == disk
  {
    var g := Fresh(BGROUP_BUF_NUM);
    forall i | 0 <= i < BGROUP_BUF_NUM ensures i in g.list { assert g.list[i] == i; }
    assert ListOk(g);
    forall k | 0 <= k < BGROUP_NUM ensures GroupOk(groups[k], k, disk, {}) {
      assert groups[k] == g;
    }
    forall k | 0 <= k < BGROUP_NUM ensures Ordered(groups[k], stamps[k], 1) {
      assert groups[k] == g;
    }
    forall b | b in disk ensures Look(groups[GroupOf(b)], disk, b) == disk[b] {
      forall i: nat ensures !Holds(g, i, b) { }
      LookMiss(g, disk, b);
    }
  }

  class BufferCache {
    var groups: seq<Group>
    var disk: Disk

    /** Buffers whose bytes have been set without being marked dirty yet. */
    ghost var loose: set<Slot>
    /** When each buffer was last released. */
    ghost var stamps: seq<seq<int>>
    ghost var clock: int

    ghost predicate Valid()
      reads this
    {
      CacheOk(groups, disk, loose) && LruOk(groups, stamps, clock)
    }

    /** bufInit, over whatever the disk holds. */
    constructor (disk: Disk)
      requires forall b | b in disk :: b.dev >= 0
      ensures Valid() && Quiet(groups) && this.disk == disk && View() == disk
    {
      this.disk := disk;
      var j, g := 0, Group([], []);
      while j < BGROUP_BUF_NUM
        invariant 0 <= j <= BGROUP_BUF_NUM && g == Fresh(j)
      {
        g := Group(g.bufs + [Buf(Block(-1, 0), false, false, 0, ZeroSector())], g.list + [j]);
        j := j + 1;
      }
      groups := seq(BGROUP_NUM, _ => g);
      loose, clock := {}, 1;
      stamps := seq(BGROUP_NUM, _ => seq(BGROUP_BUF_NUM, i => -i));
      new;
      FreshOk(disk, groups, stamps);
    }

    /** The disk as the rest of the kernel sees it. */
    ghost function View(): Disk
      reads this
    {
      DiskView(groups, disk)
    }

    /** A buffer of the cache. */
    ghost predicate Has(s: Slot)
      reads this
    {
      s.g < BGROUP_NUM == |groups| && s.i < |groups[s.g].bufs|
    }

    ghost function At(s: Slot): Buf
      requires Has(s)
      reads this
    {
      groups[s.g].bufs[s.i]
    }

    method BufAlloc(b: Block) returns (ok: bool, s: Slot)
      requires Valid() && b in disk
      modifies this
      ensures stamps == old(stamps) && clock == old(clock) && loose == old(loose)
      ensures if ok then Allocated(old(groups), old(disk), loose, stamps, clock, b, s, groups, disk)
              else groups == old(groups) && disk == old(disk) && AllBusy(groups, b)
    {
      hide CacheOk, LruOk, Allocated, DiskView, ListOk, Ordered, NoBufferFor;
      var gi := GroupOf(b);
      GroupFacts(groups, disk, loose, stamps, clock, gi);
      var g := groups[gi];
      var found, i := FindBuffer(g, b);
      if found {
        AllocHit(groups, disk, loose, stamps, clock, b, i);
        groups := groups[gi := WithBuf(g, i, g.bufs[i].(refcnt := g.bufs[i].refcnt + 1))];
        return true, Slot(gi, i);
      }
      found, i := FindVictim(g, stamps[gi], clock);
      if found {
        AllocMiss(groups, disk, loose, stamps, clock, b, i);
        disk := WrittenBack(disk, g.bufs[i]);
        groups := groups[gi := Claimed(g, i, b)];
        return true, Slot(gi, i);
      }
      return false, Slot(0, 0);
    }

    /** bufRead: with read unset, a block that was not cached comes with whatever bytes the buffer had. */
    method BufRead(b: Block, read: bool) returns (ok: bool, s: Slot)
      requires Valid() && b in disk
      modifies this
      ensures stamps == old(stamps) && clock == old(clock)
      ensures !ok ==> groups == old(groups) && disk == old(disk) && loose == old(loose) && AllBusy(groups, b)
      ensures ok ==> Opened(old(groups), old(disk), old(loose), stamps, clock, b, read, s, groups, disk, loose)
    {
      hide CacheOk, LruOk, Allocated, DiskView, Opened, AllBusy;
      ok, s := BufAlloc(b);
      if !ok { return; }
      OpenBuffer(old(groups), old(disk), old(loose), stamps, clock, b, read, s, groups, disk);
      var buf := groups[s.g].bufs[s.i];
      if !buf.valid {
        buf := buf.(data := if read then disk[b] else buf.data, valid := true);
        groups := groups[s.g := WithBuf(groups[s.g], s.i, buf)];
        if !read { loose := loose + {s}; }
      }
    }

    /** A holder of the buffer sets its bytes; nothing marks it dirty yet. */
    method SetData(s: Slot, data: Sector)
      requires Valid() && Has(s) && At(s).valid && At(s).refcnt > 0 && At(s).key in disk
      modifies this
      ensures Valid() && Has(s) && disk == old(disk) && loose == old(loose) + {s} && Only(old(groups), groups, s) && stamps == old(stamps) && clock == old(clock)
      ensures At(s) == old(At(s)).(data := data) && View() == old(View())[At(s).key := data]
    {
      Sizes(groups, disk, loose);
      hide CacheOk, LruOk, DiskView;
      var buf := groups[s.g].bufs[s.i].(data := data);
      BufChange(groups, disk, loose, s, buf, loose + {s});
      LruChange(groups, stamps, clock, s.g, WithBuf(groups[s.g], s.i, buf));
      groups := groups[s.g := WithBuf(groups[s.g], s.i, buf)];
      loose := loose + {s};
    }

    method BufWrite(s: Slot)
      requires Valid() && Has(s) && At(s).valid && At(s).refcnt > 0 && At(s).key in disk
      modifies this
      ensures Valid() && Has(s) && disk == old(disk) && loose == old(loose) - {s} && Only(old(groups), groups, s) && stamps == old(stamps) && clock == old(clock)
      ensures At(s) == old(At(s)).(dirty := true) && View() == old(View())
    {
      Sizes(groups, disk, loose);
      hide CacheOk, LruOk, DiskView;
      var buf := groups[s.g].bufs[s.i].(dirty := true);
      ReadBack(groups, disk, loose, s);
      BufChange(groups, disk, loose, s, buf, loose - {s});
      LruChange(groups, stamps, clock, s.g, WithBuf(groups[s.g], s.i, buf));
      groups := groups[s.g := WithBuf(groups[s.g], s.i, buf)];
      loose := loose - {s};
    }

    /** bufRelease: the buffer last released stands first. */
    method BufRelease(s: Slot)
      requires Valid() && Has(s) && At(s).refcnt > 0 && s !in loose && At(s).key in disk
      modifies this
      ensures Valid() && View() == old(View()) && disk == old(disk) && loose == old(loose)
      ensures groups == old(groups)[s.g := Released(old(groups)[s.g], s.i)]
      ensures clock >= old(clock)
    {
      hide CacheOk, LruOk, DiskView, Released, ReleaseStamps;
      ReleaseOk(groups, disk, loose, stamps, clock, s);
      var g := Released(groups[s.g], s.i);
      stamps := ReleaseStamps(groups, stamps, clock, s);
      clock := clock + 1;
      groups := groups[s.g := g];
    }

    // ---- one access from open to release ---------------------------------------------------

    method ReadBlock(b: Block) returns (data: Sector)
      requires Valid() && Quiet(groups) && b in disk
      modifies this
      ensures Valid() && Quiet(groups) && disk.Keys == old(disk).Keys && View() == old(View())
      ensures b in View() && data == View()[b]
    {
      hide CacheOk, LruOk, DiskView, Quiet, Released, AllBusy;
      QuietNotBusy(groups, disk, loose, b);
      var ok, s := BufRead(b, true);
      OpenedFacts(old(groups), old(disk), old(loose), stamps, clock, b, true, s, groups, disk, loose);
      data := groups[s.g].bufs[s.i].data;
      QuietAgain(old(groups), groups, s);
      BufRelease(s);
    }

    /** Open with read set, replace some bytes, mark dirty, release. */
    method UpdateBlock(b: Block, off: nat, bytes: seq<Byte>)
      requires Valid() && Quiet(groups) && b in disk && off + |bytes| <= BUF_SIZE
      modifies this
      ensures Valid() && Quiet(groups) && disk.Keys == old(disk).Keys
      ensures b in old(View()) && View() == old(View())[b := Splice(old(View())[b], off, bytes)]
    {
      hide CacheOk, LruOk, DiskView, Quiet, Released, AllBusy, Only;
      QuietNotBusy(groups, disk, loose, b);
      var ok, s := BufRead(b, true);
      OpenedFacts(old(groups), old(disk), old(loose), stamps, clock, b, true, s, groups, disk, loose);
      Overwrite(s, Splice(groups[s.g].bufs[s.i].data, off, bytes), old(groups));
    }

    /** Open with read unset, zero all bytes, mark dirty, release. */
    method ZeroBlock(b: Block)
      requires Valid() && Quiet(groups) && b in disk
      modifies this
      ensures Valid() && Quiet(groups) && disk.Keys == old(disk).Keys
      ensures View() == old(View())[b := ZeroSector()]
    {
      hide CacheOk, LruOk, DiskView, Quiet, Released, AllBusy, Only;
      QuietNotBusy(groups, disk, loose, b);
      var ok, s := BufRead(b, false);
      OpenedFacts(old(groups), old(disk), old(loose), stamps, clock, b, false, s, groups, disk, loose);
      Overwrite(s, ZeroSector(), old(groups));
    }

    /** What the holder of a freshly opened buffer does: set the bytes, mark dirty, release. */
    method Overwrite(s: Slot, data: Sector, ghost before: seq<Group>)
      requires Valid() && Has(s) && At(s).valid && At(s).refcnt == 1 && At(s).key in disk && loose - {s} == {}
      requires Quiet(before) && Only(before, groups, s) && s.i in groups[s.g].list
      modifies this
      ensures Valid() && Quiet(groups) && disk.Keys == old(disk).Keys
      ensures View() == old(View())[old(At(s)).key := data]
    {
      hide CacheOk, LruOk, DiskView, Quiet, Released;
      SetData(s, data);
      OnlyTwice(before, old(groups), s, groups[s.g].bufs[s.i]);
      ghost var mid := groups;
      BufWrite(s);
      OnlyTwice(before, mid, s, groups[s.g].bufs[s.i]);
      QuietAgain(before, groups, s);
      BufRelease(s);
    }
  }

  lemma Sizes(groups: seq<Group>, disk: Disk, loose: set<Slot>)
    requires CacheOk(groups, disk, loose)
    ensures |groups| == BGROUP_NUM
    ensures forall gi {:trigger groups[gi]} | 0 <= gi < BGROUP_NUM :: ListOk(groups[gi])
  {
    forall gi | 0 <= gi < BGROUP_NUM ensures ListOk(groups[gi]) {
      assert GroupOk(groups[gi], gi, disk, loose);
    }
  }

  /** disk_rw into a buffer that has just been claimed, or leaving its bytes alone. */
  lemma LoadChange(groups: seq<Group>, disk: Disk, loose: set<Slot>, s: Slot, read: bool, buf: Buf)
    requires CacheOk(groups, disk, loose) && s.g < BGROUP_NUM && s.i < BGROUP_BUF_NUM
    requires var cur := groups[s.g].bufs[s.i];
             !cur.valid && cur.key in disk && cur.refcnt > 0 && buf == cur.(data := buf.data, valid := true)
    requires read ==> buf.data == disk[buf.key]
    ensures var groups', loose' := groups[s.g := WithBuf(groups[s.g], s.i, buf)], if read then loose else loose + {s};
            && CacheOk(groups', disk, loose') && DiskView(groups', disk) == DiskView(groups, disk)[buf.key := buf.data]
            && (read ==> DiskView(groups', disk) == DiskView(groups, disk))
            && loose' - {s} == loose - {s}
  {
    BufChange(groups, disk, loose, s, buf, if read then loose else loose + {s});
    UncachedView(groups, disk, loose, s);
  }

  lemma NoHit(g: Group, b: Block)
    requires ListOk(g) && forall q | 0 <= q < |g.list| :: g.bufs[g.list[q]].key != b
    ensures NoBufferFor(g, b)
  {
    forall i | 0 <= i < |g.bufs| ensures g.bufs[i].key != b {
      assert g.bufs[i] == g.bufs[i];
      assert i in g.list;
      var q :| 0 <= q < |g.list| && g.list[q] == i;
    }
  }

  lemma HitChange(groups: seq<Group>, disk: Disk, loose: set<Slot>, s: Slot, buf: Buf)
    requires CacheOk(groups, disk, loose) && s.g < BGROUP_NUM && s.i < BGROUP_BUF_NUM
    requires var cur := groups[s.g].bufs[s.i]; buf == cur.(refcnt := buf.refcnt) && buf.refcnt > 0 && cur.key in disk
    ensures var groups' := groups[s.g := WithBuf(groups[s.g], s.i, buf)];
            CacheOk(groups', disk, loose) && DiskView(groups', disk) == DiskView(groups, disk)
  {
    var g := groups[s.g];
    assert GroupOk(g, s.g, disk, loose);
    assert GroupOf(buf.key) == s.g by { assert g.bufs[s.i].key == buf.key; }
    BufChange(groups, disk, loose, s, buf, loose);
    if buf.valid { LookAt(g, s.g, disk, buf.key, s.i); }
  }

  lemma LruChange(groups: seq<Group>, stamps: seq<seq<int>>, clock: int, gi: nat, g': Group)
    requires LruOk(groups, stamps, clock) && gi < |groups|
    requires g'.list == groups[gi].list && |g'.bufs| == |groups[gi].bufs|
    ensures LruOk(groups[gi := g'], stamps, clock)
  {
    assert Ordered(groups[gi], stamps[gi], clock);
    forall k | 0 <= k < |groups| ensures Ordered(groups[gi := g'][k], stamps[k], clock) {
      assert Ordered(groups[k], stamps[k], clock);
    }
  }

  lemma UncachedView(groups: seq<Group>, disk: Disk, loose: set<Slot>, s: Slot)
    requires CacheOk(groups, disk, loose) && s.g < BGROUP_NUM && s.i < BGROUP_BUF_NUM
    requires var cur := groups[s.g].bufs[s.i]; !cur.valid && cur.key in disk
    ensures var b := groups[s.g].bufs[s.i].key; GroupOf(b) == s.g && DiskView(groups, disk)[b] == disk[b]
  {
    var g := groups[s.g];
    assert GroupOk(g, s.g, disk, loose);
    var b := g.bufs[s.i].key;
    forall j: nat ensures !Holds(g, j, b) {
      if j < |g.bufs| { assert g.bufs[j].key == b ==> j == s.i; }
    }
    LookMiss(g, disk, b);
  }

  lemma ReadBack(groups: seq<Group>, disk: Disk, loose: set<Slot>, s: Slot)
    requires CacheOk(groups, disk, loose) && s.g < BGROUP_NUM && s.i < BGROUP_BUF_NUM
    requires groups[s.g].bufs[s.i].valid && groups[s.g].bufs[s.i].key in disk
    ensures var buf, view := groups[s.g].bufs[s.i], DiskView(groups, disk);
            GroupOf(buf.key) == s.g && buf.key in view && view[buf.key] == buf.data && view == view[buf.key := buf.data]
  {
    var g := groups[s.g];
    assert GroupOk(g, s.g, disk, loose);
    assert GroupOf(g.bufs[s.i].key) == s.g;
    LookAt(g, s.g, disk, g.bufs[s.i].key, s.i);
  }

  lemma ReleaseChange(groups: seq<Group>, disk: Disk, loose: set<Slot>, s: Slot, buf: Buf)
    requires CacheOk(groups, disk, loose) && s.g < BGROUP_NUM && s.i < BGROUP_BUF_NUM && s !in loose
    requires var cur := groups[s.g].bufs[s.i]; buf == cur.(refcnt := buf.refcnt) && cur.key in disk
    ensures var groups' := groups[s.g := WithBuf(groups[s.g], s.i, buf)];
            CacheOk(groups', disk, loose) && DiskView(groups', disk) == DiskView(groups, disk)
  {
    var g := groups[s.g];
    assert GroupOk(g, s.g, disk, loose);
    assert GroupOf(buf.key) == s.g by { assert g.bufs[s.i].key == buf.key; }
    BufChange(groups, disk, loose, s, buf, loose);
    if buf.valid { LookAt(g, s.g, disk, buf.key, s.i); }
  }

  lemma FrontChange(groups: seq<Group>, disk: Disk, loose: set<Slot>, stamps: seq<seq<int>>, clock: int, gi: nat, p: nat)
    requires CacheOk(groups, disk, loose) && LruOk(groups, stamps, clock) && gi < BGROUP_NUM && p < BGROUP_BUF_NUM
    ensures var g := groups[gi];
            && |stamps| == BGROUP_NUM && |g.list| == |stamps[gi]| == BGROUP_BUF_NUM && g.list[p] < |stamps[gi]|
            && LruOk(groups[gi := g.(list := ToFront(g.list, p))], stamps[gi := stamps[gi][g.list[p] := clock]], clock + 1)
  {
    var g := groups[gi];
    GroupFacts(groups, disk, loose, stamps, clock, gi);
    ToFrontOrdered(g, stamps[gi], clock, p);
    var groups', stamps' := groups[gi := g.(list := ToFront(g.list, p))], stamps[gi := stamps[gi][g.list[p] := clock]];
    forall k | 0 <= k < |groups'| ensures Ordered(groups'[k], stamps'[k], clock + 1) {
      assert Ordered(groups[k], stamps[k], clock);
    }
  }

  lemma ReleaseOk(groups: seq<Group>, disk: Disk, loose: set<Slot>, stamps: seq<seq<int>>, clock: int, s: Slot)
    requires CacheOk(groups, disk, loose) && LruOk(groups, stamps, clock) && s.g < BGROUP_NUM && s.i < |groups[s.g].bufs|
    requires groups[s.g].bufs[s.i].refcnt > 0 && s !in loose && groups[s.g].bufs[s.i].key in disk
    ensures |groups| == |stamps| == BGROUP_NUM && s.i < |stamps[s.g]|
    ensures var groups' := groups[s.g := Released(groups[s.g], s.i)];
            && CacheOk(groups', disk, loose) && DiskView(groups', disk) == DiskView(groups, disk)
            && LruOk(groups', ReleaseStamps(groups, stamps, clock, s), clock + 1)
  {
    hide CacheOk, LruOk, DiskView, ListOk, Ordered;
    GroupFacts(groups, disk, loose, stamps, clock, s.g);
    var g := groups[s.g];
    Listed(g, stamps[s.g], clock, s.i);
    var buf := g.bufs[s.i].(refcnt := g.bufs[s.i].refcnt - 1);
    var g1 := WithBuf(g, s.i, buf);
    ReleaseChange(groups, disk, loose, s, buf);
    LruChange(groups, stamps, clock, s.g, g1);
    var groups1 := groups[s.g := g1];
    if buf.refcnt == 0 {
      var p := Position(g.list, s.i);
      ListChange(groups1, disk, loose, s.g, p);
      FrontChange(groups1, disk, loose, stamps, clock, s.g, p);
      assert groups1[s.g := g1.(list := ToFront(g.list, p))] == groups[s.g := Released(g, s.i)];
    } else {
      LruLater(groups1, stamps, clock);
    }
  }

  lemma Listed(g: Group, stamp: seq<int>, clock: int, i: nat)
    requires ListOk(g) && Ordered(g, stamp, clock) && i < |g.bufs|
    ensures i in g.list && |g.list| == BGROUP_BUF_NUM && |stamp| == |g.bufs|
  {
    assert g.bufs[i] == g.bufs[i];
  }

  lemma LruLater(groups: seq<Group>, stamps: seq<seq<int>>, clock: int)
    requires LruOk(groups, stamps, clock)
    ensures LruOk(groups, stamps, clock + 1)
  {
    forall k | 0 <= k < |groups| ensures Ordered(groups[k], stamps[k], clock + 1) {
      assert Ordered(groups[k], stamps[k], clock);
    }
  }

  lemma OpenedFacts(groups: seq<Group>, disk: Disk, loose: set<Slot>, stamps: seq<seq<int>>, clock: int, b: Block, read: bool,
                    s: Slot, groups': seq<Group>, disk': Disk, loose': set<Slot>)
    requires Opened(groups, disk, loose, stamps, clock, b, read, s, groups', disk', loose') && Quiet(groups) && loose == {}
    ensures |groups'| == BGROUP_NUM == |groups| && s.g < BGROUP_NUM && s.i < |groups'[s.g].bufs| && s.i in groups'[s.g].list
    ensures var buf := groups'[s.g].bufs[s.i]; buf.key == b && buf.valid && buf.refcnt == 1
    ensures loose' - {s} == {} && (read ==> loose' == {}) && b in DiskView(groups, disk) && Only(groups, groups', s)
    ensures CacheOk(groups', disk', loose') && LruOk(groups', stamps, clock) && disk'.Keys == disk.Keys
    ensures DiskView(groups', disk') == DiskView(groups, disk)[b := groups'[s.g].bufs[s.i].data]
    ensures read ==> groups'[s.g].bufs[s.i].data == DiskView(groups, disk)[b] && DiskView(groups', disk') == DiskView(groups, disk)
  {
    GroupFacts(groups', disk', loose', stamps, clock, s.g);
    Listed(groups'[s.g], stamps[s.g], clock, s.i);
    assert groups[s.g].bufs[s.i].refcnt == 0;
  }
}
