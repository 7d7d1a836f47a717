/**
 The virtio block driver's rings (kern/driver/virtio.c): three descriptors per
 request, an available ring towards the device and a used ring back, both counted
 by 16-bit indices that wrap.
 */
module VirtioDisk {
  import opened Panics
  import opened Words

  const NUM := 8
  const IDX_LIMIT := 65536

  /** The fields of a descriptor that chain it: VRING_DESC_F_NEXT and next. */
  datatype Desc = Desc(more: bool, next: nat)

  /** A request's way: offered to the device, in its hands, reported back, completed for the caller. */
  datatype Phase = Offered | InDevice | Reported | Completed

  /** The request whose chain starts at the descriptor it is stored under. */
  datatype Req = Req(buf: nat, d1: nat, d2: nat, phase: Phase)

  function U16(x: nat): (r: nat)
    ensures r < IDX_LIMIT
  {
    x % IDX_LIMIT
  }

  /** NUM divides the index range, so a wrapped index still names the same ring entry. */
  lemma WrapKeepsEntry(x: nat)
    ensures U16(x) % NUM == x % NUM
  {
  }

  /** The driver's and the device's shared memory, and the driver's own counters. */
  datatype Ring = Ring(
    free: seq<bool>,
    desc: seq<Desc>,
    info: seq<Option<nat>>,
    avail: seq<nat>,
    availIdx: nat,
    used: seq<nat>,
    usedIdx: nat,
    seen: nat,
    busy: set<nat>)

  /** What is in flight: the requests by first descriptor, and the order in the two rings. */
  datatype Flight = Flight(reqs: map<nat, Req>, offered: seq<nat>, taken: nat, reported: seq<nat>)

  ghost function ChainOf(f: Flight, h: nat): set<nat>
    requires h in f.reqs
  {
    {h, f.reqs[h].d1, f.reqs[h].d2}
  }

  /** One request's chain is three different descriptors, linked in order and marked used. */
  ghost predicate ReqOk(k: Ring, f: Flight, h: nat)
    requires h in f.reqs && |k.desc| == |k.free| == |k.info| == NUM
  {
    var r := f.reqs[h];
    && Linked(k, r, h) && k.info[h] == Some(r.buf)
    && (r.phase != Completed <==> r.buf in k.busy)
  }

  /** A ring from one index to another holds the given requests in order. */
  ghost predicate RingHolds(ring: seq<nat>, from: nat, upto: nat, q: seq<nat>) {
    && |ring| == NUM && |q| <= NUM && from < IDX_LIMIT && upto == U16(from + |q|)
    && forall i {:trigger q[i]} | 0 <= i < |q| :: ring[(from + i) % NUM] == q[i]
  }

  ghost predicate QueueOk(f: Flight, q: seq<nat>, p: Phase) {
    NoDup(q) && forall h {:trigger h in q} :: h in q <==> h in f.reqs && f.reqs[h].phase == p
  }

  ghost predicate Member(r: Req, h: nat, i: nat) {
    i == h || i == r.d1 || i == r.d2
  }

  /** Two requests share no descriptor and no buffer. */
  ghost predicate Separate(r: Req, g: nat, q: Req, h: nat) {
    !Member(q, h, g) && !Member(q, h, r.d1) && !Member(q, h, r.d2) && r.buf != q.buf
  }

  ghost predicate Apart(f: Flight) {
    forall g, h {:trigger Separate(f.reqs[g], g, f.reqs[h], h)} | g in f.reqs && h in f.reqs && g != h ::
      Separate(f.reqs[g], g, f.reqs[h], h)
  }

  ghost predicate RingOk(k: Ring, f: Flight) {
    && |k.desc| == |k.free| == |k.info| == NUM
    && (forall h {:trigger ReqOk(k, f, h)} | h in f.reqs :: ReqOk(k, f, h)) && Apart(f)
    && (forall i {:trigger InChain(f, i)} | 0 <= i < NUM && !k.free[i] :: InChain(f, i))
    && (forall b {:trigger HasBuf(f, b)} | b in k.busy :: HasBuf(f, b))
    && RingHolds(k.avail, f.taken, k.availIdx, f.offered) && QueueOk(f, f.offered, Offered)
    && RingHolds(k.used, k.seen, k.usedIdx, f.reported) && QueueOk(f, f.reported, Reported)
  }

  ghost predicate HasBuf(f: Flight, b: nat) {
    exists h :: h in f.reqs && f.reqs[h].buf == b
  }

  ghost predicate InChain(f: Flight, i: nat) {
    exists h :: h in f.reqs && Member(f.reqs[h], h, i)
  }

  // ---- counting ------------------------------------------------------------------------------------

  lemma {:induction false} Pigeons(q: seq<nat>, n: nat)
    requires NoDup(q) && forall i | 0 <= i < |q| :: q[i] < n
    ensures |q| <= n
    decreases n
  {
    if n == 0 {
      if q != [] { assert false; }
    } else if n - 1 in q {
      var i :| 0 <= i < |q| && q[i] == n - 1;
      var r := q[..i] + q[i + 1..];
      forall j | 0 <= j < |r| ensures r[j] < n - 1 {
        assert r[j] == if j < i then q[j] else q[j + 1];
      }
      Pigeons(r, n - 1);
    } else {
      forall i | 0 <= i < |q| ensures q[i] < n - 1 { assert q[i] in q; }
      Pigeons(q, n - 1);
    }
  }

  function Below(n: nat): (s: set<nat>)
    ensures forall i: nat :: i in s <==> i < n
    ensures |s| == n
  {
    if n == 0 then {} else Below(n - 1) + {n - 1}
  }

  ghost function FreeSet(k: Ring): set<nat> {
    set i | i in Below(NUM) && i < |k.free| && k.free[i]
  }

  ghost function UsedSet(f: Flight, heads: set<nat>): set<nat>
    requires heads <= f.reqs.Keys
  {
    set h, i | h in heads && i in ChainOf(f, h) :: i
  }

  lemma ChainCount(a: nat, b: nat, c: nat)
    requires a != b && a != c && b != c
    ensures |{a, b, c}| == 3
  {
  }

  lemma UsedSplit(k: Ring, f: Flight, heads: set<nat>, h: nat)
    requires RingOk(k, f) && heads <= f.reqs.Keys && h in heads
    ensures UsedSet(f, heads) == UsedSet(f, heads - {h}) + ChainOf(f, h)
    ensures UsedSet(f, heads - {h}) !! ChainOf(f, h)
    ensures |ChainOf(f, h)| == 3
  {
    hide RingHolds, QueueOk, InChain;
    assert ReqOk(k, f, h);
    ChainCount(h, f.reqs[h].d1, f.reqs[h].d2);
    forall i | i in UsedSet(f, heads - {h}) ensures i !in ChainOf(f, h) {
      var g :| g in heads - {h} && i in ChainOf(f, g);
      assert Separate(f.reqs[g], g, f.reqs[h], h);
    }
  }

  lemma {:induction false} UsedCount(k: Ring, f: Flight, heads: set<nat>)
    requires RingOk(k, f) && heads <= f.reqs.Keys
    ensures |UsedSet(f, heads)| == 3 * |heads|
    decreases |heads|
  {
    hide RingOk, ChainOf;
    if heads == {} {
      assert UsedSet(f, heads) == {};
    } else {
      var h :| h in heads;
      UsedCount(k, f, heads - {h});
      UsedSplit(k, f, heads, h);
    }
  }

  /** The free descriptors and three for every request make up all of them. */
  lemma Conserved(k: Ring, f: Flight)
    requires RingOk(k, f)
    ensures |FreeSet(k)| + 3 * |f.reqs| == NUM
  {
    UsedCount(k, f, f.reqs.Keys);
    var used := UsedSet(f, f.reqs.Keys);
    Partition(k, f);
    Union(FreeSet(k), used, Below(NUM));
    assert |f.reqs.Keys| == |f.reqs|;
  }

  lemma Union(a: set<nat>, b: set<nat>, c: set<nat>)
    requires a !! b && a + b == c
    ensures |a| + |b| == |c|
  {
  }

  lemma Partition(k: Ring, f: Flight)
    requires RingOk(k, f)
    ensures FreeSet(k) !! UsedSet(f, f.reqs.Keys) && FreeSet(k) + UsedSet(f, f.reqs.Keys) == Below(NUM)
  {
    hide RingHolds, QueueOk, Apart, InChain, UsedSet;
    forall i: nat ensures i in Below(NUM) <==> i in FreeSet(k) || i in UsedSet(f, f.reqs.Keys) {
      if i < NUM && !k.free[i] { Chained(k, f, i); }
      if i in UsedSet(f, f.reqs.Keys) { UsedTaken(k, f, i); }
    }
    forall i | i in UsedSet(f, f.reqs.Keys) ensures i !in FreeSet(k) {
      UsedTaken(k, f, i);
    }
  }

  lemma Chained(k: Ring, f: Flight, i: nat)
    requires RingOk(k, f) && i < NUM && !k.free[i]
    ensures i in UsedSet(f, f.reqs.Keys)
  {
    assert InChain(f, i);
    var h :| h in f.reqs && Member(f.reqs[h], h, i);
    assert i in ChainOf(f, h);
  }

  lemma UsedTaken(k: Ring, f: Flight, i: nat)
    requires RingOk(k, f) && i in UsedSet(f, f.reqs.Keys)
    ensures i < NUM && !k.free[i]
  {
    var h :| h in f.reqs && i in ChainOf(f, h);
    assert ReqOk(k, f, h);
  }

  // ---- the steps on values -------------------------------------------------------------------------

  /** virtio_disk_rw up to the notification, with three free descriptors. */
  ghost function Submitted(k: Ring, i0: nat, i1: nat, i2: nat, b: nat): Ring
    requires |k.desc| == |k.free| == |k.info| == |k.avail| == NUM && i0 < NUM && i1 < NUM && i2 < NUM
  {
    k.(free := k.free[i0 := false][i1 := false][i2 := false],
       desc := k.desc[i0 := Desc(true, i1)][i1 := Desc(true, i2)][i2 := Desc(false, 0)],
       info := k.info[i0 := Some(b)],
       avail := k.avail[k.availIdx % NUM := i0],
       availIdx := U16(k.availIdx + 1),
       busy := k.busy + {b})
  }

  ghost function Added(f: Flight, i0: nat, i1: nat, i2: nat, b: nat): Flight {
    f.(reqs := f.reqs[i0 := Req(b, i1, i2, Offered)], offered := f.offered + [i0])
  }

  /** Adding at the end of a ring with room left leaves the entries before it alone. */
  lemma RingAdd(ring: seq<nat>, from: nat, upto: nat, q: seq<nat>, x: nat)
    requires RingHolds(ring, from, upto, q) && |q| < NUM
    ensures RingHolds(ring[upto % NUM := x], from, U16(upto + 1), q + [x])
  {
    WrapKeepsEntry(from + |q|);
    forall i | 0 <= i < |q + [x]| ensures ring[upto % NUM := x][(from + i) % NUM] == (q + [x])[i] {
      if i < |q| { assert q[i] == ring[(from + i) % NUM]; }
    }
  }

  lemma RingDrop(ring: seq<nat>, from: nat, upto: nat, q: seq<nat>)
    requires RingHolds(ring, from, upto, q) && q != []
    ensures RingHolds(ring, U16(from + 1), upto, q[1..]) && ring[from % NUM] == q[0]
  {
    assert q[0] == ring[(from + 0) % NUM];
    forall i | 0 <= i < |q[1..]| ensures ring[(U16(from + 1) + i) % NUM] == q[1..][i] {
      assert q[i + 1] == ring[(from + (i + 1)) % NUM];
    }
  }

  lemma QueueRoom(k: Ring, f: Flight, q: seq<nat>, p: Phase, h: nat)
    requires RingOk(k, f) && QueueOk(f, q, p) && h !in q && h < NUM
    ensures |q| < NUM
  {
    var r := q + [h];
    forall i | 0 <= i < |r| ensures r[i] < NUM {
      if i < |q| {
        assert q[i] in q;
        assert ReqOk(k, f, q[i]);
      }
    }
    Pigeons(r, NUM);
  }

  lemma Lengths(k: Ring, f: Flight)
    requires RingOk(k, f)
    ensures |k.desc| == |k.free| == |k.info| == |k.avail| == NUM
  {
  }

  /** Three different free descriptors. */
  ghost predicate Free3(k: Ring, i0: nat, i1: nat, i2: nat) {
    && |k.desc| == |k.free| == |k.info| == |k.avail| == NUM && i0 < NUM && i1 < NUM && i2 < NUM
    && i0 != i1 && i0 != i2 && i1 != i2 && k.free[i0] && k.free[i1] && k.free[i2]
  }

  lemma SubmitOld(k: Ring, f: Flight, i0: nat, i1: nat, i2: nat, b: nat, h: nat)
    requires Free3(k, i0, i1, i2) && h in f.reqs && ReqOk(k, f, h) && f.reqs[h].buf != b
    ensures h != i0 && ReqOk(Submitted(k, i0, i1, i2, b), Added(f, i0, i1, i2, b), h)
    ensures var q := Req(b, i1, i2, Offered); Separate(f.reqs[h], h, q, i0) && Separate(q, i0, f.reqs[h], h)
  {
  }

  lemma SubmitReqs(k: Ring, f: Flight, i0: nat, i1: nat, i2: nat, b: nat)
    requires RingOk(k, f) && Free3(k, i0, i1, i2) && forall h | h in f.reqs :: f.reqs[h].buf != b
    ensures var k', f' := Submitted(k, i0, i1, i2, b), Added(f, i0, i1, i2, b);
            i0 !in f.reqs && forall h {:trigger ReqOk(k', f', h)} | h in f'.reqs :: ReqOk(k', f', h)
  {
    var k', f' := Submitted(k, i0, i1, i2, b), Added(f, i0, i1, i2, b);
    assert ReqOk(k', f', i0);
    hide ReqOk, Separate, InChain, HasBuf, RingHolds, QueueOk, Submitted, Apart;
    forall h | h in f.reqs ensures h != i0 && ReqOk(k', f', h) {
      assert ReqOk(k, f, h);
      SubmitOld(k, f, i0, i1, i2, b, h);
    }
  }

  lemma SubmitApart(k: Ring, f: Flight, i0: nat, i1: nat, i2: nat, b: nat)
    requires RingOk(k, f) && Free3(k, i0, i1, i2) && forall h | h in f.reqs :: f.reqs[h].buf != b
    ensures Apart(Added(f, i0, i1, i2, b))
  {
    hide ReqOk, Separate, InChain, HasBuf, RingHolds, QueueOk, Submitted;
    var f' := Added(f, i0, i1, i2, b);
    forall g, h | g in f'.reqs && h in f'.reqs && g != h ensures Separate(f'.reqs[g], g, f'.reqs[h], h) {
      if g != i0 && h != i0 {
        assert Separate(f.reqs[g], g, f.reqs[h], h);
      } else {
        var x := if g == i0 then h else g;
        assert ReqOk(k, f, x);
        SubmitOld(k, f, i0, i1, i2, b, x);
      }
    }
  }

  lemma SubmitOk(k: Ring, f: Flight, i0: nat, i1: nat, i2: nat, b: nat)
    requires RingOk(k, f) && Free3(k, i0, i1, i2) && forall h | h in f.reqs :: f.reqs[h].buf != b
    ensures RingOk(Submitted(k, i0, i1, i2, b), Added(f, i0, i1, i2, b))
  {
    var k', f' := Submitted(k, i0, i1, i2, b), Added(f, i0, i1, i2, b);
    SubmitReqs(k, f, i0, i1, i2, b);
    SubmitApart(k, f, i0, i1, i2, b);
    QueueRoom(k, f, f.offered, Offered, i0);
    RingAdd(k.avail, f.taken, k.availIdx, f.offered, i0);
    forall i | 0 <= i < NUM && !k'.free[i] ensures InChain(f', i) {
      if i == i0 || i == i1 || i == i2 {
        assert Member(f'.reqs[i0], i0, i);
      } else {
        assert !k.free[i];
        assert InChain(f, i);
        var h :| h in f.reqs && Member(f.reqs[h], h, i);
        assert h in f'.reqs && Member(f'.reqs[h], h, i);
      }
    }
    forall x | x in k'.busy ensures HasBuf(f', x) {
      if x == b {
        assert f'.reqs[i0].buf == b;
      } else {
        assert HasBuf(f, x);
        var h :| h in f.reqs && f.reqs[h].buf == x;
        assert h in f'.reqs && f'.reqs[h].buf == x;
      }
    }
    assert QueueOk(f', f'.offered, Offered) && QueueOk(f', f'.reported, Reported);
  }

  /** A request moves on; its chain stays where it is. */
  ghost function Moved(f: Flight, h: nat, p: Phase): map<nat, Req>
    requires h in f.reqs
  {
    f.reqs[h := f.reqs[h].(phase := p)]
  }

  lemma MovedApart(f: Flight, f': Flight, h: nat, p: Phase)
    requires Apart(f) && h in f.reqs && f'.reqs == Moved(f, h, p)
    ensures Apart(f')
  {
    forall g, x | g in f'.reqs && x in f'.reqs && g != x ensures Separate(f'.reqs[g], g, f'.reqs[x], x) {
      assert Separate(f.reqs[g], g, f.reqs[x], x);
    }
  }

  lemma MovedChains(k: Ring, f: Flight, k': Ring, f': Flight, h: nat, p: Phase)
    requires RingOk(k, f) && h in f.reqs && f'.reqs == Moved(f, h, p)
    requires k'.free == k.free && |k'.free| == NUM && k'.busy <= k.busy
    ensures forall i {:trigger InChain(f', i)} | 0 <= i < NUM && !k'.free[i] :: InChain(f', i)
    ensures forall b {:trigger HasBuf(f', b)} | b in k'.busy :: HasBuf(f', b)
  {
    forall i | 0 <= i < NUM && !k'.free[i] ensures InChain(f', i) {
      assert !k.free[i];
      assert InChain(f, i);
      var g :| g in f.reqs && Member(f.reqs[g], g, i);
      assert g in f'.reqs && Member(f'.reqs[g], g, i);
    }
    forall b | b in k'.busy ensures HasBuf(f', b) {
      assert HasBuf(f, b);
      var g :| g in f.reqs && f.reqs[g].buf == b;
      assert g in f'.reqs && f'.reqs[g].buf == b;
    }
  }

  lemma QueueIn(f: Flight, f': Flight, q: seq<nat>, p: Phase, h: nat)
    requires QueueOk(f, q, p) && h in f.reqs && f.reqs[h].phase != p && f'.reqs == Moved(f, h, p)
    ensures QueueOk(f', q + [h], p)
  {
    assert h !in q;
  }

  lemma QueueKept(f: Flight, f': Flight, q: seq<nat>, p: Phase, h: nat, p': Phase)
    requires QueueOk(f, q, p) && h in f.reqs && f.reqs[h].phase != p && p' != p && f'.reqs == Moved(f, h, p')
    ensures QueueOk(f', q, p)
  {
  }

  lemma QueueOut(f: Flight, f': Flight, q: seq<nat>, p: Phase, p': Phase)
    requires q != [] && QueueOk(f, q, p) && p' != p && q[0] in f.reqs && f'.reqs == Moved(f, q[0], p')
    ensures QueueOk(f', q[1..], p)
  {
    assert q == [q[0]] + q[1..];
    assert q[0] in q && q[0] !in q[1..];
    forall h ensures h in q[1..] <==> h in f'.reqs && f'.reqs[h].phase == p {
      assert h in q <==> h == q[0] || h in q[1..];
    }
  }

  /** The device takes the oldest request it has been offered. */
  lemma TakeOk(k: Ring, f: Flight)
    requires RingOk(k, f) && f.offered != []
    ensures var h := f.offered[0];
            && h in f.reqs && k.avail[f.taken % NUM] == h
            && RingOk(k, Flight(Moved(f, h, InDevice), f.offered[1..], U16(f.taken + 1), f.reported))
  {
    var h := f.offered[0];
    assert h in f.offered;
    hide RingHolds, QueueOk, Apart;
    var f' := Flight(Moved(f, h, InDevice), f.offered[1..], U16(f.taken + 1), f.reported);
    RingDrop(k.avail, f.taken, k.availIdx, f.offered);
    QueueOut(f, f', f.offered, Offered, InDevice);
    MovedApart(f, f', h, InDevice);
    MovedChains(k, f, k, f', h, InDevice);
    forall g | g in f'.reqs ensures ReqOk(k, f', g) { assert ReqOk(k, f, g); }
    QueueKept(f, f', f.reported, Reported, h, InDevice);
  }

  /** The device reports a request it has finished, in whatever order it likes. */
  lemma ReportOk(k: Ring, f: Flight, h: nat)
    requires RingOk(k, f) && h in f.reqs && f.reqs[h].phase == InDevice
    ensures RingOk(k.(used := k.used[k.usedIdx % NUM := h], usedIdx := U16(k.usedIdx + 1)),
               f.(reqs := Moved(f, h, Reported), reported := f.reported + [h]))
  {
    var k' := k.(used := k.used[k.usedIdx % NUM := h], usedIdx := U16(k.usedIdx + 1));
    var f' := f.(reqs := Moved(f, h, Reported), reported := f.reported + [h]);
    assert ReqOk(k, f, h);
    assert |k.used| == NUM && h !in f.reported;
    hide RingHolds, QueueOk, Apart;
    QueueRoom(k, f, f.reported, Reported, h);
    RingAdd(k.used, k.seen, k.usedIdx, f.reported, h);
    MovedApart(f, f', h, Reported);
    MovedChains(k, f, k', f', h, Reported);
    forall g | g in f'.reqs ensures ReqOk(k', f', g) { assert ReqOk(k, f, g); }
    QueueIn(f, f', f.reported, Reported, h);
    QueueKept(f, f', f.offered, Offered, h, Reported);
  }

  /** One round of virtio_disk_intr: the buffer was waiting, and is completed now. */
  lemma CompleteOk(k: Ring, f: Flight)
    requires RingOk(k, f) && k.seen != k.usedIdx
    ensures f.reported != [] && k.used[k.seen % NUM] == f.reported[0]
    ensures var h := f.reported[0];
            && h in f.reqs && h < NUM && k.info[h] == Some(f.reqs[h].buf) && f.reqs[h].buf in k.busy
            && RingOk(k.(seen := U16(k.seen + 1), busy := k.busy - {f.reqs[h].buf}),
                  f.(reqs := Moved(f, h, Completed), reported := f.reported[1..]))
  {
    RingDrop(k.used, k.seen, k.usedIdx, f.reported);
    var h := f.reported[0];
    assert h in f.reported && ReqOk(k, f, h);
    assert |k.used| == NUM;
    hide RingHolds, QueueOk;
    var k' := k.(seen := U16(k.seen + 1), busy := k.busy - {f.reqs[h].buf});
    var f' := f.(reqs := Moved(f, h, Completed), reported := f.reported[1..]);
    QueueOut(f, f', f.reported, Reported, Completed);
    MovedApart(f, f', h, Completed);
    MovedChains(k, f, k', f', h, Completed);
    forall g | g in f'.reqs ensures ReqOk(k', f', g) {
      assert ReqOk(k, f, g);
      assert g != h ==> Separate(f.reqs[g], g, f.reqs[h], h);
    }
    QueueKept(f, f', f.offered, Offered, h, Completed);
  }

  ghost function Freed(k: Ring, r: Req, h: nat): Ring
    requires |k.desc| == |k.free| == |k.info| == NUM && h < NUM && r.d1 < NUM && r.d2 < NUM
  {
    k.(free := k.free[h := true][r.d1 := true][r.d2 := true],
       desc := k.desc[h := Desc(false, 0)][r.d1 := Desc(false, 0)][r.d2 := Desc(false, 0)],
       info := k.info[h := None])
  }

  /** free_chain of a completed request gives back its three descriptors and touches no other chain. */
  lemma FinishOk(k: Ring, f: Flight, h: nat)
    requires RingOk(k, f) && h in f.reqs && f.reqs[h].phase == Completed && ReqOk(k, f, h)
    ensures RingOk(Freed(k, f.reqs[h], h), f.(reqs := f.reqs - {h}))
  {
    var k', f' := Freed(k, f.reqs[h], h), f.(reqs := f.reqs - {h});
    FinishReqs(k, f, h);
    FinishFree(k, f, h);
    assert QueueOk(f', f'.offered, Offered) && QueueOk(f', f'.reported, Reported);
  }

  lemma FinishReqs(k: Ring, f: Flight, h: nat)
    requires RingOk(k, f) && h in f.reqs && f.reqs[h].phase == Completed && ReqOk(k, f, h)
    ensures var k', f' := Freed(k, f.reqs[h], h), f.(reqs := f.reqs - {h});
            Apart(f') && forall g {:trigger ReqOk(k', f', g)} | g in f'.reqs :: ReqOk(k', f', g)
  {
    hide RingHolds, QueueOk;
    var k', f' := Freed(k, f.reqs[h], h), f.(reqs := f.reqs - {h});
    assert ReqOk(k, f, h);
    forall g | g in f'.reqs ensures ReqOk(k', f', g) {
      assert ReqOk(k, f, g);
      assert Separate(f.reqs[g], g, f.reqs[h], h);
    }
    forall g, x | g in f'.reqs && x in f'.reqs && g != x ensures Separate(f'.reqs[g], g, f'.reqs[x], x) {
      assert Separate(f.reqs[g], g, f.reqs[x], x);
    }
  }

  lemma FinishFree(k: Ring, f: Flight, h: nat)
    requires RingOk(k, f) && h in f.reqs && f.reqs[h].phase == Completed && ReqOk(k, f, h)
    ensures var k', f' := Freed(k, f.reqs[h], h), f.(reqs := f.reqs - {h});
            && (forall i {:trigger InChain(f', i)} | 0 <= i < NUM && !k'.free[i] :: InChain(f', i))
            && (forall b {:trigger HasBuf(f', b)} | b in k'.busy :: HasBuf(f', b))
  {
    hide RingHolds, QueueOk, Apart;
    var k', f' := Freed(k, f.reqs[h], h), f.(reqs := f.reqs - {h});
    assert ReqOk(k, f, h);
    forall i | 0 <= i < NUM && !k'.free[i] ensures InChain(f', i) {
      assert !k.free[i];
      assert InChain(f, i);
      var g :| g in f.reqs && Member(f.reqs[g], g, i);
      assert g in f'.reqs && Member(f'.reqs[g], g, i);
    }
    forall b | b in k'.busy ensures HasBuf(f', b) {
      assert HasBuf(f, b);
      var g :| g in f.reqs && f.reqs[g].buf == b;
      assert g in f'.reqs && f'.reqs[g].buf == b;
    }
  }

  // ---- the driver ------------------------------------------------------------------------------------

  class Driver {
    var k: Ring
    ghost var f: Flight

    ghost predicate Valid()
      reads this
    {
      RingOk(k, f)
    }

    /** virtio_disk_init's tables: all descriptors free, both rings empty. */
    constructor ()
      ensures Valid() && f.reqs == map[] && k.busy == {}
    {
      k := Ring(seq(NUM, _ => true), seq(NUM, _ => Desc(false, 0)), seq(NUM, _ => None), seq(NUM, _ => 0), 0,
                seq(NUM, _ => 0), 0, 0, {});
      f := Flight(map[], [], 0, []);
    }

    /** alloc_desc: the lowest free descriptor. */
    method AllocDesc() returns (ok: bool, i: nat)
      requires |k.free| == NUM
      modifies this`k
      ensures ok <==> exists j :: 0 <= j < NUM && old(k).free[j]
      ensures ok ==> i < NUM && old(k).free[i] && k == old(k).(free := old(k).free[i := false])
      ensures ok ==> forall j | 0 <= j < i :: !old(k).free[j]
      ensures !ok ==> k == old(k)
    {
      i := 0;
      while i < NUM
        invariant 0 <= i <= NUM && k == old(k) && forall j | 0 <= j < i :: !k.free[j]
      {
        if k.free[i] {
          k := k.(free := k.free[i := false]);
          return true, i;
        }
        i := i + 1;
      }
      return false, 0;
    }

    method FreeDesc(i: nat) returns (ok: bool)
      requires |k.free| == |k.desc| == NUM
      modifies this`k
      ensures ok == (i < NUM && !old(k).free[i])
      ensures k == if ok then old(k).(free := old(k).free[i := true], desc := old(k).desc[i := Desc(false, 0)]) else old(k)
    {
      if i >= NUM || k.free[i] { return false; }
      k := k.(free := k.free[i := true], desc := k.desc[i := Desc(false, 0)]);
      return true;
    }

    /** alloc3_desc: three free descriptors, or none at all. */
    method Alloc3() returns (ok: bool, i0: nat, i1: nat, i2: nat)
      requires |k.free| == |k.desc| == NUM
      modifies this`k
      ensures ok ==> i0 < NUM && i1 < NUM && i2 < NUM && i0 != i1 && i0 != i2 && i1 != i2
      ensures ok ==> old(k).free[i0] && old(k).free[i1] && old(k).free[i2]
      ensures ok ==> k == old(k).(free := old(k).free[i0 := false][i1 := false][i2 := false])
      ensures !ok ==> k.free == old(k).free
      ensures !ok ==> AtMost(old(k).free, i0, i1)
    {
      i0, i1, i2 := 0, 0, 0;
      ok, i0 := AllocDesc();
      if !ok { return; }
      ok, i1 := AllocDesc();
      if !ok {
        var back := FreeDesc(i0);
        i1 := i0;
        assert k.free == old(k).free;
        return;
      }
      ok, i2 := AllocDesc();
      if !ok {
        var back := FreeDesc(i0);
        back := FreeDesc(i1);
        assert k.free == old(k).free;
      }
    }

    /** The request is written to the descriptors, to its head's record and to the ring. */
    method Offer(ghost k0: Ring, b: nat, i0: nat, i1: nat, i2: nat)
      requires Free3(k0, i0, i1, i2) && k == k0.(free := k0.free[i0 := false][i1 := false][i2 := false])
      modifies this`k
      ensures k == Submitted(k0, i0, i1, i2, b)
    {
      k := k.(desc := k.desc[i0 := Desc(true, i1)][i1 := Desc(true, i2)][i2 := Desc(false, 0)]);
      k := k.(busy := k.busy + {b}, info := k.info[i0 := Some(b)]);
      k := k.(avail := k.avail[k.availIdx % NUM := i0]);
      k := k.(availIdx := U16(k.availIdx + 1));
    }

    /** virtio_disk_rw up to the wait; it panics where fewer than three descriptors are free. */
    method Submit(b: nat) returns (ok: bool, head: nat)
      requires Valid() && forall h | h in f.reqs :: f.reqs[h].buf != b
      modifies this
      ensures ok ==> Valid() && head !in old(f).reqs && head in f.reqs && b in k.busy
      ensures ok ==> f.reqs == old(f).reqs[head := f.reqs[head]] && f.reqs[head].buf == b && f.reqs[head].phase == Offered
      ensures ok <==> |old(f).reqs| < 2
    {
      ghost var k0 := k;
      Lengths(k, f);
      hide RingOk, Apart, ReqOk;
      var i0, i1, i2;
      ok, i0, i1, i2 := Alloc3();
      if !ok {
        FullMeansTwo(k0, f, i0, i1);
        return false, 0;
      }
      ThreeFree(k0, f, i0, i1, i2);
      SubmitOk(k0, f, i0, i1, i2, b);
      SubmitReqs(k0, f, i0, i1, i2, b);
      Offer(k0, b, i0, i1, i2);
      f := Added(f, i0, i1, i2, b);
      return true, i0;
    }

    /** virtio_disk_intr: every reported request is completed once, in the order reported. */
    method Interrupt()
      requires Valid()
      modifies this
      ensures Valid() && f.reported == [] && f.reqs.Keys == old(f).reqs.Keys
      ensures forall h | h in f.reqs ::
                f.reqs[h] == if h in old(f).reported then old(f).reqs[h].(phase := Completed) else old(f).reqs[h]
    {
      while k.seen != k.usedIdx
        invariant Valid() && f.reqs.Keys == old(f).reqs.Keys && |f.reported| <= |old(f).reported|
        invariant f.reported == old(f).reported[|old(f).reported| - |f.reported|..]
        invariant forall h | h in f.reqs ::
                    f.reqs[h] == if h in old(f).reported[..|old(f).reported| - |f.reported|] then old(f).reqs[h].(phase := Completed) else old(f).reqs[h]
        decreases |f.reported|
      {
        CompleteOk(k, f);
        ghost var n := |old(f).reported| - |f.reported|;
        assert old(f).reported[..n + 1] == old(f).reported[..n] + [old(f).reported[n]];
        var id := k.used[k.seen % NUM];
        var b := k.info[id].value;
        k := k.(busy := k.busy - {b});
        k := k.(seen := U16(k.seen + 1));
        f := f.(reqs := Moved(f, id, Completed), reported := f.reported[1..]);
      }
      EmptyReported(k, f);
      assert old(f).reported[..|old(f).reported|] == old(f).reported;
    }

    /** free_chain: following the links of a chain of three frees exactly those. */
    method FreeChain(head: nat, ghost r: Req)
      requires |k.free| == |k.desc| == |k.info| == NUM && Linked(k, r, head)
      modifies this`k
      ensures k == old(k).(free := old(k).free[head := true][r.d1 := true][r.d2 := true],
                           desc := old(k).desc[head := Desc(false, 0)][r.d1 := Desc(false, 0)][r.d2 := Desc(false, 0)])
    {
      ghost var k0 := k;
      ghost var k1 := k0.(free := k0.free[head := true], desc := k0.desc[head := Desc(false, 0)]);
      ghost var k2 := k1.(free := k1.free[r.d1 := true], desc := k1.desc[r.d1 := Desc(false, 0)]);
      ghost var k3 := k2.(free := k2.free[r.d2 := true], desc := k2.desc[r.d2 := Desc(false, 0)]);
      var i, more := head, true;
      ghost var n := 0;
      while more
        invariant 0 <= n <= 3
        invariant if n == 0 then more && i == head && k == k0 else if n == 1 then more && i == r.d1 && k == k1
                  else if n == 2 then more && i == r.d2 && k == k2 else !more && k == k3
        decreases 3 - n
      {
        var d := k.desc[i];
        var ok := FreeDesc(i);
        more, i, n := d.more, d.next, n + 1;
      }
    }

    /** The rest of virtio_disk_rw, after the wait. */
    method Finish(head: nat)
      requires Valid() && head in f.reqs && f.reqs[head].phase == Completed
      modifies this
      ensures Valid() && f == old(f).(reqs := old(f).reqs - {head})
      ensures |FreeSet(k)| == |FreeSet(old(k))| + 3
    {
      ghost var k0, f0, r := k, f, f.reqs[head];
      assert ReqOk(k, f, head);
      FinishOk(k, f, head);
      hide RingOk, FreeSet;
      k := k.(info := k.info[head := None]);
      FreeChain(head, r);
      assert k == Freed(k0, r, head);
      f := f.(reqs := f.reqs - {head});
      FinishCounts(k0, f0, head, k, f);
    }
  }

  /** The links that a request's chain is made of. */
  ghost predicate Linked(k: Ring, r: Req, h: nat)
    requires |k.free| == |k.desc| == NUM
  {
    && h < NUM && r.d1 < NUM && r.d2 < NUM && h != r.d1 && h != r.d2 && r.d1 != r.d2
    && !k.free[h] && !k.free[r.d1] && !k.free[r.d2]
    && k.desc[h] == Desc(true, r.d1) && k.desc[r.d1] == Desc(true, r.d2) && !k.desc[r.d2].more
  }

  ghost predicate AtMost(free: seq<bool>, a: nat, b: nat) {
    forall j: nat {:trigger free[j]} | j < |free| && free[j] :: j == a || j == b
  }

  /** When three free descriptors cannot be found, two requests are in flight already. */
  lemma FullMeansTwo(k: Ring, f: Flight, a: nat, b: nat)
    requires RingOk(k, f) && AtMost(k.free, a, b)
    ensures |f.reqs| >= 2
  {
    hide RingOk, FreeSet;
    Conserved(k, f);
    FewFree(k, a, b);
    Subset(FreeSet(k), {a, b});
    Pair(a, b);
  }

  lemma ThreeFree(k: Ring, f: Flight, a: nat, b: nat, c: nat)
    requires RingOk(k, f) && a < NUM && b < NUM && c < NUM && a != b && a != c && b != c && k.free[a] && k.free[b] && k.free[c]
    ensures |f.reqs| < 2
  {
    ThreeIn(k, a, b, c);
    hide RingOk, FreeSet;
    Conserved(k, f);
    Subset({a, b, c}, FreeSet(k));
    ChainCount(a, b, c);
  }

  lemma ThreeIn(k: Ring, a: nat, b: nat, c: nat)
    requires |k.free| == NUM && a < NUM && b < NUM && c < NUM && k.free[a] && k.free[b] && k.free[c]
    ensures {a, b, c} <= FreeSet(k)
  {
  }

  lemma FewFree(k: Ring, a: nat, b: nat)
    requires AtMost(k.free, a, b)
    ensures FreeSet(k) <= {a, b}
  {
  }

  lemma Subset(s: set<nat>, t: set<nat>)
    requires s <= t
    ensures |s| <= |t|
  {
    assert s + (t - s) == t;
    Union(s, t - s, t);
  }

  lemma Pair(a: nat, b: nat)
    ensures |{a, b}| <= 2
  {
  }

  lemma FinishCounts(k: Ring, f: Flight, h: nat, k': Ring, f': Flight)
    requires RingOk(k, f) && RingOk(k', f') && h in f.reqs && f'.reqs == f.reqs - {h}
    ensures |FreeSet(k')| == |FreeSet(k)| + 3
  {
    hide RingOk, FreeSet;
    Conserved(k, f);
    Conserved(k', f');
    assert f.reqs.Keys == f'.reqs.Keys + {h};
    assert |f.reqs.Keys| == |f.reqs| && |f'.reqs.Keys| == |f'.reqs|;
  }

  lemma EmptyReported(k: Ring, f: Flight)
    requires RingOk(k, f) && k.seen == k.usedIdx
    ensures f.reported == []
  {
  }

  // ---- every interleaving ----------------------------------------------------------------------------

  /** A step of the driver or of the device, as the methods above and the device's side define them. */
  ghost predicate Step(k: Ring, f: Flight, k': Ring, f': Flight) {
    || (exists i0, i1, i2, b :: SubmitStep(k, f, i0, i1, i2, b, k', f'))
    || TakeStep(k, f, k', f')
    || (exists h :: ReportStep(k, f, h, k', f'))
    || (exists b :: CompleteStep(k, f, b, k', f'))
    || (exists h :: FinishStep(k, f, h, k', f'))
  }

  ghost predicate TakeStep(k: Ring, f: Flight, k': Ring, f': Flight) {
    && f.offered != [] && f.offered[0] in f.reqs && k' == k
    && f' == Flight(Moved(f, f.offered[0], InDevice), f.offered[1..], U16(f.taken + 1), f.reported)
  }

  ghost predicate CompleteStep(k: Ring, f: Flight, b: nat, k': Ring, f': Flight) {
    && k.seen != k.usedIdx && f.reported != [] && f.reported[0] in f.reqs && f.reqs[f.reported[0]].buf == b
    && k' == k.(seen := U16(k.seen + 1), busy := k.busy - {b})
    && f' == f.(reqs := Moved(f, f.reported[0], Completed), reported := f.reported[1..])
  }

  ghost predicate SubmitStep(k: Ring, f: Flight, i0: nat, i1: nat, i2: nat, b: nat, k': Ring, f': Flight) {
    && |k.desc| == |k.free| == |k.info| == |k.avail| == NUM
    && i0 < NUM && i1 < NUM && i2 < NUM && i0 != i1 && i0 != i2 && i1 != i2 && k.free[i0] && k.free[i1] && k.free[i2]
    && (forall h | h in f.reqs :: f.reqs[h].buf != b)
    && k' == Submitted(k, i0, i1, i2, b) && f' == Added(f, i0, i1, i2, b)
  }

  ghost predicate ReportStep(k: Ring, f: Flight, h: nat, k': Ring, f': Flight) {
    && h in f.reqs && f.reqs[h].phase == InDevice && |k.used| == NUM
    && k' == k.(used := k.used[k.usedIdx % NUM := h], usedIdx := U16(k.usedIdx + 1))
    && f' == f.(reqs := Moved(f, h, Reported), reported := f.reported + [h])
  }

  ghost predicate FinishStep(k: Ring, f: Flight, h: nat, k': Ring, f': Flight) {
    && h in f.reqs && f.reqs[h].phase == Completed && |k.desc| == |k.free| == |k.info| == NUM && Linked(k, f.reqs[h], h)
    && k' == Freed(k, f.reqs[h], h) && f' == f.(reqs := f.reqs - {h})
  }

  lemma StepOk(k: Ring, f: Flight, k': Ring, f': Flight)
    requires RingOk(k, f) && Step(k, f, k', f')
    ensures RingOk(k', f')
  {
    if i0, i1, i2, b :| SubmitStep(k, f, i0, i1, i2, b, k', f') {
      SubmitOk(k, f, i0, i1, i2, b);
    } else if h :| ReportStep(k, f, h, k', f') {
      ReportOk(k, f, h);
    } else if h :| FinishStep(k, f, h, k', f') {
      assert ReqOk(k, f, h);
      FinishOk(k, f, h);
    } else if TakeStep(k, f, k', f') {
      TakeOk(k, f);
    } else {
      CompleteOk(k, f);
    }
  }

  /** A run from empty rings. */
  ghost predicate Behaviour(ks: seq<Ring>, fs: seq<Flight>) {
    && |ks| == |fs| > 0 && fs[0].reqs == map[] && RingOk(ks[0], fs[0])
    && forall i {:trigger fs[i]} | 0 <= i < |fs| - 1 :: Step(ks[i], fs[i], ks[i + 1], fs[i + 1])
  }

  /** In every interleaving chains stay apart and descriptors are conserved; so at most two requests are in flight. */
  lemma {:induction false} RunsOk(ks: seq<Ring>, fs: seq<Flight>, n: nat)
    requires Behaviour(ks, fs) && n < |fs|
    ensures RingOk(ks[n], fs[n]) && |FreeSet(ks[n])| + 3 * |fs[n].reqs| == NUM
  {
    hide RingOk, Step, FreeSet;
    if n > 0 {
      RunsOk(ks, fs, n - 1);
      assert fs[n - 1] == fs[n - 1];
      StepOk(ks[n - 1], fs[n - 1], ks[n], fs[n]);
    }
    Conserved(ks[n], fs[n]);
  }

  function Rank(p: Phase): nat {
    match p case Offered => 0 case InDevice => 1 case Reported => 2 case Completed => 3
  }

  /** A request goes one phase forward or stays, and keeps its buffer and its chain. */
  lemma StepForward(k: Ring, f: Flight, k': Ring, f': Flight, h: nat)
    requires RingOk(k, f) && Step(k, f, k', f') && h in f.reqs && h in f'.reqs
    ensures f'.reqs[h] == f.reqs[h].(phase := f'.reqs[h].phase)
    ensures Rank(f.reqs[h].phase) <= Rank(f'.reqs[h].phase) <= Rank(f.reqs[h].phase) + 1
  {
    hide RingHolds, Apart, InChain, HasBuf;
    assert ReqOk(k, f, h);
    if f.offered != [] { assert f.offered[0] in f.offered; }
    if f.reported != [] { assert f.reported[0] in f.reported; }
  }

  lemma BusyUntilDone(k: Ring, f: Flight, h: nat)
    requires RingOk(k, f) && h in f.reqs
    ensures f.reqs[h].buf in k.busy <==> f.reqs[h].phase != Completed
  {
    assert ReqOk(k, f, h);
  }

  /** Request h is in flight from state i to state j. */
  ghost predicate InFlight(fs: seq<Flight>, i: nat, j: nat, h: nat) {
    i <= j < |fs| && forall n {:trigger fs[n]} | i <= n <= j :: h in fs[n].reqs
  }

  /**
   In every interleaving a request that ends completed was completed by exactly one
   step, before which its buffer was busy and after which it is not.
   */
  lemma {:induction false} CompletedOnce(ks: seq<Ring>, fs: seq<Flight>, i: nat, j: nat, h: nat) returns (c: nat)
    requires Behaviour(ks, fs) && InFlight(fs, i, j, h)
    requires fs[i].reqs[h].phase != Completed && fs[j].reqs[h].phase == Completed
    ensures i <= c < j
    ensures forall n {:trigger fs[n]} | i <= n <= j :: fs[n].reqs[h].buf == fs[i].reqs[h].buf
    ensures forall n {:trigger fs[n]} | i <= n <= j :: fs[n].reqs[h].buf in ks[n].busy <==> n <= c
    decreases j - i
  {
    hide RingOk, Step, FreeSet;
    RunsOk(ks, fs, i);
    assert h in fs[i].reqs && h in fs[i + 1].reqs;
    BusyUntilDone(ks[i], fs[i], h);
    StepForward(ks[i], fs[i], ks[i + 1], fs[i + 1], h);
    c := i;
    hide Behaviour;
    if fs[i + 1].reqs[h].phase == Completed {
      StaysCompleted(ks, fs, i + 1, j, h);
    } else {
      c := CompletedOnce(ks, fs, i + 1, j, h);
    }
    forall n | i < n <= j ensures fs[n].reqs[h].buf == fs[i].reqs[h].buf && (fs[n].reqs[h].buf in ks[n].busy <==> n <= c) {
      assert i + 1 <= n;
    }
  }

  lemma {:induction false} StaysCompleted(ks: seq<Ring>, fs: seq<Flight>, i: nat, j: nat, h: nat)
    requires Behaviour(ks, fs) && InFlight(fs, i, j, h) && fs[i].reqs[h].phase == Completed
    ensures forall n {:trigger fs[n]} | i <= n <= j :: fs[n].reqs[h] == fs[i].reqs[h] && fs[n].reqs[h].buf !in ks[n].busy
    decreases j - i
  {
    hide RingOk, Step, FreeSet;
    RunsOk(ks, fs, i);
    assert h in fs[i].reqs;
    BusyUntilDone(ks[i], fs[i], h);
    if i < j {
      assert h in fs[i + 1].reqs;
      StepForward(ks[i], fs[i], ks[i + 1], fs[i + 1], h);
      StaysCompleted(ks, fs, i + 1, j, h);
    }
  }

  /** Three requests for different buffers before the first is answered: the third finds too few descriptors. */
  method ThirdRequestFails(a: nat, b: nat, c: nat) returns (first: bool, second: bool, third: bool)
    requires a != b && a != c && b != c
    ensures first && second && !third
  {
    hide RingOk;
    var driver := new Driver();
    var h0, h1, h2;
    first, h0 := driver.Submit(a);
    assert driver.f.reqs == map[h0 := driver.f.reqs[h0]];
    second, h1 := driver.Submit(b);
    assert driver.f.reqs == map[h0 := driver.f.reqs[h0], h1 := driver.f.reqs[h1]];
    third, h2 := driver.Submit(c);
  }
}
