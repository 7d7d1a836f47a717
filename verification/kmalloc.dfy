/**
 The kernel heap (kern/mm/kmalloc.c): size classes with a free list each, over a
 region that only grows.
 */
module KernelHeap {
  import opened Words

  const PAGE_SIZE := 4096
  const KERNEL_MALLOC := 0x7_0000_0000
  const MAX_MALLOC_NPAGE := 20000
  const LIMIT := KERNEL_MALLOC + MAX_MALLOC_NPAGE * PAGE_SIZE
  const HEADER := 24
  const CLASSES := 17

  /** malloc_config: the block size of each class, header included, in ascending order. */
  function Size(c: nat): (n: nat)
    requires c < CLASSES
    ensures n > HEADER && (n <= PAGE_SIZE ==> PAGE_SIZE % n == 0) && (n > PAGE_SIZE ==> n % PAGE_SIZE == 0)
  {
    [64, 128, 256, 512, 1024, 2048, 4096, 8192, 16384, 24576, 32768, 40960, 49152, 57344, 65536, 73728, 135168][c]
  }

  /** The pages each class gets at start. */
  function FirstPages(c: nat): nat
    requires c < CLASSES
  {
    [40, 40, 80, 80, 40, 40, 0, 0, 0, 0, 0, 0, 0, 0, 0, 0, 0][c]
  }

  // ---- tiling ----------------------------------------------------------------------------------------

  type Pheads = map<nat, nat>

  /** The blocks of layout follow each other without gap from lo to hi. */
  ghost predicate Tiles(lo: nat, layout: seq<nat>, phead: Pheads, hi: nat)
    decreases |layout|
  {
    if layout == [] then lo == hi
    else layout[0] == lo && lo in phead && phead[lo] < CLASSES && Tiles(lo + Size(phead[lo]), layout[1..], phead, hi)
  }

  lemma {:induction false} TilesAdd(lo: nat, layout: seq<nat>, phead: Pheads, hi: nat, c: nat)
    requires Tiles(lo, layout, phead, hi) && c < CLASSES && hi !in phead
    ensures Tiles(lo, layout + [hi], phead[hi := c], hi + Size(c))
    decreases |layout|
  {
    var phead' := phead[hi := c];
    if layout == [] {
      assert Tiles(lo + Size(c), (layout + [hi])[1..], phead', hi + Size(c));
    } else {
      TilesAdd(lo + Size(phead[lo]), layout[1..], phead, hi, c);
      assert (layout + [hi])[1..] == layout[1..] + [hi];
    }
  }

  /** Every block of a tiling lies inside it. */
  lemma {:induction false} TilesInside(lo: nat, layout: seq<nat>, phead: Pheads, hi: nat, i: nat)
    requires Tiles(lo, layout, phead, hi) && i < |layout|
    ensures layout[i] in phead && phead[layout[i]] < CLASSES && lo <= layout[i] && layout[i] + Size(phead[layout[i]]) <= hi
    decreases |layout|
  {
    TilesOrder(lo, layout, phead, hi);
    if i > 0 { TilesInside(lo + Size(phead[lo]), layout[1..], phead, hi, i - 1); }
  }

  lemma {:induction false} TilesOrder(lo: nat, layout: seq<nat>, phead: Pheads, hi: nat)
    requires Tiles(lo, layout, phead, hi)
    ensures lo <= hi && (layout != [] ==> lo + Size(phead[lo]) <= hi)
    decreases |layout|
  {
    if layout != [] { TilesOrder(lo + Size(phead[lo]), layout[1..], phead, hi); }
  }

  /** Blocks of a tiling do not overlap. */
  lemma {:induction false} TilesDisjoint(lo: nat, layout: seq<nat>, phead: Pheads, hi: nat, i: nat, j: nat)
    requires Tiles(lo, layout, phead, hi) && i < j < |layout|
    ensures layout[i] in phead && phead[layout[i]] < CLASSES && layout[i] + Size(phead[layout[i]]) <= layout[j]
    decreases |layout|
  {
    var next := lo + Size(phead[lo]);
    if i == 0 {
      TilesInside(next, layout[1..], phead, hi, j - 1);
    } else {
      TilesDisjoint(next, layout[1..], phead, hi, i - 1, j - 1);
    }
  }

  /** What the live blocks take, headers included. */
  ghost function LiveSize(layout: seq<nat>, phead: Pheads, live: set<nat>): nat {
    if layout == [] then 0
    else
      var a := layout[|layout| - 1];
      LiveSize(layout[..|layout| - 1], phead, live) + if a in live && a in phead && phead[a] < CLASSES then Size(phead[a]) else 0
  }

  lemma {:induction false} LiveSame(layout: seq<nat>, phead: Pheads, live: set<nat>, phead': Pheads, live': set<nat>)
    requires forall i {:trigger layout[i]} | 0 <= i < |layout| ::
               (layout[i] in live <==> layout[i] in live') && layout[i] in phead && layout[i] in phead' && phead[layout[i]] == phead'[layout[i]]
    ensures LiveSize(layout, phead, live) == LiveSize(layout, phead', live')
  {
    if layout != [] { LiveSame(layout[..|layout| - 1], phead, live, phead', live'); }
  }

  /** One block more among the live ones counts its own size more. */
  lemma {:induction false} LiveMore(layout: seq<nat>, phead: Pheads, live: set<nat>, a: nat)
    requires NoDup(layout) && a in layout && a !in live && (forall x | x in layout :: x in phead) && a in phead && phead[a] < CLASSES
    ensures LiveSize(layout, phead, live + {a}) == LiveSize(layout, phead, live) + Size(phead[a])
    decreases |layout|
  {
    var n := |layout| - 1;
    var front := layout[..n];
    assert layout == front + [layout[n]];
    if layout[n] == a {
      assert a !in front;
      LiveSame(front, phead, live, phead, live + {a});
    } else {
      LiveMore(front, phead, live, a);
    }
  }

  // ---- lists -------------------------------------------------------------------------------------------

  type Lists = seq<seq<nat>>

  /** Each block is live or in the free list of its class, once; the lists hold nothing else. */
  ghost predicate ListsOk(layout: seq<nat>, phead: Pheads, heads: Lists, live: set<nat>) {
    && |heads| == CLASSES && NoDup(layout) && live <= phead.Keys
    && (forall a {:trigger a in phead} :: a in phead <==> a in layout)
    && (forall c {:trigger heads[c]} | 0 <= c < CLASSES :: ListOk(phead, heads[c], live, c))
  }

  ghost predicate ListOk(phead: Pheads, list: seq<nat>, live: set<nat>, c: nat) {
    NoDup(list) && forall a {:trigger a in list} :: a in list <==> a in phead && phead[a] == c && a !in live
  }

  ghost predicate HeapOk(layout: seq<nat>, phead: Pheads, heads: Lists, live: set<nat>, top: nat, alloced: int) {
    && Tiles(KERNEL_MALLOC, layout, phead, top) && ListsOk(layout, phead, heads, live)
    && alloced == LiveSize(layout, phead, live)
  }

  lemma TopIsNew(layout: seq<nat>, phead: Pheads, heads: Lists, live: set<nat>, top: nat, alloced: int)
    requires HeapOk(layout, phead, heads, live, top, alloced)
    ensures top !in phead && top !in live && top >= KERNEL_MALLOC
  {
    TilesOrder(KERNEL_MALLOC, layout, phead, top);
    if top in phead {
      assert top in layout;
      var i :| 0 <= i < |layout| && layout[i] == top;
      TilesInside(KERNEL_MALLOC, layout, phead, top, i);
    }
  }

  /** One block of class c is cut from the top of the heap and put at the head of its list. */
  lemma Grow(layout: seq<nat>, phead: Pheads, heads: Lists, live: set<nat>, top: nat, alloced: int, c: nat)
    requires HeapOk(layout, phead, heads, live, top, alloced) && c < CLASSES
    ensures HeapOk(layout + [top], phead[top := c], heads[c := [top] + heads[c]], live, top + Size(c), alloced)
  {
    TopIsNew(layout, phead, heads, live, top, alloced);
    TilesAdd(KERNEL_MALLOC, layout, phead, top, c);
    LiveSame(layout, phead, live, phead[top := c], live);
    assert (layout + [top])[..|layout|] == layout;
    GrowLists(layout, phead, heads, live, top, c);
  }

  lemma GrowLists(layout: seq<nat>, phead: Pheads, heads: Lists, live: set<nat>, top: nat, c: nat)
    requires ListsOk(layout, phead, heads, live) && c < CLASSES && top !in phead && top !in live
    ensures ListsOk(layout + [top], phead[top := c], heads[c := [top] + heads[c]], live)
  {
    var phead', heads' := phead[top := c], heads[c := [top] + heads[c]];
    forall d | 0 <= d < CLASSES ensures ListOk(phead', heads'[d], live, d) {
      assert ListOk(phead, heads[d], live, d);
      if d == c { HeadNoDup(heads[c], top); }
    }
    assert top !in layout;
  }

  lemma HeadNoDup(list: seq<nat>, a: nat)
    requires NoDup(list) && a !in list
    ensures NoDup([a] + list)
  {
  }

  /** The head of a list becomes live. */
  lemma Pop(layout: seq<nat>, phead: Pheads, heads: Lists, live: set<nat>, top: nat, alloced: int, c: nat)
    requires HeapOk(layout, phead, heads, live, top, alloced) && c < CLASSES && heads[c] != []
    ensures var a := heads[c][0];
            && a !in live && a in phead && phead[a] == c
            && HeapOk(layout, phead, heads[c := heads[c][1..]], live + {a}, top, alloced + Size(c))
  {
    var a, heads' := heads[c][0], heads[c := heads[c][1..]];
    assert ListOk(phead, heads[c], live, c);
    assert a in heads[c] && heads[c] == [a] + heads[c][1..];
    assert a in phead;
    forall d | 0 <= d < CLASSES ensures ListOk(phead, heads'[d], live + {a}, d) {
      assert ListOk(phead, heads[d], live, d);
      if d == c {
        assert a !in heads[c][1..];
        forall x ensures x in heads'[d] <==> x in phead && phead[x] == d && x !in live + {a} {
          assert x in heads[c] <==> x == a || x in heads[c][1..];
        }
      }
    }
    LiveMore(layout, phead, live, a);
  }

  /** A live block goes back to the head of its own class's list. */
  lemma Push(layout: seq<nat>, phead: Pheads, heads: Lists, live: set<nat>, top: nat, alloced: int, a: nat)
    requires HeapOk(layout, phead, heads, live, top, alloced) && a in live
    ensures a in phead && phead[a] < CLASSES
    ensures var c := phead[a];
            HeapOk(layout, phead, heads[c := [a] + heads[c]], live - {a}, top, alloced - Size(c))
  {
    assert a in phead && a in layout;
    var i :| 0 <= i < |layout| && layout[i] == a;
    TilesInside(KERNEL_MALLOC, layout, phead, top, i);
    var c := phead[a];
    var heads' := heads[c := [a] + heads[c]];
    forall d | 0 <= d < CLASSES ensures ListOk(phead, heads'[d], live - {a}, d) {
      assert ListOk(phead, heads[d], live, d);
      if d == c { HeadNoDup(heads[c], a); }
    }
    assert live - {a} + {a} == live;
    LiveMore(layout, phead, live - {a}, a);
  }

  /** A block's payload, after the header. */
  function Payload(c: nat): nat
    requires c < CLASSES
  {
    Size(c) - HEADER
  }

  /** Class c is the smallest whose payload has room for size bytes. */
  predicate Fits(c: nat, size: nat) {
    c < CLASSES && size <= Payload(c) && forall d | 0 <= d < c :: Payload(d) < size
  }

  lemma PayloadInside(c: nat, size: nat)
    requires Fits(c, size)
    ensures size <= Payload(c) && HEADER + Payload(c) == Size(c)
  {
  }

  /** Two live blocks share no byte. */
  lemma LiveDisjoint(layout: seq<nat>, phead: Pheads, heads: Lists, live: set<nat>, top: nat, alloced: int, a: nat, b: nat)
    requires HeapOk(layout, phead, heads, live, top, alloced) && a in live && b in live && a != b
    ensures a in phead && b in phead && phead[a] < CLASSES && phead[b] < CLASSES
    ensures a + Size(phead[a]) <= b || b + Size(phead[b]) <= a
    ensures KERNEL_MALLOC <= a && a + Size(phead[a]) <= top
  {
    assert a in phead && b in phead && a in layout && b in layout;
    var i :| 0 <= i < |layout| && layout[i] == a;
    var j :| 0 <= j < |layout| && layout[j] == b;
    TilesInside(KERNEL_MALLOC, layout, phead, top, i);
    TilesInside(KERNEL_MALLOC, layout, phead, top, j);
    if i < j {
      TilesDisjoint(KERNEL_MALLOC, layout, phead, top, i, j);
    } else {
      TilesDisjoint(KERNEL_MALLOC, layout, phead, top, j, i);
    }
  }

  /** Blocks keep their class and their bytes. */
  ghost predicate Kept(payload: map<nat, seq<Byte>>, payload': map<nat, seq<Byte>>, phead: Pheads, phead': Pheads) {
    forall a {:trigger a in payload} | a in payload && a in phead ::
      a in payload' && payload'[a] == payload[a] && a in phead' && phead'[a] == phead[a]
  }

  lemma WholePage(c: nat)
    requires c < CLASSES
    ensures Size(c) <= PAGE_SIZE ==> PAGE_SIZE / Size(c) > 0 && PAGE_SIZE / Size(c) * Size(c) == PAGE_SIZE
  {
  }

  /** What extend_heap adds to the heap for class c. */
  function Growth(c: nat): nat
    requires c < CLASSES
  {
    if Size(c) <= PAGE_SIZE then PAGE_SIZE else Size(c)
  }

  /**
   Where the limit of extend_heap, which asks for room for one page only, lets the
   heap through: a block larger than what is left, by at most 32 pages.
   */
  lemma LimitPassed(top: nat, c: nat)
    requires c < CLASSES && top <= LIMIT && top + PAGE_SIZE <= LIMIT
    ensures top + Growth(c) > LIMIT <==> LIMIT < top + Size(c)
    ensures top + Growth(c) <= LIMIT + 32 * PAGE_SIZE
  {
    assert Size(c) <= 33 * PAGE_SIZE;
  }

  /** One block of class c has left its list, which was filled first where it was empty. */
  ghost predicate Taken(heads0: Lists, top0: nat, heads: Lists, top: nat, c: nat) {
    && c < CLASSES && |heads| == |heads0| == CLASSES && heads == heads0[c := heads[c]]
    && top == top0 + (if heads0[c] == [] then Growth(c) else 0)
    && |heads[c]| + 1 == |heads0[c]| + if heads0[c] == [] then Growth(c) / Size(c) else 0
  }

  /** The loop of kmalloc over the classes. */
  method FindClass(size: nat) returns (i: nat)
    ensures i <= CLASSES && (i < CLASSES ==> Fits(i, size)) && forall c: nat :: Fits(c, size) ==> c == i < CLASSES
  {
    hide Size, Payload;
    i := 0;
    while i < CLASSES && Payload(i) < size
      invariant 0 <= i <= CLASSES && forall c | 0 <= c < i :: Payload(c) < size
    {
      i := i + 1;
    }
  }

  /** The pages the classes below c get at start. */
  ghost function PagesBelow(c: nat): nat
    requires c <= CLASSES
  {
    if c == 0 then 0 else PagesBelow(c - 1) + FirstPages(c - 1)
  }

  lemma WholePages(c: nat)
    requires c < CLASSES
    ensures FirstPages(c) * PAGE_SIZE / Size(c) * Size(c) == FirstPages(c) * PAGE_SIZE
    ensures FirstPages(c) * PAGE_SIZE / Size(c) == 0 <==> FirstPages(c) == 0
  {
  }

  lemma AllPages()
    ensures PagesBelow(CLASSES) == 320
  {
    assert PagesBelow(4) == 240 && PagesBelow(8) == 320 && PagesBelow(12) == 320 && PagesBelow(16) == 320;
  }

  class Heap {
    var heapTop: nat
    var heads: Lists
    /** phead in each header: the class whose list a block belongs to. */
    var phead: Pheads
    /** The bytes behind each header. */
    var payload: map<nat, seq<Byte>>
    var alloced: int

    ghost var layout: seq<nat>
    ghost var live: set<nat>

    ghost predicate Valid()
      reads this
    {
      HeapOk(layout, phead, heads, live, heapTop, alloced) && phead.Keys == payload.Keys
    }

    /** kmalloc_init: each class's first pages, cut into blocks. */
    constructor ()
      ensures Valid() && live == {} && alloced == 0 && heapTop == KERNEL_MALLOC + 320 * PAGE_SIZE
      ensures |heads| == CLASSES && forall c | 0 <= c < CLASSES :: heads[c] == [] <==> FirstPages(c) == 0
    {
      hide Size;
      heapTop, heads, phead, payload, alloced := KERNEL_MALLOC, seq(CLASSES, _ => []), map[], map[], 0;
      layout, live := [], {};
      new;
      var c := 0;
      while c < CLASSES
        invariant |heads| == CLASSES && forall d | 0 <= d < CLASSES :: heads[d] == [] <==> d >= c || FirstPages(d) == 0
        invariant 0 <= c <= CLASSES && Valid() && live == {} && alloced == 0 && heapTop == KERNEL_MALLOC + PagesBelow(c) * PAGE_SIZE
      {
        FirstBlocks(c);
        c := c + 1;
      }
      AllPages();
    }

    /** Blocks of class c are cut from the next bytes of the heap. */
    method CutBlocks(c: nat, count: nat)
      requires Valid() && c < CLASSES
      modifies this
      ensures Valid() && live == old(live) && alloced == old(alloced) && heapTop == old(heapTop) + count * Size(c)
      ensures |heads| == |old(heads)| == CLASSES && heads == old(heads)[c := heads[c]] && |heads[c]| == |old(heads)[c]| + count
      ensures Kept(old(payload), payload, old(phead), phead)
    {
      hide HeapOk, Size;
      HeadsLength(layout, phead, heads, live, heapTop, alloced);
      var j := 0;
      while j < count
        invariant 0 <= j <= count && Valid() && live == old(live) && alloced == old(alloced) && heapTop == old(heapTop) + j * Size(c)
        invariant |heads| == |old(heads)| == CLASSES && heads == old(heads)[c := heads[c]] && |heads[c]| == |old(heads)[c]| + j
        invariant Kept(old(payload), payload, old(phead), phead)
      {
        TopIsNew(layout, phead, heads, live, heapTop, alloced);
        Grow(layout, phead, heads, live, heapTop, alloced, c);
        assert (j + 1) * Size(c) == j * Size(c) + Size(c);
        phead := phead[heapTop := c];
        payload := payload[heapTop := []];
        heads := heads[c := [heapTop] + heads[c]];
        layout := layout + [heapTop];
        heapTop := heapTop + Size(c);
        j := j + 1;
      }
    }

    /** The blocks class c gets at start. */
    method FirstBlocks(c: nat)
      requires Valid() && c < CLASSES
      modifies this
      ensures Valid() && live == old(live) && alloced == old(alloced) && heapTop == old(heapTop) + FirstPages(c) * PAGE_SIZE
      ensures |heads| == |old(heads)| == CLASSES && heads == old(heads)[c := heads[c]]
      ensures heads[c] == [] <==> old(heads)[c] == [] && FirstPages(c) == 0
    {
      hide HeapOk, Size;
      WholePages(c);
      CutBlocks(c, FirstPages(c) * PAGE_SIZE / Size(c));
    }

    /** extend_heap: a page of small blocks, or one large block; past the limit it panics. */
    method ExtendHeap(c: nat) returns (ok: bool)
      requires Valid() && c < CLASSES
      modifies this
      ensures ok <==> old(heapTop) + PAGE_SIZE <= LIMIT
      ensures ok ==> Valid() && live == old(live) && alloced == old(alloced)
      ensures ok ==> |heads| == |old(heads)| == CLASSES && heads == old(heads)[c := heads[c]]
      ensures ok ==> |heads[c]| == |old(heads)[c]| + Growth(c) / Size(c) && heads[c] != []
      ensures ok ==> Kept(old(payload), payload, old(phead), phead)
      ensures ok ==> heapTop == old(heapTop) + Growth(c)
      ensures ok && old(heapTop) <= LIMIT ==> (heapTop > LIMIT <==> LIMIT < old(heapTop) + Size(c)) && heapTop <= LIMIT + 32 * PAGE_SIZE
    {
      if heapTop + PAGE_SIZE > LIMIT { return false; }
      WholePage(c);
      LimitPassed(heapTop, c);
      if Size(c) <= PAGE_SIZE {
        CutBlocks(c, PAGE_SIZE / Size(c));
      } else {
        CutBlocks(c, 1);
      }
      return true;
    }

    /** kmalloc: a zeroed block of the smallest class that fits. */
    method Kmalloc(size: nat) returns (ok: bool, p: nat)
      requires Valid()
      modifies this
      ensures ok ==> Valid() && p >= HEADER && var a := p - HEADER;
                a !in old(live) && live == old(live) + {a} && a in phead && a in payload && phead[a] < CLASSES
                && Fits(phead[a], size)
                && payload[a] == Zeros(Payload(phead[a])) && alloced == old(alloced) + Size(phead[a])
      ensures ok ==> forall b | b in old(live) ::
                b in payload && b in old(payload) && payload[b] == old(payload)[b] && b in phead && b in old(phead) && phead[b] == old(phead)[b]
      ensures ok ==> size <= |payload[p - HEADER]| && p + |payload[p - HEADER]| == p - HEADER + Size(phead[p - HEADER])
      ensures ok ==> Taken(old(heads), old(heapTop), heads, heapTop, phead[p - HEADER])
      ensures ok && old(heapTop) <= LIMIT + 32 * PAGE_SIZE ==> heapTop <= LIMIT + 32 * PAGE_SIZE
      ensures ok <==> exists c: nat :: Fits(c, size) && c < |old(heads)|
                                  && (old(heads)[c] != [] || old(heapTop) + PAGE_SIZE <= LIMIT)
    {
      hide HeapOk, Size, Payload, Growth, Fits;
      var i := FindClass(size);
      if i == CLASSES { return false, 0; }
      HeadsLength(layout, phead, heads, live, heapTop, alloced);
      LiveKnown(layout, phead, heads, live, heapTop, alloced);
      if heads[i] == [] {
        ok := ExtendHeap(i);
        if !ok { return false, 0; }
      }
      Pop(layout, phead, heads, live, heapTop, alloced, i);
      var a := heads[i][0];
      heads := heads[i := heads[i][1..]];
      payload := payload[a := Zeros(Payload(i))];
      live := live + {a};
      alloced := alloced + Size(i);
      PayloadInside(i, size);
      return true, a + HEADER;
    }

    /** kfree of a block that kmalloc returned and that has not been freed since. */
    method Kfree(p: nat)
      requires Valid() && p >= HEADER && p - HEADER in live
      modifies this
      ensures Valid() && live == old(live) - {p - HEADER} && phead == old(phead) && payload == old(payload) && heapTop == old(heapTop)
      ensures var a := p - HEADER;
              a in phead && phead[a] < CLASSES && alloced == old(alloced) - Size(phead[a])
              && |old(heads)| == CLASSES && heads == old(heads)[phead[a] := [a] + old(heads)[phead[a]]]
    {
      hide HeapOk, Size;
      var a := p - HEADER;
      Push(layout, phead, heads, live, heapTop, alloced, a);
      HeadsLength(layout, phead, heads, live, heapTop, alloced);
      var c := phead[a];
      heads := heads[c := [a] + heads[c]];
      live := live - {a};
      alloced := alloced - Size(c);
    }
  }

  lemma HeadsLength(layout: seq<nat>, phead: Pheads, heads: Lists, live: set<nat>, top: nat, alloced: int)
    requires HeapOk(layout, phead, heads, live, top, alloced)
    ensures |heads| == CLASSES
  {
  }

  lemma LiveKnown(layout: seq<nat>, phead: Pheads, heads: Lists, live: set<nat>, top: nat, alloced: int)
    requires HeapOk(layout, phead, heads, live, top, alloced)
    ensures live <= phead.Keys
  {
  }

  /** From a fresh heap, 597 requests for the largest block leave it 21 pages past its limit. */
  method PastTheLimit() returns (h: Heap)
    ensures fresh(h) && h.Valid() && h.heapTop == LIMIT + 21 * PAGE_SIZE
  {
    hide HeapOk;
    h := new Heap();
    var k := 0;
    while k < 597
      invariant 0 <= k <= 597 && h.Valid() && |h.heads| == CLASSES && h.heads[16] == []
      invariant h.heapTop == KERNEL_MALLOC + (320 + 33 * k) * PAGE_SIZE
    {
      LargestFits();
      var ok, p := h.Kmalloc(Payload(16));
      k := k + 1;
    }
  }

  lemma LargestFits()
    ensures forall c: nat :: Fits(c, Payload(16)) <==> c == 16
  {
    forall c: nat ensures Fits(c, Payload(16)) <==> c == 16 {
      if c < CLASSES && c != 16 { assert Payload(c) < Payload(16); }
    }
  }
}
