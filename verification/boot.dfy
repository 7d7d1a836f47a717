/** The state of memory when the machine has started: the end of pmmInit (kern/mm/pmm.c). */
module Boot {
  import opened Words
  import opened Sv39
  import opened PageTables
  import opened VmState
  import opened CopyOnWrite

  /** The n frames from base on. */
  function Range(base: Ppn, n: nat): (r: set<Ppn>)
    ensures forall f :: f in r <==> base <= f < base + n
  {
    if n == 0 then {} else Range(base, n - 1) + {base + n - 1}
  }

  /** The same from the last to the first. */
  ghost function Downward(base: Ppn, n: nat): (s: seq<Ppn>)
    ensures |s| == n && NoDup(s) && forall f :: f in s <==> base <= f < base + n
  {
    if n == 0 then []
    else
      var rest := Downward(base, n - 1);
      var s := [base + n - 1] + rest;
      assert forall i | 1 <= i < n :: s[i] in rest;
      assert forall f :: f in s <==> f == base + n - 1 || f in rest;
      s
  }

  /** Counts in which the frames below limit have one reference. */
  function FirstCounts(base: Ppn, npage: nat, limit: Ppn): map<Ppn, nat> {
    map f | f in Range(base, npage) :: OneIf(f < limit)
  }

  lemma CountMore(base: Ppn, npage: nat, i: nat)
    requires i < npage
    ensures FirstCounts(base, npage, base + i)[base + i := 1] == FirstCounts(base, npage, base + (i + 1))
  {
    var a, b := FirstCounts(base, npage, base + i), FirstCounts(base, npage, base + (i + 1));
    forall f | f in Range(base, npage) ensures a[base + i := 1][f] == b[f] {
    }
    assert a[base + i := 1].Keys == b.Keys;
  }

  /** Memory after pmInit: no table yet, the kernel's own frames counted once. */
  ghost function Booted(ad: bool, base: Ppn, used: nat, npage: nat): Mem
    requires used <= npage
  {
    Mem(ad, Range(base, used), FirstCounts(base, npage, base + used), Downward(base + used, npage - used), map[],
        map f: Ppn | f in Range(base, npage) :: ZeroPage(), map[], FirstCounts(base, npage, base + used), {}, {})
  }

  /** The invariant all theorems start from holds when the machine has booted. */
  lemma BootedOk(ad: bool, base: Ppn, used: nat, npage: nat)
    requires base > 0 && used <= npage
    ensures UserOk(Booted(ad, base, used, npage))
  {
    var m := Booted(ad, base, used, npage);
    assert forall f :: Slots(m.tab, {}, f) == {};
  }
}
