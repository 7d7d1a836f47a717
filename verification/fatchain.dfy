/**
 Chains of clusters and the bytes they hold: what allocation, writing and freeing
 do to every file of a volume (kern/fs/cluster.c, kern/fs/fat32/filepnt.c).
 */
module FatChains {
  import opened Panics
  import opened Words
  import opened Buffers
  import opened Clusters

  /** A file: its first cluster (0 while it has none), its size, and the clusters reached from the first. */
  datatype File = File(first: nat, size: nat, chain: seq<nat>)

  type Files = map<nat, File>

  ghost predicate VolShape(sb: Super, v: Vol) {
    && (forall c: nat {:trigger c in v.fat} :: c in v.fat <==> Cluster(sb, c))
    && (forall c: nat {:trigger c in v.data} :: c in v.data <==> Cluster(sb, c))
    && (forall c: nat {:trigger v.data[c]} | Cluster(sb, c) :: c in v.data && |v.data[c]| == ClusSize(sb))
  }

  /** The entry at position i of a chain names the next cluster, and the last is an end mark. */
  ghost predicate Link(v: Vol, chain: seq<nat>, i: nat)
    requires i < |chain|
  {
    chain[i] in v.fat && if i + 1 < |chain| then v.fat[chain[i]] == chain[i + 1] else v.fat[chain[i]] >= 0xfff_fff8
  }

  ghost predicate Linked(v: Vol, f: File) {
    && (if f.chain == [] then f.first == 0 else f.first == f.chain[0])
    && (forall i: nat {:trigger Link(v, f.chain, i)} | i < |f.chain| :: Link(v, f.chain, i))
  }

  /** No cluster stands in two places. */
  ghost predicate Disjoint(files: Files) {
    forall a, b, i: nat, j: nat {:trigger files[a].chain[i], files[b].chain[j]}
      | a in files && b in files && i < |files[a].chain| && j < |files[b].chain| && files[a].chain[i] == files[b].chain[j]
      :: a == b && i == j
  }

  ghost predicate InChain(files: Files, c: nat) {
    exists a :: a in files && c in files[a].chain
  }

  /** Every entry that is not zero belongs to a file, or to other, the clusters of what is not modelled here. */
  ghost predicate NoLeak(v: Vol, files: Files, other: set<nat>) {
    && (forall c {:trigger v.fat[c]} | c in v.fat && v.fat[c] != 0 :: c in other || InChain(files, c))
    && (forall c {:trigger c in other} | c in other :: c in v.fat && v.fat[c] != 0 && !InChain(files, c))
  }

  ghost predicate ChainsOk(sb: Super, v: Vol, files: Files, other: set<nat>) {
    && VolShape(sb, v) && (forall a {:trigger files[a]} | a in files :: Linked(v, files[a]))
    && Disjoint(files) && NoLeak(v, files, other)
  }

  lemma ChainCluster(sb: Super, v: Vol, f: File, i: nat)
    requires VolShape(sb, v) && Linked(v, f) && i < |f.chain|
    ensures Cluster(sb, f.chain[i]) && f.chain[i] in v.fat && v.fat[f.chain[i]] != 0
  {
    assert Link(v, f.chain, i);
    if i + 1 < |f.chain| { assert Link(v, f.chain, i + 1); }
  }

  // ---- the bytes of a chain -------------------------------------------------------------------

  /** All bytes of the clusters of a chain, one after the other. */
  ghost function Raw(v: Vol, chain: seq<nat>): seq<Byte> {
    if chain == [] then []
    else
      var n := |chain| - 1;
      Raw(v, chain[..n]) + if chain[n] in v.data then v.data[chain[n]] else []
  }

  ghost predicate Sized(sb: Super, v: Vol, chain: seq<nat>) {
    forall i {:trigger chain[i]} | 0 <= i < |chain| :: chain[i] in v.data && |v.data[chain[i]]| == ClusSize(sb)
  }

  lemma {:induction false} RawLength(sb: Super, v: Vol, chain: seq<nat>)
    requires Sized(sb, v, chain)
    ensures |Raw(v, chain)| == |chain| * ClusSize(sb)
  {
    hide ClusSize;
    if chain != [] {
      RawLength(sb, v, chain[..|chain| - 1]);
    }
  }

  lemma RawRoom(sb: Super, v: Vol, chain: seq<nat>, i: nat)
    requires Sized(sb, v, chain) && i < |chain|
    ensures i * ClusSize(sb) + ClusSize(sb) <= |Raw(v, chain)|
  {
    hide ClusSize;
    RawLength(sb, v, chain);
    var cs := ClusSize(sb);
    assert (|chain| - 1 - i) * cs >= 0;
    assert (|chain| - 1 - i) * cs == |chain| * cs - cs - i * cs;
  }

  /** Cluster i follows the bytes of the clusters before it. */
  lemma {:induction false} SliceAt(sb: Super, v: Vol, chain: seq<nat>, i: nat)
    requires Sized(sb, v, chain) && i < |chain|
    ensures var at := |Raw(v, chain[..i])|;
            at + ClusSize(sb) <= |Raw(v, chain)| && Raw(v, chain)[at..at + ClusSize(sb)] == v.data[chain[i]]
    decreases |chain|
  {
    hide ClusSize;
    var n := |chain| - 1;
    if i < n {
      SliceAt(sb, v, chain[..n], i);
      assert chain[..n][..i] == chain[..i];
    }
  }

  /** Cluster i of the chain holds the i-th stretch of the bytes. */
  lemma RawSlice(sb: Super, v: Vol, chain: seq<nat>, i: nat)
    requires Sized(sb, v, chain) && i < |chain|
    ensures i * ClusSize(sb) + ClusSize(sb) <= |Raw(v, chain)|
    ensures Raw(v, chain)[i * ClusSize(sb)..i * ClusSize(sb) + ClusSize(sb)] == v.data[chain[i]]
  {
    hide ClusSize, Raw;
    RawLength(sb, v, chain[..i]);
    SliceAt(sb, v, chain, i);
  }

  lemma {:induction false} RawSame(v: Vol, v': Vol, chain: seq<nat>)
    requires forall i {:trigger chain[i]} | 0 <= i < |chain| ::
               (chain[i] in v.data <==> chain[i] in v'.data) && (chain[i] in v.data ==> v'.data[chain[i]] == v.data[chain[i]])
    ensures Raw(v', chain) == Raw(v, chain)
  {
    if chain != [] {
      RawSame(v, v', chain[..|chain| - 1]);
    }
  }

  lemma PatchLeft(a: seq<Byte>, b: seq<Byte>, off: nat, bytes: seq<Byte>)
    requires off + |bytes| <= |a|
    ensures Patch(a + b, off, bytes) == Patch(a, off, bytes) + b
  {
  }

  lemma PatchRight(a: seq<Byte>, b: seq<Byte>, off: nat, bytes: seq<Byte>)
    requires off + |bytes| <= |b|
    ensures Patch(a + b, |a| + off, bytes) == a + Patch(b, off, bytes)
  {
  }

  lemma RawSplit(v: Vol, chain: seq<nat>, n: nat)
    requires |chain| == n + 1 && chain[n] in v.data
    ensures Raw(v, chain) == Raw(v, chain[..n]) + v.data[chain[n]]
  {
  }

  /** Writing into cluster i writes the same bytes at the same place of the whole. */
  lemma {:induction false} RawPatch(sb: Super, v: Vol, chain: seq<nat>, i: nat, at: nat, o: nat, bytes: seq<Byte>, v': Vol)
    requires Sized(sb, v, chain) && i < |chain| && o + |bytes| <= ClusSize(sb) && at == i * ClusSize(sb)
    requires forall x, y | 0 <= x < y < |chain| :: chain[x] != chain[y]
    requires v'.data == v.data[chain[i] := Patch(v.data[chain[i]], o, bytes)]
    ensures at + o + |bytes| <= |Raw(v, chain)|
    ensures Raw(v', chain) == Patch(Raw(v, chain), at + o, bytes)
    decreases |chain|
  {
    hide ClusSize, Patch, Raw;
    RawRoom(sb, v, chain, i);
    var n := |chain| - 1;
    var front := chain[..n];
    RawSplit(v, chain, n);
    RawSplit(v', chain, n);
    if i < n {
      RawPatch(sb, v, front, i, at, o, bytes, v');
      PatchLeft(Raw(v, front), v.data[chain[n]], at + o, bytes);
    } else {
      RawLength(sb, v, front);
      RawSame(v, v', front);
      PatchRight(Raw(v, front), v.data[chain[n]], o, bytes);
    }
  }

  lemma RawAppend(v: Vol, chain: seq<nat>, c: nat)
    requires c in v.data
    ensures Raw(v, chain + [c]) == Raw(v, chain) + v.data[c]
  {
    assert (chain + [c])[..|chain|] == chain;
  }

  // ---- allocation -------------------------------------------------------------------------------

  lemma {:induction false} FirstFreeIs(sb: Super, v: Vol, from: nat, c: nat)
    requires FirstFree(sb, v, from) == Ok(c)
    ensures from <= c < sb.dataClus + 2 && c in v.fat && v.fat[c] == 0
    ensures forall x {:trigger v.fat[x]} | from <= x < c && x in v.fat :: v.fat[x] != 0
    decreases sb.dataClus + 2 - from
  {
    if !(from in v.fat && v.fat[from] == 0) {
      FirstFreeIs(sb, v, from + 1, c);
    }
  }

  /** How many clusters are free from c on. */
  ghost function FreeFrom(sb: Super, v: Vol, c: nat): nat
    decreases sb.dataClus + 2 - c
  {
    if c >= sb.dataClus + 2 then 0 else (if c in v.fat && v.fat[c] == 0 then 1 else 0) + FreeFrom(sb, v, c + 1)
  }

  lemma {:induction false} FreeSame(sb: Super, v: Vol, v': Vol, c: nat)
    requires forall x {:trigger x in v'.fat} | x >= c :: (x in v.fat <==> x in v'.fat) && (x in v.fat ==> v.fat[x] == v'.fat[x])
    ensures FreeFrom(sb, v, c) == FreeFrom(sb, v', c)
    decreases sb.dataClus + 2 - c
  {
    if c < sb.dataClus + 2 {
      assert c in v'.fat <==> c in v.fat;
      FreeSame(sb, v, v', c + 1);
    }
  }

  lemma {:induction false} FirstFreeCounts(sb: Super, v: Vol, c: nat)
    ensures match FirstFree(sb, v, c)
            case Panic => FreeFrom(sb, v, c) == 0
            case Ok(x) => FreeFrom(sb, v, c) == 1 + FreeFrom(sb, v, x + 1)
    decreases sb.dataClus + 2 - c
  {
    if c >= sb.dataClus + 2 {
      assert FirstFree(sb, v, c) == Panic;
    } else if c in v.fat && v.fat[c] == 0 {
      assert FirstFree(sb, v, c) == Ok(c);
    } else {
      assert FirstFree(sb, v, c) == FirstFree(sb, v, c + 1);
      FirstFreeCounts(sb, v, c + 1);
    }
  }

  /** Where clusterAlloc starts to look. */
  function SearchStart(prev: nat): nat {
    if prev == 0 then 2 else prev + 1
  }

  /** clusterAlloc fails exactly when nothing is free behind prev, and otherwise takes one of what is. */
  lemma AllocCounts(sb: Super, v: Vol, prev: nat)
    ensures match AllocFrom(sb, v, prev)
            case Panic => FreeFrom(sb, v, SearchStart(prev)) == 0
            case Ok(r) => FreeFrom(sb, v, SearchStart(prev)) == 1 + FreeFrom(sb, r.0, SearchStart(r.1))
  {
    hide ClusSize, FreeFrom, FirstFree;
    FirstFreeCounts(sb, v, SearchStart(prev));
    if AllocFrom(sb, v, prev).Ok? {
      var (v', c) := AllocFrom(sb, v, prev).value;
      FirstFreeIs(sb, v, SearchStart(prev), c);
      FreeSame(sb, v, v', c + 1);
    }
  }

  /** A free cluster is in no chain. */
  lemma FreeOutside(sb: Super, v: Vol, files: Files, other: set<nat>, c: nat, a: nat)
    requires ChainsOk(sb, v, files, other) && c in v.fat && v.fat[c] == 0 && a in files
    ensures c !in files[a].chain && c !in other
  {
    forall i: nat | i < |files[a].chain| ensures files[a].chain[i] != c {
      ChainCluster(sb, v, files[a], i);
    }
  }

  ghost function LastOf(f: File): nat {
    if f.chain == [] then 0 else f.chain[|f.chain| - 1]
  }

  ghost function Longer(f: File, c: nat): File {
    f.(first := if f.chain == [] then c else f.first, chain := f.chain + [c])
  }

  lemma OtherLinked(v: Vol, v': Vol, files: Files, b: nat, x: nat, y: nat)
    requires b in files && Linked(v, files[b]) && x !in files[b].chain && y !in files[b].chain
    requires forall c {:trigger c in v'.fat} :: (c in v'.fat <==> c in v.fat) && (c in v.fat && c != x && c != y ==> v'.fat[c] == v.fat[c])
    ensures Linked(v', files[b])
  {
    forall i: nat | i < |files[b].chain| ensures Link(v', files[b].chain, i) {
      assert Link(v, files[b].chain, i);
      assert files[b].chain[i] in files[b].chain;
    }
  }

  lemma LongerLinked(v: Vol, v': Vol, f: File, c: nat)
    requires Linked(v, f) && c !in f.chain && c in v.fat
    requires forall i, j | 0 <= i < j < |f.chain| :: f.chain[i] != f.chain[j]
    requires v'.fat == (if f.chain == [] then v.fat else v.fat[LastOf(f) := c])[c := FAT32_EOF]
    ensures Linked(v', Longer(f, c))
  {
    var f' := Longer(f, c);
    forall i: nat | i < |f'.chain| ensures Link(v', f'.chain, i) {
      if i < |f.chain| {
        assert Link(v, f.chain, i);
        assert f.chain[i] in f.chain;
      }
    }
  }

  lemma LongerDisjoint(files: Files, a: nat, c: nat)
    requires Disjoint(files) && a in files && forall b | b in files :: c !in files[b].chain
    ensures Disjoint(files[a := Longer(files[a], c)])
  {
    var files' := files[a := Longer(files[a], c)];
    forall x, y, i: nat, j: nat | x in files' && y in files' && i < |files'[x].chain| && j < |files'[y].chain|
                                  && files'[x].chain[i] == files'[y].chain[j]
      ensures x == y && i == j
    {
      assert i < |files[x].chain| ==> files[x].chain[i] in files[x].chain;
      assert j < |files[y].chain| ==> files[y].chain[j] in files[y].chain;
    }
  }

  lemma LongerNoLeak(v: Vol, v': Vol, files: Files, other: set<nat>, a: nat, c: nat)
    requires NoLeak(v, files, other) && a in files && c !in other && (forall b | b in files :: c !in files[b].chain)
    requires forall x {:trigger x in v'.fat} :: (x in v'.fat <==> x in v.fat)
    requires forall x {:trigger v'.fat[x]} | x in v.fat && x != c :: (v'.fat[x] != 0 <==> v.fat[x] != 0)
    ensures NoLeak(v', files[a := Longer(files[a], c)], other)
  {
    var files' := files[a := Longer(files[a], c)];
    forall x | x in v'.fat && v'.fat[x] != 0 ensures x in other || InChain(files', x) {
      if x == c {
        assert c in files'[a].chain;
      } else if x !in other {
        var b :| b in files && x in files[b].chain;
        assert x in files'[b].chain;
      }
    }
    forall x | x in other ensures x in v'.fat && v'.fat[x] != 0 && !InChain(files', x) {
      forall b | b in files' ensures x !in files'[b].chain {
        assert !InChain(files, x);
        assert x !in files[b].chain;
      }
    }
  }

  lemma OtherFile(files: Files, a: nat, i: nat, b: nat)
    requires Disjoint(files) && a in files && b in files && a != b && i < |files[a].chain|
    ensures files[a].chain[i] !in files[b].chain
  {
  }

  lemma ChainDistinct(files: Files, a: nat)
    requires Disjoint(files) && a in files
    ensures forall i, j | 0 <= i < j < |files[a].chain| :: files[a].chain[i] != files[a].chain[j]
  {
  }

  /** clusterAlloc at the end of file a: the file is one zeroed cluster longer, and no other chain changes. */
  lemma AllocStep(sb: Super, v: Vol, files: Files, other: set<nat>, a: nat, v': Vol, c: nat)
    requires SuperOk(sb) && ChainsOk(sb, v, files, other) && a in files
    requires AllocFrom(sb, v, LastOf(files[a])) == Ok((v', c))
    ensures Cluster(sb, c) && ChainsOk(sb, v', files[a := Longer(files[a], c)], other)
    ensures Raw(v', files[a].chain + [c]) == Raw(v, files[a].chain) + Zeros(ClusSize(sb))
    ensures forall b {:trigger files[b]} | b in files && b != a :: Raw(v', files[b].chain) == Raw(v, files[b].chain)
  {
    var f := files[a];
    if f.chain != [] { ChainCluster(sb, v, f, |f.chain| - 1); }
    FirstFreeIs(sb, v, if LastOf(f) == 0 then 2 else LastOf(f) + 1, c);
    forall b | b in files ensures c !in files[b].chain && c !in other {
      FreeOutside(sb, v, files, other, c, b);
    }
    AllocChains(sb, v, files, other, a, v', c);
    forall b | b in files ensures Raw(v', files[b].chain) == Raw(v, files[b].chain) {
      RawSame(v, v', files[b].chain);
    }
    RawAppend(v', f.chain, c);
  }

  lemma AllocChains(sb: Super, v: Vol, files: Files, other: set<nat>, a: nat, v': Vol, c: nat)
    requires SuperOk(sb) && ChainsOk(sb, v, files, other) && a in files && Cluster(sb, c)
    requires (forall b | b in files :: c !in files[b].chain) && c !in other
    requires var f := files[a];
             && v'.fat == (if f.chain == [] then v.fat else v.fat[LastOf(f) := c])[c := FAT32_EOF]
             && v'.data == v.data[c := Zeros(ClusSize(sb))]
    requires files[a].chain != [] ==> LastOf(files[a]) in v.fat && v.fat[LastOf(files[a])] != 0
    ensures ChainsOk(sb, v', files[a := Longer(files[a], c)], other)
  {
    hide Disjoint, NoLeak;
    var f, files' := files[a], files[a := Longer(files[a], c)];
    ChainDistinct(files, a);
    LongerLinked(v, v', f, c);
    LongerDisjoint(files, a, c);
    LongerNoLeak(v, v', files, other, a, c);
    forall b | b in files' ensures Linked(v', files'[b]) {
      if b != a {
        if f.chain != [] { OtherFile(files, a, |f.chain| - 1, b); }
        OtherLinked(v, v', files, b, c, if f.chain == [] then c else LastOf(f));
      }
    }
  }

  // ---- writing ------------------------------------------------------------------------------------

  lemma FileSized(sb: Super, v: Vol, f: File)
    requires VolShape(sb, v) && Linked(v, f)
    ensures Sized(sb, v, f.chain)
  {
    forall i | 0 <= i < |f.chain| ensures f.chain[i] in v.data && |v.data[f.chain[i]]| == ClusSize(sb) {
      ChainCluster(sb, v, f, i);
      assert f.chain[i] in v.data;
    }
  }

  /** Bytes written into cluster i of file a appear in file a at that place and in no other file. */
  lemma WriteStep(sb: Super, v: Vol, files: Files, other: set<nat>, a: nat, i: nat, o: nat, bytes: seq<Byte>, v': Vol)
    requires ChainsOk(sb, v, files, other) && a in files && i < |files[a].chain| && o + |bytes| <= ClusSize(sb)
    requires var c := files[a].chain[i];
             c in v.data && |v.data[c]| == ClusSize(sb) && v' == v.(data := v.data[c := Patch(v.data[c], o, bytes)])
    ensures ChainsOk(sb, v', files, other)
    ensures i * ClusSize(sb) + o + |bytes| <= |Raw(v, files[a].chain)|
    ensures Raw(v', files[a].chain) == Patch(Raw(v, files[a].chain), i * ClusSize(sb) + o, bytes)
    ensures forall b {:trigger files[b]} | b in files && b != a :: Raw(v', files[b].chain) == Raw(v, files[b].chain)
  {
    hide ClusSize, Disjoint, NoLeak, Raw, Linked, Patch, VolShape;
    var f := files[a];
    assert Linked(v, f);
    FileSized(sb, v, f);
    ChainDistinct(files, a);
    RawPatch(sb, v, f.chain, i, i * ClusSize(sb), o, bytes, v');
    forall b | b in files && b != a ensures Raw(v', files[b].chain) == Raw(v, files[b].chain) {
      OtherFile(files, a, i, b);
      RawSame(v, v', files[b].chain);
    }
    assert |Patch(v.data[f.chain[i]], o, bytes)| == ClusSize(sb);
    DataChainsOk(sb, v, files, other, f.chain[i], Patch(v.data[f.chain[i]], o, bytes), v');
  }

  /** New bytes in a cluster leave every chain as it was. */
  lemma DataChainsOk(sb: Super, v: Vol, files: Files, other: set<nat>, c: nat, bytes: seq<Byte>, v': Vol)
    requires ChainsOk(sb, v, files, other) && c in v.data && |bytes| == ClusSize(sb) && v' == v.(data := v.data[c := bytes])
    ensures ChainsOk(sb, v', files, other)
  {
    hide ClusSize, Disjoint;
    forall b | b in files ensures Linked(v', files[b]) {
      assert Linked(v, files[b]);
      OtherLinkedSame(v, v', files[b]);
    }
  }

  lemma OtherLinkedSame(v: Vol, v': Vol, f: File)
    requires Linked(v, f) && v'.fat == v.fat
    ensures Linked(v', f)
  {
    forall i: nat | i < |f.chain| ensures Link(v', f.chain, i) {
      assert Link(v, f.chain, i);
    }
  }

  // ---- freeing --------------------------------------------------------------------------------------

  /** File f without its first cluster. */
  ghost function Shorter(f: File): File
    requires f.chain != []
  {
    f.(first := if |f.chain| > 1 then f.chain[1] else 0, chain := f.chain[1..])
  }

  lemma ShorterLinked(v: Vol, v': Vol, f: File)
    requires Linked(v, f) && f.chain != [] && (forall i, j | 0 <= i < j < |f.chain| :: f.chain[i] != f.chain[j])
    requires v'.fat == v.fat[f.chain[0] := 0]
    ensures Linked(v', Shorter(f))
  {
    var f' := Shorter(f);
    forall i: nat | i < |f'.chain| ensures Link(v', f'.chain, i) {
      assert Link(v, f.chain, i + 1);
    }
  }

  lemma ShorterDisjoint(files: Files, a: nat)
    requires Disjoint(files) && a in files && files[a].chain != []
    ensures Disjoint(files[a := Shorter(files[a])])
  {
    var files' := files[a := Shorter(files[a])];
    forall x, y, i: nat, j: nat | x in files' && y in files' && i < |files'[x].chain| && j < |files'[y].chain|
                                  && files'[x].chain[i] == files'[y].chain[j]
      ensures x == y && i == j
    {
      var i0, j0 := if x == a then i + 1 else i, if y == a then j + 1 else j;
      assert files[x].chain[i0] == files[y].chain[j0];
    }
  }

  lemma ShorterNoLeak(v: Vol, v': Vol, files: Files, other: set<nat>, a: nat)
    requires NoLeak(v, files, other) && a in files && files[a].chain != [] && files[a].chain[0] !in other
    requires v'.fat == v.fat[files[a].chain[0] := 0]
    requires files[a].chain[0] in v.fat
    ensures NoLeak(v', files[a := Shorter(files[a])], other)
  {
    var head, files' := files[a].chain[0], files[a := Shorter(files[a])];
    forall x | x in v'.fat && v'.fat[x] != 0 ensures x in other || InChain(files', x) {
      assert v.fat[x] != 0;
      if x !in other {
        var b :| b in files && x in files[b].chain;
        assert files[a].chain == [head] + files[a].chain[1..];
        assert x in files'[b].chain;
      }
    }
    forall x | x in other ensures x in v'.fat && v'.fat[x] != 0 && !InChain(files', x) {
      forall b | b in files' ensures x !in files'[b].chain {
        assert !InChain(files, x);
        assert x !in files[b].chain;
      }
    }
  }

  /** One round of clus_sequence_free: the first cluster of file a becomes free. */
  lemma FreeStep(sb: Super, v: Vol, files: Files, other: set<nat>, a: nat, v': Vol)
    requires ChainsOk(sb, v, files, other) && a in files && files[a].chain != []
    requires v' == v.(fat := v.fat[files[a].chain[0] := 0])
    ensures ChainsOk(sb, v', files[a := Shorter(files[a])], other)
    ensures forall b {:trigger files[b]} | b in files && b != a :: Raw(v', files[b].chain) == Raw(v, files[b].chain)
  {
    hide Disjoint, NoLeak;
    var f, files' := files[a], files[a := Shorter(files[a])];
    assert Linked(v, f);
    ChainCluster(sb, v, f, 0);
    HeadNotOther(v, files, other, a);
    ChainDistinct(files, a);
    ShorterLinked(v, v', f);
    ShorterDisjoint(files, a);
    ShorterNoLeak(v, v', files, other, a);
    forall b | b in files' ensures Linked(v', files'[b]) {
      if b != a {
        OtherFile(files, a, 0, b);
        OtherLinked(v, v', files, b, f.chain[0], f.chain[0]);
      }
    }
    forall b | b in files && b != a ensures Raw(v', files[b].chain) == Raw(v, files[b].chain) {
      RawSame(v, v', files[b].chain);
    }
  }

  lemma HeadNotOther(v: Vol, files: Files, other: set<nat>, a: nat)
    requires NoLeak(v, files, other) && a in files && files[a].chain != []
    ensures files[a].chain[0] !in other
  {
    assert files[a].chain[0] in files[a].chain;
  }

  // ---- a free cluster that a file cannot have ------------------------------------------------------------

  /** A volume of two clusters: the first is free, the second is the only one of a file. */
  ghost function SmallVolume(): (Super, Vol, Files) {
    var sb := Super(0, 1, 1, 1, 1, 2);
    (sb,
     Vol(imap c: nat | Cluster(sb, c) :: if c == 2 then 0 else FAT32_EOF, imap c: nat | Cluster(sb, c) :: Zeros(ClusSize(sb))),
     map[0 := File(3, 1, [3])])
  }

  /** On this volume one cluster is free, and yet clusterAlloc finds none for the file: it looks behind its last one only. */
  lemma FreeButNotFound()
    ensures var (sb, v, files) := SmallVolume();
            SuperOk(sb) && ChainsOk(sb, v, files, {}) && FreeFrom(sb, v, 2) == 1 && AllocFrom(sb, v, files[0].chain[0]) == Panic
  {
    var (sb, v, files) := SmallVolume();
    assert Linked(v, files[0]) by {
      assert Link(v, [3], 0);
    }
    assert InChain(files, 3) by {
      assert 3 in files[0].chain;
    }
  }
}
