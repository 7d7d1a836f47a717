/**
 Files over chains of clusters (kern/fs/fat32/file.c): reading, writing past the
 end, extending and truncating, against the reading of a file as plain bytes.
 */
module FatFiles {
  import opened Panics
  import opened Words
  import opened Buffers
  import opened Clusters
  import opened FatChains
  import opened FileIndex
  import opened FilePositions

  /** What the kernel keeps of a file: first cluster, size, and the cluster index with its valid flag. */
  datatype Dirent = Dirent(first: nat, size: nat, index: Index, valid: bool)

  type Dirents = map<nat, Dirent>
  type Chains = map<nat, seq<nat>>

  ghost function FilesOf(ds: Dirents, chains: Chains): Files {
    map a | a in ds && a in chains :: File(ds[a].first, ds[a].size, chains[a])
  }

  /** Behind the end of the file the last cluster holds zeros. */
  ghost predicate TailZero(v: Vol, size: nat, chain: seq<nat>) {
    size <= |Raw(v, chain)| && forall k {:trigger Raw(v, chain)[k]} | size <= k < |Raw(v, chain)| :: Raw(v, chain)[k] == 0
  }

  ghost predicate FileOk(sb: Super, v: Vol, d: Dirent, chain: seq<nat>) {
    && ClusSize(sb) > 0 && |chain| == ClusCount(sb, d.size) && TailZero(v, d.size, chain)
    && d.size < WORD && Shape(d.index) && IndexOk(sb, d.index) && (d.valid ==> Agrees(d.index, chain))
  }

  /** Every number in the index, also behind the last of the chain, is 0 or that of a cluster. */
  ghost predicate IndexOk(sb: Super, ix: Index) {
    forall i: nat {:trigger Entry(ix, i)} | i < MAX_INDEX :: Entry(ix, i) == 0 || Cluster(sb, Entry(ix, i))
  }

  lemma IndexSet(sb: Super, ix: Index, i: nat, c: nat)
    requires Shape(ix) && IndexOk(sb, ix) && i < MAX_INDEX && Cluster(sb, c)
    ensures IndexOk(sb, WithEntry(ix, i, c))
  {
    hide Entry;
    forall j: nat | j < MAX_INDEX ensures Entry(WithEntry(ix, i, c), j) == 0 || Cluster(sb, Entry(WithEntry(ix, i, c), j)) {
      SetEntry(ix, i, c, j);
    }
  }

  ghost predicate FsOk(sb: Super, v: Vol, ds: Dirents, chains: Chains, other: set<nat>) {
    && ds.Keys == chains.Keys && ChainsOk(sb, v, FilesOf(ds, chains), other)
    && (forall a {:trigger ds[a]} | a in ds :: FileOk(sb, v, ds[a], chains[a]))
  }

  /** A file as plain bytes. */
  ghost function Content(v: Vol, d: Dirent, chain: seq<nat>): seq<Byte> {
    if d.size <= |Raw(v, chain)| then Raw(v, chain)[..d.size] else []
  }

  /** Every file other than a is as it was: its entry, its chain and its bytes. */
  ghost predicate OthersKept(v0: Vol, ds0: Dirents, chains0: Chains, v: Vol, ds: Dirents, chains: Chains, a: nat) {
    && ds.Keys == ds0.Keys == chains.Keys == chains0.Keys
    && forall b {:trigger ds[b]} | b in ds && b != a ::
         ds[b] == ds0[b] && chains[b] == chains0[b] && Content(v, ds[b], chains[b]) == Content(v0, ds0[b], chains0[b])
  }

  /** What reading n bytes at off returns of a plain sequence of bytes. */
  function ReadOf(content: seq<Byte>, off: nat, n: nat): seq<Byte> {
    if off >= |content| then [] else if off + n > |content| then content[off..] else content[off..off + n]
  }

  /** A plain sequence of bytes with some written at off; a gap before off is filled with zeros. */
  function WriteOf(content: seq<Byte>, off: nat, bytes: seq<Byte>): seq<Byte> {
    if off + |bytes| <= |content| then Patch(content, off, bytes)
    else Patch(content + Zeros(off + |bytes| - |content|), off, bytes)
  }

  /** file_read returns the right bytes: offset plus length does not wrap, and the last byte is not in the last cluster below 2^32. */
  predicate ReadWorks(sb: Super, size: nat, off: nat, n: nat) {
    off >= size || n == 0 || (off + n < WORD && !InLast(sb, (if off + n > size then size else off + n) - 1))
  }

  /** file_write writes n bytes at off. */
  ghost predicate WriteWorks(sb: Super, v: Vol, size: nat, chain: seq<nat>, off: nat, n: nat)
    requires ClusSize(sb) > 0
  {
    n > 0 && off + n + ClusSize(sb) <= WORD && (off + n <= size || Extends(sb, v, chain, off + n))
  }

  // ---- what the operations need of the invariant ------------------------------------------------

  /** The facts about one file that its operations rest on. */
  lemma FileFacts(sb: Super, v: Vol, ds: Dirents, chains: Chains, other: set<nat>, a: nat)
    requires FsOk(sb, v, ds, chains, other) && a in ds
    ensures a in chains && FileOk(sb, v, ds[a], chains[a]) && ClusSize(sb) > 0 && Sized(sb, v, chains[a])
    ensures |Raw(v, chains[a])| == Pos(sb, |chains[a]|) && ds[a].size <= |Raw(v, chains[a])| && ds[a].size < WORD
    ensures if chains[a] == [] then ds[a].first == 0 else ds[a].first == chains[a][0] && ds[a].first != 0
  {
    hide ClusSize;
    var f := FilesOf(ds, chains)[a];
    if f.chain != [] { ChainCluster(sb, v, f, 0); }
    assert FileOk(sb, v, ds[a], chains[a]);
    assert Linked(v, f);
    FileSized(sb, v, f);
    RawLength(sb, v, chains[a]);
  }

  /** Position i of a chain: a cluster number, and what the table has there. */
  lemma ChainFacts(sb: Super, v: Vol, ds: Dirents, chains: Chains, other: set<nat>, a: nat, i: nat)
    requires SuperOk(sb) && FsOk(sb, v, ds, chains, other) && a in ds && a in chains && i < |chains[a]|
    ensures var c := chains[a][i];
            && Cluster(sb, c) && NotEnd(c) && c in v.fat && c in v.data && |v.data[c]| == ClusSize(sb)
            && (if i + 1 < |chains[a]| then v.fat[c] == chains[a][i + 1] else !NotEnd(v.fat[c]))
  {
    var f := FilesOf(ds, chains)[a];
    assert Linked(v, f);
    ChainCluster(sb, v, f, i);
    assert Link(v, f.chain, i);
    assert chains[a][i] in v.data;
  }

  /** An opened file: its index gives the clusters of its chain. */
  lemma IndexGives(sb: Super, v: Vol, ds: Dirents, chains: Chains, other: set<nat>, a: nat, i: nat)
    requires SuperOk(sb) && FsOk(sb, v, ds, chains, other) && a in ds && a in chains && i < |chains[a]|
    requires Agrees(ds[a].index, chains[a])
    ensures GetClus(ds[a].index, i) == Ok(chains[a][i])
  {
    ChainFacts(sb, v, ds, chains, other, a, i);
    assert Entry(ds[a].index, i) == chains[a][i];
  }

  /** A change of index that agrees with the chain keeps the invariant. */
  lemma Reindexed(sb: Super, v: Vol, ds: Dirents, chains: Chains, other: set<nat>, a: nat, index: Index)
    requires FsOk(sb, v, ds, chains, other) && a in ds && a in chains && Agrees(index, chains[a]) && IndexOk(sb, index)
    ensures FsOk(sb, v, ds[a := ds[a].(index := index, valid := true)], chains, other)
  {
    var ds' := ds[a := ds[a].(index := index, valid := true)];
    assert FilesOf(ds', chains) == FilesOf(ds, chains);
    forall b | b in ds' ensures FileOk(sb, v, ds'[b], chains[b]) {
      assert FileOk(sb, v, ds[b], chains[b]);
    }
  }

  lemma ReadPart(sb: Super, v: Vol, chain: seq<nat>, i: nat, o: nat, len: nat, at: nat)
    requires Sized(sb, v, chain) && i < |chain| && o + len <= ClusSize(sb) && at == Pos(sb, i) + o
    ensures at + len <= |Raw(v, chain)|
    ensures v.data[chain[i]][o..o + len] == Raw(v, chain)[at..at + len]
  {
    hide ClusSize, Raw;
    RawSlice(sb, v, chain, i);
    SliceSlice(Raw(v, chain), Pos(sb, i), ClusSize(sb), o, len);
  }

  lemma SliceSlice(s: seq<Byte>, at: nat, n: nat, o: nat, len: nat)
    requires at + n <= |s| && o + len <= n
    ensures s[at..at + n][o..o + len] == s[at + o..at + o + len]
  {
    var mid := s[at..at + n];
    var x, y := mid[o..o + len], s[at + o..at + o + len];
    forall k | 0 <= k < len ensures x[k] == y[k] {
      assert x[k] == mid[o + k];
    }
    assert x == y;
  }

  // ---- extending a file ------------------------------------------------------------------------

  /** File a is being lengthened: zeroed clusters are added to it, its index follows, and no other file changes. */
  ghost predicate Growing(sb: Super, v0: Vol, chains0: Chains, v: Vol, ds: Dirents, chains: Chains, other: set<nat>, a: nat) {
    && ds.Keys == chains.Keys == chains0.Keys && a in ds && ClusSize(sb) > 0
    && ChainsOk(sb, v, FilesOf(ds, chains), other)
    && Agrees(ds[a].index, chains[a]) && IndexOk(sb, ds[a].index) && |chains0[a]| <= |chains[a]| && Pos(sb, |chains0[a]|) <= Pos(sb, |chains[a]|)
    && Raw(v, chains[a]) == Raw(v0, chains0[a]) + Zeros(Pos(sb, |chains[a]|) - Pos(sb, |chains0[a]|))
    && (forall b {:trigger ds[b]} | b in ds && b != a ::
          FileOk(sb, v, ds[b], chains[b]) && chains[b] == chains0[b] && Raw(v, chains[b]) == Raw(v0, chains0[b]))
  }

  lemma GrowStart(sb: Super, v: Vol, ds: Dirents, chains: Chains, other: set<nat>, a: nat, size: nat)
    requires FsOk(sb, v, ds, chains, other) && a in ds && a in chains && Agrees(ds[a].index, chains[a])
    ensures Growing(sb, v, chains, v, ds[a := ds[a].(size := size)], chains, other, a)
  {
    hide ClusSize, Raw, Linked;
    var ds' := ds[a := ds[a].(size := size)];
    assert FileOk(sb, v, ds[a], chains[a]);
    Resized(sb, v, FilesOf(ds, chains), other, a, size);
    assert FilesOf(ds', chains) == FilesOf(ds, chains)[a := FilesOf(ds, chains)[a].(size := size)];
    assert Raw(v, chains[a]) + Zeros(0) == Raw(v, chains[a]);
    forall b | b in ds' && b != a ensures FileOk(sb, v, ds'[b], chains[b]) {
      assert FileOk(sb, v, ds[b], chains[b]);
    }
  }

  /** The recorded size plays no part in the chains. */
  lemma Resized(sb: Super, v: Vol, files: Files, other: set<nat>, a: nat, size: nat)
    requires ChainsOk(sb, v, files, other) && a in files
    ensures ChainsOk(sb, v, files[a := files[a].(size := size)], other)
  {
    var files' := files[a := files[a].(size := size)];
    assert forall b | b in files :: files'[b].chain == files[b].chain;
    forall b | b in files' ensures Linked(v, files'[b]) {
      assert Linked(v, files[b]);
      forall i: nat | i < |files[b].chain| ensures Link(v, files'[b].chain, i) {
        assert Link(v, files[b].chain, i);
      }
    }
    assert forall c :: InChain(files', c) <==> InChain(files, c);
  }

  /** The state after clusterAlloc and filepnt_setval. */
  ghost function GrownDirent(d: Dirent, chain: seq<nat>, c: nat): Dirent
    requires Shape(d.index) && |chain| < MAX_INDEX
  {
    d.(first := if chain == [] then c else d.first, index := WithEntry(d.index, |chain|, c))
  }

  lemma GrowStep(sb: Super, v0: Vol, chains0: Chains, v: Vol, ds: Dirents, chains: Chains, other: set<nat>, a: nat, v': Vol, c: nat)
    requires SuperOk(sb) && Growing(sb, v0, chains0, v, ds, chains, other, a) && |chains[a]| < MAX_INDEX
    requires AllocFrom(sb, v, if chains[a] == [] then 0 else chains[a][|chains[a]| - 1]) == Ok((v', c))
    ensures Cluster(sb, c) && Shape(ds[a].index)
    ensures Growing(sb, v0, chains0, v', ds[a := GrownDirent(ds[a], chains[a], c)], chains[a := chains[a] + [c]], other, a)
  {
    hide ClusSize, Raw, ChainsOk, AllocFrom, Agrees, WithEntry, FileOk, Pos, SuperOk, FilesOf, Shape, IndexOk;
    var d := ds[a];
    AgreesShape(d.index, chains[a]);
    AgreesLonger(d.index, chains[a], c);
    var ds', chains' := ds[a := GrownDirent(d, chains[a], c)], chains[a := chains[a] + [c]];
    FilesGrow(ds, chains, a, GrownDirent(d, chains[a], c), c);
    AllocStep(sb, v, FilesOf(ds, chains), other, a, v', c);
    IndexSet(sb, d.index, |chains[a]|, c);
    PosNext(sb, |chains[a]|);
    ZerosJoin(Raw(v0, chains0[a]), Pos(sb, |chains[a]|) - Pos(sb, |chains0[a]|), ClusSize(sb));
    forall b | b in ds' && b != a
      ensures FileOk(sb, v', ds'[b], chains'[b]) && chains'[b] == chains0[b] && Raw(v', chains'[b]) == Raw(v0, chains0[b])
    {
      assert ds[b] == ds'[b];
      SameFile(sb, v, v', ds[b], chains[b]);
    }
  }

  /** A longer chain in the table of files. */
  lemma FilesGrow(ds: Dirents, chains: Chains, a: nat, d: Dirent, c: nat)
    requires ds.Keys == chains.Keys && a in ds && d.size == ds[a].size && d.first == if chains[a] == [] then c else ds[a].first
    ensures var fs := FilesOf(ds, chains);
            && fs.Keys == ds.Keys && FilesOf(ds[a := d], chains[a := chains[a] + [c]]) == fs[a := Longer(fs[a], c)]
            && LastOf(fs[a]) == (if chains[a] == [] then 0 else chains[a][|chains[a]| - 1])
            && forall b {:trigger fs[b]} | b in ds :: fs[b].chain == chains[b]
  {
  }

  lemma ZerosJoin(s: seq<Byte>, m: nat, n: nat)
    ensures (s + Zeros(m)) + Zeros(n) == s + Zeros(m + n)
  {
  }

  lemma SameFile(sb: Super, v: Vol, v': Vol, d: Dirent, chain: seq<nat>)
    requires FileOk(sb, v, d, chain) && Raw(v', chain) == Raw(v, chain)
    ensures FileOk(sb, v', d, chain)
  {
  }

  /** A finished extension: file a has grown by zeros to its new size. */
  lemma GrowDone(sb: Super, v0: Vol, chains0: Chains, old': Dirent, v: Vol, ds: Dirents, chains: Chains, other: set<nat>, a: nat)
    requires Growing(sb, v0, chains0, v, ds, chains, other, a) && FileOk(sb, v0, old', chains0[a])
    requires old'.size <= ds[a].size && |chains[a]| == ClusCount(sb, ds[a].size) && ds[a].size <= Pos(sb, |chains[a]|)
    requires |Raw(v0, chains0[a])| == Pos(sb, |chains0[a]|) && ds[a].size < WORD
    ensures FsOk(sb, v, ds, chains, other)
    ensures Content(v, ds[a], chains[a]) == Content(v0, old', chains0[a]) + Zeros(ds[a].size - old'.size)
  {
    hide ClusSize, Raw, ClusCount, Pos, ChainsOk;
    var raw0, raw := Raw(v0, chains0[a]), Raw(v, chains[a]);
    assert |raw| == Pos(sb, |chains[a]|);
    forall k | old'.size <= k < |raw| ensures raw[k] == 0 {
      if k < |raw0| { assert raw0[k] == 0; }
    }
    assert raw[..ds[a].size] == raw0[..old'.size] + Zeros(ds[a].size - old'.size);
    assert FileOk(sb, v, ds[a], chains[a]);
  }

  // ---- writing into a file ----------------------------------------------------------------------

  /** The first bytes of a write at off of file a are done; no other file has changed. */
  ghost predicate Writing(sb: Super, v0: Vol, v: Vol, ds: Dirents, chains: Chains, other: set<nat>, a: nat, off: nat, done: seq<Byte>) {
    && ds.Keys == chains.Keys && a in ds && ChainsOk(sb, v, FilesOf(ds, chains), other)
    && off + |done| <= |Raw(v0, chains[a])| && Raw(v, chains[a]) == Patch(Raw(v0, chains[a]), off, done)
    && (forall b {:trigger ds[b]} | b in ds && b != a :: Raw(v, chains[b]) == Raw(v0, chains[b]))
  }

  lemma WriteStart(sb: Super, v: Vol, ds: Dirents, chains: Chains, other: set<nat>, a: nat, off: nat)
    requires FsOk(sb, v, ds, chains, other) && a in ds && off <= ds[a].size
    ensures Writing(sb, v, v, ds, chains, other, a, off, [])
  {
    assert FileOk(sb, v, ds[a], chains[a]);
    assert Patch(Raw(v, chains[a]), off, []) == Raw(v, chains[a]);
  }

  lemma WriteMore(sb: Super, v0: Vol, v: Vol, ds: Dirents, chains: Chains, other: set<nat>, a: nat, off: nat, done: seq<Byte>,
                  i: nat, o: nat, bytes: seq<Byte>, v': Vol)
    requires Writing(sb, v0, v, ds, chains, other, a, off, done) && i < |chains[a]| && o + |bytes| <= ClusSize(sb)
    requires off + |done| == Pos(sb, i) + o
    requires var c := chains[a][i];
             c in v.data && |v.data[c]| == ClusSize(sb) && v' == v.(data := v.data[c := Patch(v.data[c], o, bytes)])
    ensures Writing(sb, v0, v', ds, chains, other, a, off, done + bytes)
  {
    hide ClusSize, Raw, ChainsOk;
    var files := FilesOf(ds, chains);
    WriteStep(sb, v, files, other, a, i, o, bytes, v');
    PatchTwice(Raw(v0, chains[a]), off, done, bytes);
    forall b | b in ds && b != a ensures Raw(v', chains[b]) == Raw(v0, chains[b]) {
      assert Raw(v, chains[b]) == Raw(v0, chains[b]) && files[b].chain == chains[b];
    }
  }

  lemma WriteDone(sb: Super, v0: Vol, v: Vol, ds: Dirents, chains: Chains, other: set<nat>, a: nat, off: nat, bytes: seq<Byte>)
    requires FsOk(sb, v0, ds, chains, other) && Writing(sb, v0, v, ds, chains, other, a, off, bytes) && off + |bytes| <= ds[a].size
    ensures FsOk(sb, v, ds, chains, other)
    ensures |Content(v0, ds[a], chains[a])| == ds[a].size
    ensures Content(v, ds[a], chains[a]) == Patch(Content(v0, ds[a], chains[a]), off, bytes)
    ensures forall b {:trigger ds[b]} | b in ds && b != a :: Content(v, ds[b], chains[b]) == Content(v0, ds[b], chains[b])
  {
    hide ClusSize, Raw, ClusCount, ChainsOk;
    assert FileOk(sb, v0, ds[a], chains[a]);
    forall b | b in ds ensures FileOk(sb, v, ds[b], chains[b]) {
      assert FileOk(sb, v0, ds[b], chains[b]);
    }
    assert Raw(v, chains[a])[..ds[a].size] == Patch(Raw(v0, chains[a])[..ds[a].size], off, bytes);
  }

  // ---- truncating a file ------------------------------------------------------------------------

  /** The first k clusters of chain have been freed, and nothing else has changed. */
  ghost predicate Freeing(sb: Super, v0: Vol, fs0: Files, v: Vol, other: set<nat>, a: nat, k: nat) {
    && a in fs0 && k <= |fs0[a].chain| && v.data == v0.data
    && ChainsOk(sb, v, fs0[a := Dropped(fs0[a], k)], other)
    && (forall c {:trigger c in v.fat} :: c in v.fat <==> c in v0.fat)
    && (forall c {:trigger v.fat[c]} | c in v0.fat && c in v.fat :: v.fat[c] == if c in fs0[a].chain[..k] then 0 else v0.fat[c])
  }

  ghost function Dropped(f: File, k: nat): File
    requires k <= |f.chain|
  {
    f.(first := if k < |f.chain| then f.chain[k] else 0, chain := f.chain[k..])
  }

  lemma FreeStart(sb: Super, v: Vol, fs: Files, other: set<nat>, a: nat)
    requires ChainsOk(sb, v, fs, other) && a in fs
    ensures Freeing(sb, v, fs, v, other, a, 0)
  {
    hide Disjoint, NoLeak;
    assert Linked(v, fs[a]);
    assert fs[a].chain[0..] == fs[a].chain;
    assert fs[a := Dropped(fs[a], 0)] == fs;
  }

  lemma FreeMore(sb: Super, v0: Vol, fs0: Files, v: Vol, other: set<nat>, a: nat, k: nat, v': Vol)
    requires Freeing(sb, v0, fs0, v, other, a, k) && k < |fs0[a].chain| && fs0[a].chain[k] in v.fat
    requires v' == v.(fat := v.fat[fs0[a].chain[k] := 0])
    ensures Freeing(sb, v0, fs0, v', other, a, k + 1)
  {
    hide ChainsOk;
    var fs := fs0[a := Dropped(fs0[a], k)];
    FreeStep(sb, v, fs, other, a, v');
    assert fs0[a].chain[k..][1..] == fs0[a].chain[k + 1..];
    assert fs[a := Shorter(fs[a])] == fs0[a := Dropped(fs0[a], k + 1)];
    assert fs0[a].chain[..k + 1] == fs0[a].chain[..k] + [fs0[a].chain[k]];
  }

  /** Where the loop of clus_sequence_free stands: a cluster, and what the table has there. */
  lemma FreeFacts(sb: Super, v0: Vol, fs0: Files, v: Vol, other: set<nat>, a: nat, k: nat)
    requires SuperOk(sb) && Freeing(sb, v0, fs0, v, other, a, k) && k < |fs0[a].chain|
    ensures var c := fs0[a].chain[k];
            && Cluster(sb, c) && NotEnd(c) && c in v.fat
            && (if k + 1 < |fs0[a].chain| then v.fat[c] == fs0[a].chain[k + 1] && NotEnd(v.fat[c]) else !NotEnd(v.fat[c]))
  {
    var f := Dropped(fs0[a], k);
    assert fs0[a := f][a] == f && Linked(v, f);
    ChainCluster(sb, v, f, 0);
    assert Link(v, f.chain, 0);
    if k + 1 < |fs0[a].chain| { ChainCluster(sb, v, f, 1); }
  }

  /** A truncated file has no cluster and no bytes, and every other file is as it was. */
  lemma TruncateDone(sb: Super, v0: Vol, ds: Dirents, chains: Chains, other0: set<nat>, v: Vol, other: set<nat>, a: nat, index: Index)
    requires FsOk(sb, v0, ds, chains, other0) && a in ds && a in chains && Shape(index) && IndexOk(sb, index) && v.data == v0.data
    requires ChainsOk(sb, v, FilesOf(ds, chains)[a := Dropped(FilesOf(ds, chains)[a], |chains[a]|)], other)
    ensures var ds', chains' := ds[a := ds[a].(first := 0, size := 0, index := index)], chains[a := []];
            && FsOk(sb, v, ds', chains', other) && Agrees(index, []) && Content(v, ds'[a], []) == []
            && forall b {:trigger ds[b]} | b in ds && b != a :: Content(v, ds[b], chains[b]) == Content(v0, ds[b], chains[b])
  {
    hide ChainsOk, ClusSize, Raw, FileOk, Shape, Agrees;
    var ds', chains' := ds[a := ds[a].(first := 0, size := 0, index := index)], chains[a := []];
    var fs := FilesOf(ds, chains);
    var f := Dropped(fs[a], |chains[a]|);
    Resized(sb, v, fs[a := f], other, a, 0);
    assert f.chain == [];
    assert FilesOf(ds', chains') == fs[a := f][a := f.(size := 0)];
    forall b | b in ds && b != a ensures Raw(v, chains[b]) == Raw(v0, chains[b]) {
      RawSame(v0, v, chains[b]);
    }
    EmptyFile(sb, v0, ds[a], chains[a], v, ds'[a]);
    forall b | b in ds' ensures FileOk(sb, v, ds'[b], chains'[b]) {
      if b != a {
        assert FileOk(sb, v0, ds[b], chains[b]);
        SameFile(sb, v0, v, ds[b], chains[b]);
      }
    }
  }

  lemma EmptyFile(sb: Super, v0: Vol, d0: Dirent, chain: seq<nat>, v: Vol, d: Dirent)
    requires FileOk(sb, v0, d0, chain) && d.size == 0 && Shape(d.index) && IndexOk(sb, d.index)
    ensures FileOk(sb, v, d, []) && Agrees(d.index, []) && Content(v, d, []) == []
  {
    Ceiling(0, ClusSize(sb));
  }

  /** file_shrink's loop over the index. */
  method ClearIndex(index: Index, count: nat) returns (r: Index)
    requires Shape(index) && count <= MAX_INDEX
    ensures Shape(r) && forall i: nat | i < MAX_INDEX :: Entry(r, i) == if i < count then 0 else Entry(index, i)
  {
    r := index;
    var k := 0;
    while k < count
      invariant 0 <= k <= count && Shape(r)
      invariant forall i: nat | i < MAX_INDEX :: Entry(r, i) == if i < k then 0 else Entry(index, i)
    {
      forall i: nat | i < MAX_INDEX ensures Shape(WithEntry(r, k, 0)) && Entry(WithEntry(r, k, 0), i) == if i < k + 1 then 0 else Entry(index, i) {
        SetEntry(r, k, 0, i);
      }
      SetEntry(r, k, 0, k);
      r := SetVal(r, k, 0).value;
      k := k + 1;
    }
  }

  ghost function LastCluster(chain: seq<nat>): nat {
    if chain == [] then 0 else chain[|chain| - 1]
  }

  /** file_extend to the given size ends, stays inside the index and finds clusters. */
  ghost predicate Extends(sb: Super, v: Vol, chain: seq<nat>, size: nat)
    requires ClusSize(sb) > 0
  {
    size + ClusSize(sb) <= WORD && ClusCount(sb, size) <= MAX_INDEX && Room(sb, v, chain, size)
  }

  /** Behind the last cluster of the chain enough clusters are free for a file of the given size. */
  ghost predicate Room(sb: Super, v: Vol, chain: seq<nat>, size: nat)
    requires ClusSize(sb) > 0
  {
    ClusCount(sb, size) <= |chain| + FreeFrom(sb, v, SearchStart(LastCluster(chain)))
  }

  class FileTable {
    const vol: FatVolume
    var files: Dirents
    ghost var chains: Chains
    ghost var other: set<nat>

    ghost predicate Valid()
      reads this, vol, vol.cache
    {
      vol.Valid() && SuperOk(vol.sb) && FsOk(vol.sb, vol.V(), files, chains, other)
    }

    constructor (vol: FatVolume, files: Dirents, ghost chains: Chains, ghost other: set<nat>)
      requires vol.Valid() && FsOk(vol.sb, vol.V(), files, chains, other)
      ensures Valid() && this.vol == vol && this.files == files && this.chains == chains
    {
      this.vol, this.files, this.chains, this.other := vol, files, chains, other;
    }

    /** File a exists and has been opened: its index can be used. */
    ghost predicate Opened(a: nat)
      reads this
    {
      a in files && a in chains && Agrees(files[a].index, chains[a])
    }

    /** File a as plain bytes. */
    ghost function Bytes(a: nat): seq<Byte>
      requires a in files && a in chains
      reads this, vol, vol.cache
    {
      Content(vol.V(), files[a], chains[a])
    }

    /** A new file: no cluster, no bytes, an empty index. */
    method Create(a: nat)
      requires Valid() && a !in files
      modifies this`files, this`chains
      ensures Valid() && Opened(a) && Bytes(a) == [] && vol.V() == old(vol.V())
      ensures files == old(files)[a := Dirent(0, 0, Blank(), false)] && chains == old(chains)[a := []]
    {
      hide FatVolume.Valid, FsOk, DiskView, VolOf;
      CreateOk(vol.sb, vol.V(), files, chains, other, a);
      files := files[a := Dirent(0, 0, Blank(), false)];
      chains := chains[a := []];
    }

    /** filepnt_init: following the table from the first cluster fills the index, if it is long enough. */
    method Open(a: nat) returns (ok: bool)
      requires Valid() && a in files && a in chains
      modifies this`files, vol.cache
      ensures ok <==> |chains[a]| <= MAX_INDEX
      ensures ok ==> Valid() && Opened(a) && vol.V() == old(vol.V()) && Bytes(a) == old(Bytes(a))
      ensures ok ==> OthersKept(old(vol.V()), old(files), old(chains), vol.V(), files, chains, a)
      ensures ok ==> files == old(files)[a := old(files)[a].(index := files[a].index, valid := files[a].valid)]
    {
      hide FatVolume.Valid, FsOk, FileOk, Agrees, DiskView, VolOf, IndexOk, Shape, WithEntry, SuperOk;
      FileFacts(vol.sb, vol.V(), files, chains, other, a);
      FilesKnown(vol.sb, vol.V(), files, chains, other);
      ghost var v, chain := vol.V(), chains[a];
      if files[a].valid {
        KeepsIndex(vol.sb, v, files, chains, other, a);
        AgreesShort(files[a].index, chain);
        return true;
      }
      var clus := files[a].first;
      if clus == 0 {
        KeepsIndex(vol.sb, v, files, chains, other, a);
        return true;
      }
      var index, i := files[a].index, 0;
      NothingYet(vol.sb, v, files, chains, other, a);
      while NotEnd(clus)
        invariant vol.Valid() && vol.V() == v && files == old(files) && FsOk(vol.sb, v, files, chains, other)
        invariant i <= |chain| && i <= MAX_INDEX && Agrees(index, chain[..i]) && Shape(index) && IndexOk(vol.sb, index)
        invariant if i < |chain| then clus == chain[i] else !NotEnd(clus)
        decreases |chain| - i
      {
        ChainFacts(vol.sb, v, files, chains, other, a, i);
        var next := SetVal(index, i, clus);
        if next.Panic? { return false; }
        AgreesLonger(index, chain[..i], clus);
        AgreesShape(WithEntry(index, i, clus), chain[..i] + [clus]);
        IndexSet(vol.sb, index, i, clus);
        index := next.value;
        assert chain[..i] + [clus] == chain[..i + 1];
        var read;
        read, clus := vol.FatRead(clus);
        i := i + 1;
      }
      if i < |chain| { ChainFacts(vol.sb, v, files, chains, other, a, i); }
      assert chain[..i] == chain;
      Reindexed(vol.sb, v, files, chains, other, a, index);
      files := files[a := files[a].(index := index, valid := true)];
      return true;
    }

    /** Cluster i of a file by its index: the number found there, if any, is that of a cluster. */
    method ClusterAt(a: nat, i: nat) returns (ok: bool, clus: nat)
      requires a in files && Shape(files[a].index) && IndexOk(vol.sb, files[a].index)
      ensures ok ==> Cluster(vol.sb, clus) && i < MAX_INDEX
      ensures a in chains && i < |chains[a]| && Agrees(files[a].index, chains[a]) && chains[a][i] != 0 ==> ok && clus == chains[a][i]
    {
      hide Shape, GetClus;
      var r := GetClus(files[a].index, i);
      match r
      case Panic =>
        assert a in chains && i < |chains[a]| && Agrees(files[a].index, chains[a]) ==> Entry(files[a].index, i) == chains[a][i];
        return false, 0;
      case Ok(c) =>
        assert Entry(files[a].index, i) == c;
        return true, c;
    }

    /** The part of a read that lies in cluster i, if the index has one there; inside the chain it is the file's. */
    method ReadAt(a: nat, i: nat, o: nat, len: nat, ghost at: nat) returns (ok: bool, part: seq<Byte>)
      requires Valid() && Opened(a) && o + len <= ClusSize(vol.sb)
      modifies vol.cache
      ensures Valid() && vol.V() == old(vol.V()) && (ok ==> i < MAX_INDEX)
      ensures i < |chains[a]| && at == Pos(vol.sb, i) + o ==>
                ok && at + len <= |Raw(vol.V(), chains[a])| && part == Raw(vol.V(), chains[a])[at..at + len]
    {
      hide FatVolume.Valid, FsOk, FileOk, Agrees, DiskView, VolOf, Raw, ClusSize, Pos, IndexOk, Shape, SuperOk;
      OpenFacts(vol.sb, vol.V(), files, chains, other, a);
      FileFacts(vol.sb, vol.V(), files, chains, other, a);
      if i < |chains[a]| { ChainFacts(vol.sb, vol.V(), files, chains, other, a, i); }
      var clus;
      part := [];
      ok, clus := ClusterAt(a, i);
      if !ok { return; }
      ok, part := vol.ClusterRead(clus, o, len);
      if i < |chains[a]| && at == Pos(vol.sb, i) + o { ReadPart(vol.sb, vol.V(), chains[a], i, o, len, at); }
    }

    /**
     The loop of file_read: n bytes at off, cluster by cluster.  With its end in the
     last cluster below 2^32 it goes on until the index has no more clusters; with an
     end that wraps it stops after the first.
     */
    method ReadBytes(a: nat, off: nat, n: nat) returns (ok: bool, bytes: seq<Byte>)
      requires Valid() && Opened(a) && off < files[a].size && 0 < n < WORD
      modifies vol.cache
      ensures Valid() && vol.V() == old(vol.V())
      ensures off + n <= files[a].size && !InLast(vol.sb, off + n - 1) ==>
                ok && off + n <= |Raw(vol.V(), chains[a])| && bytes == Raw(vol.V(), chains[a])[off..off + n]
      ensures InLast(vol.sb, U32(off + n - 1)) ==> !ok
      ensures off + n > WORD && !InLast(vol.sb, off) ==> ok && ClusSize(vol.sb) > 0 && |bytes| == ClusSize(vol.sb) - OffsetOf(vol.sb, off)
    {
      hide FatVolume.Valid, FsOk, FileOk, Agrees, DiskView, VolOf, Raw, ClusSize, Pos, IndexOf, OffsetOf, U32, IndexOk, Shape, SuperOk, InLast, Before;
      FileFacts(vol.sb, vol.V(), files, chains, other, a);
      ghost var raw, good := Raw(vol.V(), chains[a]), off + n <= files[a].size && !InLast(vol.sb, off + n - 1);
      var end := U32(off + n - 1);
      var cs := ClusSize(vol.sb);
      var clusIndex, offset := IndexOf(vol.sb, off), OffsetOf(vol.sb, off);
      FirstRound(vol.sb, off, n);
      var len := Least(n, cs - offset);
      InsideChain(vol.sb, clusIndex, |chains[a]|);
      ok, bytes := ReadAt(a, clusIndex, offset, len, off);
      clusIndex := clusIndex + 1;
      ReadStarts(vol.sb, off, n, files[a].size, clusIndex);
      while end >= U32(Pos(vol.sb, clusIndex))
        invariant Valid() && Opened(a) && vol.V() == old(vol.V()) && 0 <= len <= n && 0 < clusIndex
        invariant good ==> U32(Pos(vol.sb, clusIndex)) == Pos(vol.sb, clusIndex) && off <= Pos(vol.sb, clusIndex)
        invariant good ==> len == Before(off, n, Pos(vol.sb, clusIndex)) && bytes == raw[off..off + len]
        invariant off + n > WORD && !InLast(vol.sb, off) ==> end < U32(Pos(vol.sb, clusIndex)) && |bytes| == cs - offset
        decreases MAX_INDEX - clusIndex
      {
        if good { NextRound(vol.sb, off, n, clusIndex, |chains[a]|); }
        var more, part := Least(cs, n - len), [];
        ok, part := ReadAt(a, clusIndex, 0, more, off + len);
        if !ok { return; }
        if good { JoinSlices(raw, off, len, more); }
        bytes := bytes + part;
        len := len + more;
        clusIndex := clusIndex + 1;
      }
      if InLast(vol.sb, end) { Endless(vol.sb, clusIndex, end); }
      LastRound(off, n, Pos(vol.sb, clusIndex));
      ok := true;
    }

    /**
     file_read, for any offset and length of 32 bits.  It returns what the plain file
     has there, with the right count, exactly where ReadWorks; elsewhere it panics or
     returns the count it was asked for.
     */
    method FileRead(a: nat, off: nat, n: nat) returns (ok: bool, count: nat, bytes: seq<Byte>)
      requires Valid() && Opened(a) && off < WORD && n < WORD
      modifies vol.cache
      ensures Valid() && vol.V() == old(vol.V())
      ensures ReadWorks(vol.sb, files[a].size, off, n) ==> ok && bytes == ReadOf(Bytes(a), off, n) && count == |bytes|
      ensures ok && count == |ReadOf(Bytes(a), off, n)| <==> ReadWorks(vol.sb, files[a].size, off, n)
      ensures off + n < WORD ==> (ok <==> ReadWorks(vol.sb, files[a].size, off, n))
      ensures off < files[a].size && off + n == WORD ==> !ok
      ensures off < files[a].size && off + n > WORD && !InLast(vol.sb, off) ==>
                ok && count == n && ClusSize(vol.sb) > 0 && |bytes| == ClusSize(vol.sb) - OffsetOf(vol.sb, off)
    {
      hide FatVolume.Valid, FsOk, FileOk, Agrees, DiskView, VolOf, Raw, ClusSize, OffsetOf, U32, SuperOk;
      FileFacts(vol.sb, vol.V(), files, chains, other, a);
      ContentLength(vol.sb, vol.V(), files, chains, other, a);
      var size := files[a].size;
      if off >= size { return true, 0, []; }
      Clipped(size, off, n);
      var n := if U32(off + n) > size then size - off else n;
      if n == 0 { return true, 0, []; }
      count := n;
      ok, bytes := ReadBytes(a, off, n);
    }

    /** clusterAlloc behind the last cluster of file a, and filepnt_setval. */
    method AddCluster(ghost v0: Vol, ghost chains0: Chains, a: nat, prev: nat, k: nat) returns (ok: bool, c: nat)
      requires vol.Valid() && SuperOk(vol.sb) && Growing(vol.sb, v0, chains0, vol.V(), files, chains, other, a)
      requires k == |chains[a]| && prev == (if k == 0 then 0 else chains[a][k - 1])
      modifies this`files, this`chains, vol.cache
      ensures ok ==> vol.Valid() && Growing(vol.sb, v0, chains0, vol.V(), files, chains, other, a) && k < MAX_INDEX
      ensures ok ==> a in files && a in chains && chains[a] == old(chains[a]) + [c]
      ensures ok ==> files == old(files)[a := files[a]] && files[a].size == old(files)[a].size
      ensures ok ==> FreeFrom(vol.sb, old(vol.V()), SearchStart(prev)) == 1 + FreeFrom(vol.sb, vol.V(), SearchStart(c))
      ensures !ok ==> k >= MAX_INDEX || FreeFrom(vol.sb, old(vol.V()), SearchStart(prev)) == 0
    {
      hide FatVolume.Valid, Growing, DiskView, VolOf, SuperOk, AllocFrom, FreeFrom, Shape, WithEntry;
      AllocCounts(vol.sb, vol.V(), prev);
      GrowFacts(vol.sb, v0, chains0, vol.V(), files, chains, other, a);
      ghost var v := vol.V();
      ok, c := vol.ClusterAlloc(prev);
      if !ok { return; }
      var d := files[a];
      var index := SetVal(d.index, k, c);
      if index.Panic? { return false, 0; }
      GrowStep(vol.sb, v0, chains0, v, files, chains, other, a, vol.V(), c);
      ghost var chain := chains[a];
      files := files[a := d.(first := if k == 0 then c else d.first, index := index.value)];
      chains := chains[a := chain + [c]];
    }

    /** The loop of file_extend, from the last cluster on; for a size it cannot reach it goes on until something runs out. */
    method AddClusters(ghost v0: Vol, ghost chains0: Chains, a: nat, newSize: nat, last: nat, lastClus: nat) returns (ok: bool)
      requires vol.Valid() && SuperOk(vol.sb) && Growing(vol.sb, v0, chains0, vol.V(), files, chains, other, a)
      requires a in files && a in chains && files[a].size == newSize < WORD && ClusSize(vol.sb) > 0
      requires last + 1 == |chains[a]| && lastClus == chains[a][last] && Pos(vol.sb, last) < newSize && last < MAX_INDEX
      modifies this`files, this`chains, vol.cache
      ensures ok ==> vol.Valid() && Growing(vol.sb, v0, chains0, vol.V(), files, chains, other, a)
      ensures ok ==> a in files && files == old(files)[a := files[a]] && files[a].size == newSize
      ensures ok ==> a in chains && |chains[a]| == ClusCount(vol.sb, newSize) && newSize <= Pos(vol.sb, |chains[a]|)
      ensures ok <==> newSize + ClusSize(vol.sb) <= WORD && ClusCount(vol.sb, newSize) <= MAX_INDEX
                      && ClusCount(vol.sb, newSize) <= last + 1 + FreeFrom(vol.sb, old(vol.V()), SearchStart(lastClus))
    {
      hide FatVolume.Valid, Growing, DiskView, VolOf, ClusCount, Pos, ClusSize, FreeFrom, U32, SuperOk;
      ghost var room, ends := FreeFrom(vol.sb, vol.V(), SearchStart(lastClus)), newSize + ClusSize(vol.sb) <= WORD;
      var clusIndex: nat, clus: nat := last, lastClus;
      GuardFits(vol.sb, newSize, clusIndex);
      while newSize > U32(Pos(vol.sb, clusIndex + 1))
        invariant ends ==> U32(Pos(vol.sb, clusIndex + 1)) == Pos(vol.sb, clusIndex + 1) && Pos(vol.sb, clusIndex) < newSize
        invariant vol.Valid() && Growing(vol.sb, v0, chains0, vol.V(), files, chains, other, a)
        invariant a in files && a in chains && files[a].size == newSize && files == old(files)[a := files[a]]
        invariant clusIndex + 1 == |chains[a]| <= MAX_INDEX && clus == chains[a][clusIndex]
        invariant last + 1 + room == |chains[a]| + FreeFrom(vol.sb, vol.V(), SearchStart(clus))
        decreases MAX_INDEX - clusIndex
      {
        ok, clus := AddCluster(v0, chains0, a, clus, clusIndex + 1);
        if !ok {
          if ends { CountMore(vol.sb, clusIndex + 1, newSize); }
          return;
        }
        clusIndex := clusIndex + 1;
        GuardFits(vol.sb, newSize, clusIndex);
      }
      if ends {
        CountIs(vol.sb, newSize, clusIndex + 1);
      } else {
        Endless(vol.sb, clusIndex + 1, newSize - 1);
      }
      ok := true;
    }

    /** file_extend once the new size is recorded. */
    method Lengthen(ghost v0: Vol, ghost chains0: Chains, a: nat, size: nat, newSize: nat) returns (ok: bool)
      requires vol.Valid() && SuperOk(vol.sb) && Growing(vol.sb, v0, chains0, vol.V(), files, chains, other, a)
      requires a in files && a in chains && files[a].size == newSize && size < newSize < WORD && ClusSize(vol.sb) > 0
      requires |chains[a]| == ClusCount(vol.sb, size) && (chains[a] == [] <==> size == 0) && (chains[a] == [] <==> files[a].first == 0)
      modifies this`files, this`chains, vol.cache
      ensures ok ==> vol.Valid() && Growing(vol.sb, v0, chains0, vol.V(), files, chains, other, a)
      ensures ok ==> a in files && files == old(files)[a := files[a]] && files[a].size == newSize
      ensures ok ==> a in chains && |chains[a]| == ClusCount(vol.sb, newSize) && newSize <= Pos(vol.sb, |chains[a]|)
      ensures ok <==> Extends(vol.sb, old(vol.V()), old(chains)[a], newSize)
    {
      hide FatVolume.Valid, Growing, DiskView, VolOf, Agrees, ClusCount, Pos, Raw, ClusSize, FreeFrom, U32, Shape, SuperOk, IndexOk;
      var oldSize, clus := size, files[a].first;
      if clus == 0 {
        ok, clus := AddCluster(v0, chains0, a, 0, 0);
        if !ok {
          CountSome(vol.sb, newSize);
          return;
        }
        oldSize := 1;
      }
      CountFacts(vol.sb, oldSize, newSize);
      CountWraps(vol.sb, oldSize);
      var oldClusters := U32(oldSize + ClusSize(vol.sb) - 1) / ClusSize(vol.sb);
      GrowIndex(vol.sb, v0, chains0, vol.V(), files, chains, other, a);
      if oldClusters == 0 { return false; }
      GrowGives(vol.sb, v0, chains0, vol.V(), files, chains, other, a, oldClusters - 1);
      clus := GetClus(files[a].index, oldClusters - 1).value;
      ok := AddClusters(v0, chains0, a, newSize, oldClusters - 1, clus);
    }

    /** file_extend, for any size of 32 bits that is larger than the old one. */
    method FileExtend(a: nat, newSize: nat) returns (ok: bool)
      requires Valid() && Opened(a) && files[a].size < newSize < WORD && ClusSize(vol.sb) > 0
      modifies this`files, this`chains, vol.cache
      ensures ok ==> Valid() && Opened(a) && files[a].size == newSize
      ensures ok ==> OthersKept(old(vol.V()), old(files), old(chains), vol.V(), files, chains, a)
      ensures ok ==> Bytes(a) == old(Bytes(a)) + Zeros(newSize - old(files)[a].size)
      ensures ok <==> Extends(vol.sb, old(vol.V()), old(chains)[a], newSize)
    {
      hide FatVolume.Valid, FsOk, FileOk, Growing, DiskView, VolOf, Agrees, ClusCount, Pos, Raw, ClusSize, Content, Shape, Extends, SuperOk;
      ghost var v0, chains0, d0 := vol.V(), chains, files[a];
      FileFacts(vol.sb, v0, files, chains, other, a);
      GrowStart(vol.sb, v0, files, chains, other, a, newSize);
      SizeFacts(vol.sb, v0, files, chains, other, a, newSize);
      var oldSize := files[a].size;
      files := files[a := files[a].(size := newSize)];
      ok := Lengthen(v0, chains0, a, oldSize, newSize);
      if !ok { return; }
      GrowDone(vol.sb, v0, chains0, d0, vol.V(), files, chains, other, a);
      GrowOthers(vol.sb, v0, chains0, vol.V(), files, chains, other, a);
      GrowFacts(vol.sb, v0, chains0, vol.V(), files, chains, other, a);
    }

    /** The part of a write that lies in cluster i of the file; where the write is good, it is one step of it. */
    method WriteAt(ghost v0: Vol, a: nat, i: nat, o: nat, bytes: seq<Byte>, ghost off: nat, ghost done: seq<Byte>, ghost good: bool) returns (ok: bool)
      requires vol.Valid() && SuperOk(vol.sb) && Opened(a) && Shape(files[a].index) && IndexOk(vol.sb, files[a].index)
      requires o + |bytes| <= ClusSize(vol.sb)
      requires good ==> Writing(vol.sb, v0, vol.V(), files, chains, other, a, off, done)
      requires good ==> i < |chains[a]| && off + |done| == Pos(vol.sb, i) + o
      modifies vol.cache
      ensures vol.Valid() && (ok ==> i < MAX_INDEX)
      ensures good ==> ok && Writing(vol.sb, v0, vol.V(), files, chains, other, a, off, done + bytes)
    {
      hide FatVolume.Valid, Writing, Agrees, DiskView, VolOf, ClusSize, Pos, Shape, IndexOk, SuperOk;
      ghost var v := vol.V();
      if good { WriteFacts(vol.sb, v0, v, files, chains, other, a, off, done, i); }
      var clus;
      ok, clus := ClusterAt(a, i);
      if !ok { return; }
      ok := vol.ClusterWrite(clus, o, bytes);
      if good { WriteMore(vol.sb, v0, v, files, chains, other, a, off, done, i, o, bytes, vol.V()); }
    }

    /** The loop of file_write, once the file is long enough. */
    method WriteBytes(a: nat, off: nat, bytes: seq<Byte>) returns (ok: bool)
      requires Valid() && Opened(a) && 0 < |bytes| < WORD && off < WORD
      modifies vol.cache
      ensures vol.Valid() && |old(Bytes(a))| == files[a].size
      ensures off + |bytes| <= files[a].size && !InLast(vol.sb, off + |bytes| - 1) ==>
                && ok && Valid() && Bytes(a) == Patch(old(Bytes(a)), off, bytes)
                && forall b | b in files && b != a :: b in chains && Bytes(b) == old(Bytes(b))
      ensures InLast(vol.sb, U32(off + |bytes| - 1)) ==> !ok
    {
      hide FatVolume.Valid, FsOk, FileOk, Writing, Agrees, DiskView, VolOf, Raw, ClusSize, Pos, IndexOf, OffsetOf, Content, U32, IndexOk, Shape, SuperOk, InLast, Before;
      ghost var v0, good := vol.V(), off + |bytes| <= files[a].size && !InLast(vol.sb, off + |bytes| - 1);
      FileFacts(vol.sb, v0, files, chains, other, a);
      OpenFacts(vol.sb, v0, files, chains, other, a);
      ContentLength(vol.sb, v0, files, chains, other, a);
      if good { WriteStart(vol.sb, v0, files, chains, other, a, off); }
      var n, cs, end := |bytes|, ClusSize(vol.sb), U32(off + |bytes| - 1);
      var clusIndex, offset := IndexOf(vol.sb, off), OffsetOf(vol.sb, off);
      FirstRound(vol.sb, off, n);
      var len := Least(n, cs - offset);
      if good { InsideChain(vol.sb, clusIndex, |chains[a]|); }
      ok := WriteAt(v0, a, clusIndex, offset, bytes[..len], off, [], good);
      if !ok { return; }
      assert [] + bytes[..len] == bytes[..len];
      clusIndex := clusIndex + 1;
      if good { ReadStarts(vol.sb, off, n, files[a].size, clusIndex); }
      while end >= U32(Pos(vol.sb, clusIndex))
        invariant 0 <= len <= n && 0 < clusIndex && vol.Valid()
        invariant good ==> Writing(vol.sb, v0, vol.V(), files, chains, other, a, off, bytes[..len])
        invariant good ==> U32(Pos(vol.sb, clusIndex)) == Pos(vol.sb, clusIndex) && off <= Pos(vol.sb, clusIndex)
        invariant good ==> len == Before(off, n, Pos(vol.sb, clusIndex))
        decreases MAX_INDEX - clusIndex
      {
        if good { NextRound(vol.sb, off, n, clusIndex, |chains[a]|); }
        var more := Least(cs, n - len);
        ok := WriteAt(v0, a, clusIndex, 0, bytes[len..len + more], off, bytes[..len], good);
        if !ok { return; }
        assert bytes[..len] + bytes[len..len + more] == bytes[..len + more];
        len := len + more;
        clusIndex := clusIndex + 1;
      }
      if InLast(vol.sb, end) { Endless(vol.sb, clusIndex, end); }
      LastRound(off, n, Pos(vol.sb, clusIndex));
      if good {
        assert bytes[..len] == bytes;
        WriteDone(vol.sb, v0, vol.V(), files, chains, other, a, off, bytes);
      }
      ok := true;
    }

    /**
     file_write, for any offset and length of 32 bits.  In the reading of files as
     plain bytes: the bytes at off are replaced, a gap behind the old end reads as
     zeros, and no other file changes.  Where offset plus length wraps, the file is
     left shorter than the end of the write, or the call does not return.
     */
    method FileWrite(a: nat, off: nat, bytes: seq<Byte>) returns (ok: bool)
      requires Valid() && Opened(a) && off < WORD && |bytes| < WORD && ClusSize(vol.sb) > 0
      modifies this`files, this`chains, vol.cache
      ensures off + |bytes| < WORD ==> (ok <==> WriteWorks(vol.sb, old(vol.V()), old(files)[a].size, old(chains)[a], off, |bytes|))
      ensures ok && off + |bytes| < WORD ==> Valid() && Opened(a) && Bytes(a) == WriteOf(old(Bytes(a)), off, bytes)
      ensures ok && off + |bytes| < WORD ==> OthersKept(old(vol.V()), old(files), old(chains), vol.V(), files, chains, a)
      ensures ok && a in files && files[a].size == |WriteOf(old(Bytes(a)), off, bytes)| <==>
                WriteWorks(vol.sb, old(vol.V()), old(files)[a].size, old(chains)[a], off, |bytes|)
      ensures off + |bytes| == WORD ==> !ok
      ensures ok ==> vol.Valid() && a in files && files[a].size < WORD
    {
      hide FatVolume.Valid, FsOk, FileOk, Agrees, DiskView, VolOf, Raw, ClusSize, Content, Extends, SuperOk, U32, Patch;
      FileFacts(vol.sb, vol.V(), files, chains, other, a);
      ContentLength(vol.sb, vol.V(), files, chains, other, a);
      if bytes == [] { return false; }
      WriteEnd(off, |bytes|);
      WriteLength(Bytes(a), off, bytes);
      if U32(off + |bytes|) > files[a].size {
        ok := FileExtend(a, U32(off + |bytes|));
        if !ok { return; }
      }
      FilesKnown(vol.sb, vol.V(), files, chains, other);
      FileFacts(vol.sb, vol.V(), files, chains, other, a);
      ok := WriteBytes(a, off, bytes);
    }

    /** clus_sequence_free: the clusters of one chain, from its first on, and no others. */
    method SequenceFree(ghost fs: Files, ghost a: nat, first: nat)
      requires vol.Valid() && SuperOk(vol.sb) && ChainsOk(vol.sb, vol.V(), fs, other)
      requires a in fs && fs[a].chain != [] && first == fs[a].chain[0]
      modifies vol.cache
      ensures vol.Valid() && Freeing(vol.sb, old(vol.V()), fs, vol.V(), other, a, |fs[a].chain|)
    {
      hide FatVolume.Valid, DiskView, VolOf, ChainsOk, Freeing, SuperOk;
      ghost var v0, chain, k := vol.V(), fs[a].chain, 0;
      FreeStart(vol.sb, v0, fs, other, a);
      var clus, more := first, true;
      while more
        invariant vol.Valid() && 0 <= k <= |chain| && Freeing(vol.sb, v0, fs, vol.V(), other, a, k)
        invariant if more then k < |chain| && clus == chain[k] else k == |chain|
        decreases |chain| - k
      {
        ghost var v := vol.V();
        FreeFacts(vol.sb, v0, fs, v, other, a, k);
        var ok, next := vol.FatRead(clus);
        ok := vol.FatWrite(clus, 0);
        FreeMore(vol.sb, v0, fs, v, other, a, k, vol.V());
        clus, k := next, k + 1;
        more := NotEnd(clus);
      }
    }

    /** The clusters of a file that is cut to nothing, and its index after that. */
    method GiveUp(a: nat) returns (index: Index)
      requires Valid() && Opened(a)
      modifies this`other, vol.cache
      ensures vol.Valid() && Shape(index) && IndexOk(vol.sb, index) && vol.V().data == old(vol.V()).data
      ensures a in FilesOf(files, chains) && FilesOf(files, chains)[a].chain == chains[a]
      ensures ChainsOk(vol.sb, vol.V(), FilesOf(files, chains)[a := Dropped(FilesOf(files, chains)[a], |chains[a]|)], other)
      ensures files[a].size + ClusSize(vol.sb) <= WORD ==> other == old(other) && Freed(old(vol.V()), vol.V(), chains[a])
      ensures files[a].size + ClusSize(vol.sb) > WORD ==>
                vol.V() == old(vol.V()) && other == old(other) + Members(chains[a]) && chains[a] != []
    {
      hide FatVolume.Valid, FsOk, FileOk, DiskView, VolOf, ChainsOk, Freeing, Agrees, ClusCount, U32, ClusSize, Raw, Pos, SuperOk, Shape, Entry;
      ghost var v0, fs := vol.V(), FilesOf(files, chains);
      OpenFacts(vol.sb, v0, files, chains, other, a);
      StartTruncate(vol.sb, v0, files, chains, other, a);
      CountWraps(vol.sb, files[a].size);
      index := files[a].index;
      var count := U32(files[a].size + ClusSize(vol.sb) - 1) / ClusSize(vol.sb);
      if count > 0 {
        IndexGives(vol.sb, v0, files, chains, other, a, 0);
        SequenceFree(fs, a, GetClus(index, 0).value);
        index := ClearIndex(index, count);
      }
      if files[a].size + ClusSize(vol.sb) <= WORD {
        FreedAll(vol.sb, v0, fs, vol.V(), other, a);
      } else {
        AbandonChain(vol.sb, v0, fs, other, a);
        other := other + Members(chains[a]);
      }
    }

    /**
     file_shrink to size 0.  Its clusters become free, unless the count of them,
     taken in 32 bits, comes out as 0: then they are lost to every file.
     */
    method Truncate(a: nat)
      requires Valid() && Opened(a)
      modifies this`files, this`chains, this`other, vol.cache
      ensures Valid() && Opened(a) && Bytes(a) == [] && chains[a] == []
      ensures OthersKept(old(vol.V()), old(files), old(chains), vol.V(), files, chains, a)
      ensures old(files)[a].size + ClusSize(vol.sb) <= WORD ==>
                other == old(other) && Freed(old(vol.V()), vol.V(), old(chains)[a])
      ensures old(files)[a].size + ClusSize(vol.sb) > WORD ==>
                vol.V() == old(vol.V()) && other == old(other) + Members(old(chains)[a]) && old(chains)[a] != []
    {
      hide FatVolume.Valid, FsOk, DiskView, VolOf, ChainsOk, Agrees, Content, ClusSize, Raw, Freed, Shape;
      var index := GiveUp(a);
      TruncateDone(vol.sb, old(vol.V()), files, chains, old(other), vol.V(), other, a, index);
      FilesKnown(vol.sb, old(vol.V()), files, chains, old(other));
      files := files[a := files[a].(first := 0, size := 0, index := index)];
      chains := chains[a := []];
    }
  }

  lemma KeepsIndex(sb: Super, v: Vol, ds: Dirents, chains: Chains, other: set<nat>, a: nat)
    requires FsOk(sb, v, ds, chains, other) && a in ds && a in chains && (ds[a].valid || chains[a] == [])
    ensures Agrees(ds[a].index, chains[a]) && ds == ds[a := ds[a]]
  {
    assert FileOk(sb, v, ds[a], chains[a]);
  }

  lemma AgreesShort(index: Index, chain: seq<nat>)
    requires Agrees(index, chain)
    ensures |chain| <= MAX_INDEX
  {
    if chain != [] { assert Entry(index, |chain| - 1) == chain[|chain| - 1]; }
  }

  lemma NothingYet(sb: Super, v: Vol, ds: Dirents, chains: Chains, other: set<nat>, a: nat)
    requires FsOk(sb, v, ds, chains, other) && a in ds && a in chains
    ensures Agrees(ds[a].index, chains[a][..0]) && Shape(ds[a].index) && IndexOk(sb, ds[a].index)
  {
    assert FileOk(sb, v, ds[a], chains[a]);
  }

  lemma AgreesShape(index: Index, chain: seq<nat>)
    requires Agrees(index, chain)
    ensures Shape(index)
  {
  }

  lemma OpenFacts(sb: Super, v: Vol, ds: Dirents, chains: Chains, other: set<nat>, a: nat)
    requires FsOk(sb, v, ds, chains, other) && a in ds && a in chains
    ensures Shape(ds[a].index) && IndexOk(sb, ds[a].index)
  {
    assert FileOk(sb, v, ds[a], chains[a]);
  }

  lemma ReadStarts(sb: Super, off: nat, n: nat, size: nat, i: nat)
    requires SuperOk(sb) && off < size < WORD && 0 < n < WORD && off < Pos(sb, i) <= off + ClusSize(sb)
    ensures off + n <= size ==> U32(off + n - 1) == off + n - 1
    ensures off + n <= size && !InLast(sb, off + n - 1) ==> U32(Pos(sb, i)) == Pos(sb, i)
    ensures off + n > WORD && !InLast(sb, off) ==> U32(off + n - 1) < U32(Pos(sb, i)) && n > ClusSize(sb)
  {
    hide ClusSize, Pos;
  }

  /** The length file_read goes on with. */
  lemma Clipped(size: nat, off: nat, n: nat)
    requires off < size < WORD && n < WORD
    ensures off + n < WORD ==> U32(off + n) == off + n && (n > 0 ==> U32(off + n - 1) == off + n - 1)
    ensures off + n < WORD && off + n > size ==> U32(off + (size - off) - 1) == size - 1
    ensures off + n >= WORD ==> U32(off + n) < off && (off + n == WORD ==> U32(off + n - 1) == WORD - 1)
  {
  }

  lemma WriteEnd(off: nat, n: nat)
    requires off < WORD && 0 < n < WORD
    ensures U32(off + n) < WORD && (off + n >= WORD ==> U32(off + n) < off)
    ensures off + n < WORD ==> U32(off + n) == off + n && U32(off + n - 1) == off + n - 1
    ensures off + n == WORD ==> U32(off + n - 1) == WORD - 1
  {
  }

  lemma WriteLength(content: seq<Byte>, off: nat, bytes: seq<Byte>)
    ensures |WriteOf(content, off, bytes)| == if off + |bytes| <= |content| then |content| else off + |bytes|
  {
  }

  lemma JoinSlices(s: seq<Byte>, off: nat, len: nat, more: nat)
    requires off + len + more <= |s|
    ensures s[off..off + len] + s[off + len..off + len + more] == s[off..off + len + more]
  {
  }

  lemma GrowFacts(sb: Super, v0: Vol, chains0: Chains, v: Vol, ds: Dirents, chains: Chains, other: set<nat>, a: nat)
    requires Growing(sb, v0, chains0, v, ds, chains, other, a)
    ensures a in ds && a in chains && ClusSize(sb) > 0 && ds.Keys == chains.Keys && Agrees(ds[a].index, chains[a]) && Shape(ds[a].index)
    ensures chains[a] == [] || Cluster(sb, chains[a][|chains[a]| - 1])
    ensures if chains[a] == [] then ds[a].first == 0 else ds[a].first == chains[a][0]
  {
    var f := FilesOf(ds, chains)[a];
    assert Linked(v, f);
    if f.chain != [] { ChainCluster(sb, v, f, |f.chain| - 1); }
  }

  lemma GrowIndex(sb: Super, v0: Vol, chains0: Chains, v: Vol, ds: Dirents, chains: Chains, other: set<nat>, a: nat)
    requires Growing(sb, v0, chains0, v, ds, chains, other, a)
    ensures Shape(ds[a].index) && |chains[a]| <= MAX_INDEX
  {
    AgreesShort(ds[a].index, chains[a]);
  }

  lemma GrowGives(sb: Super, v0: Vol, chains0: Chains, v: Vol, ds: Dirents, chains: Chains, other: set<nat>, a: nat, i: nat)
    requires Growing(sb, v0, chains0, v, ds, chains, other, a) && i < |chains[a]|
    ensures Shape(ds[a].index) && GetClus(ds[a].index, i) == Ok(chains[a][i])
  {
    var f := FilesOf(ds, chains)[a];
    assert Linked(v, f);
    ChainCluster(sb, v, f, i);
    assert Entry(ds[a].index, i) == chains[a][i];
  }

  lemma GuardFits(sb: Super, newSize: nat, i: nat)
    ensures newSize + ClusSize(sb) <= WORD && Pos(sb, i) < newSize ==> U32(Pos(sb, i + 1)) == Pos(sb, i + 1)
  {
    hide ClusSize;
    PosNext(sb, i);
  }

  lemma GrowOthers(sb: Super, v0: Vol, chains0: Chains, v: Vol, ds: Dirents, chains: Chains, other: set<nat>, a: nat)
    requires Growing(sb, v0, chains0, v, ds, chains, other, a)
    ensures ds.Keys == chains.Keys == chains0.Keys
    ensures forall b {:trigger ds[b]} | b in ds && b != a ::
              chains[b] == chains0[b] && Content(v, ds[b], chains[b]) == Content(v0, ds[b], chains0[b])
  {
    forall b | b in ds && b != a ensures Content(v, ds[b], chains[b]) == Content(v0, ds[b], chains0[b]) {
      assert Raw(v, chains[b]) == Raw(v0, chains0[b]);
    }
  }

  lemma SizeFacts(sb: Super, v: Vol, ds: Dirents, chains: Chains, other: set<nat>, a: nat, newSize: nat)
    requires FsOk(sb, v, ds, chains, other) && a in ds && a in chains && ds[a].size < newSize && ClusSize(sb) > 0
    ensures |chains[a]| == ClusCount(sb, ds[a].size) && (ds[a].size > 0 ==> chains[a] != []) && (ds[a].size == 0 ==> chains[a] == [])
  {
    assert FileOk(sb, v, ds[a], chains[a]);
    Ceiling(ds[a].size, ClusSize(sb));
  }

  lemma WriteFacts(sb: Super, v0: Vol, v: Vol, ds: Dirents, chains: Chains, other: set<nat>, a: nat, off: nat, done: seq<Byte>, i: nat)
    requires SuperOk(sb) && Writing(sb, v0, v, ds, chains, other, a, off, done) && i < |chains[a]| && Agrees(ds[a].index, chains[a])
    ensures Shape(ds[a].index) && GetClus(ds[a].index, i) == Ok(chains[a][i])
    ensures var c := chains[a][i]; Cluster(sb, c) && c in v.data && |v.data[c]| == ClusSize(sb)
  {
    var f := FilesOf(ds, chains)[a];
    assert Linked(v, f);
    ChainCluster(sb, v, f, i);
    assert chains[a][i] in v.data;
    assert Entry(ds[a].index, i) == chains[a][i];
  }

  lemma ContentLength(sb: Super, v: Vol, ds: Dirents, chains: Chains, other: set<nat>, a: nat)
    requires FsOk(sb, v, ds, chains, other) && a in ds && a in chains
    ensures |Content(v, ds[a], chains[a])| == ds[a].size
  {
    assert FileOk(sb, v, ds[a], chains[a]);
  }

  lemma FilesKnown(sb: Super, v: Vol, ds: Dirents, chains: Chains, other: set<nat>)
    requires FsOk(sb, v, ds, chains, other)
    ensures ds.Keys == chains.Keys
  {
  }

  lemma StartTruncate(sb: Super, v: Vol, ds: Dirents, chains: Chains, other: set<nat>, a: nat)
    requires FsOk(sb, v, ds, chains, other) && a in ds && a in chains && Agrees(ds[a].index, chains[a])
    ensures ds.Keys == chains.Keys && ChainsOk(sb, v, FilesOf(ds, chains), other)
    ensures ClusSize(sb) > 0 && |chains[a]| == ClusCount(sb, ds[a].size) && |chains[a]| <= MAX_INDEX
    ensures Freeing(sb, v, FilesOf(ds, chains), v, other, a, 0) && ds[a].size < WORD && Shape(ds[a].index)
  {
    hide ChainsOk, Freeing;
    assert FileOk(sb, v, ds[a], chains[a]);
    FreeStart(sb, v, FilesOf(ds, chains), other, a);
    if chains[a] != [] { assert Entry(ds[a].index, |chains[a]| - 1) == chains[a][|chains[a]| - 1]; }
  }

  /** All clusters of the chain have been given up. */
  lemma FreedAll(sb: Super, v0: Vol, fs: Files, v: Vol, other: set<nat>, a: nat)
    requires a in fs && Freeing(sb, v0, fs, v, other, a, |fs[a].chain|)
    ensures ChainsOk(sb, v, fs[a := Dropped(fs[a], |fs[a].chain|)], other) && v.data == v0.data
    ensures Freed(v0, v, fs[a].chain)
  {
    hide ChainsOk;
    assert fs[a].chain[..|fs[a].chain|] == fs[a].chain;
  }

  /** In the table the clusters of the chain are free, and every other entry is as it was. */
  ghost predicate Freed(v0: Vol, v: Vol, chain: seq<nat>) {
    forall c {:trigger v.fat[c]} | c in v0.fat :: c in v.fat && v.fat[c] == if c in chain then 0 else v0.fat[c]
  }

  ghost function Members(chain: seq<nat>): set<nat> {
    set c | c in chain
  }

  /** A file that forgets its chain without freeing it leaves clusters that are no file's. */
  lemma AbandonChain(sb: Super, v: Vol, fs: Files, other: set<nat>, a: nat)
    requires ChainsOk(sb, v, fs, other) && a in fs
    ensures ChainsOk(sb, v, fs[a := Dropped(fs[a], |fs[a].chain|)], other + Members(fs[a].chain))
  {
    var fs' := fs[a := Dropped(fs[a], |fs[a].chain|)];
    assert forall b | b in fs && b != a :: fs'[b] == fs[b];
    forall b | b in fs' ensures Linked(v, fs'[b]) {
      assert Linked(v, fs[b]);
    }
    assert Disjoint(fs');
    AbandonNoLeak(sb, v, fs, other, a);
  }

  lemma AbandonNoLeak(sb: Super, v: Vol, fs: Files, other: set<nat>, a: nat)
    requires ChainsOk(sb, v, fs, other) && a in fs
    ensures NoLeak(v, fs[a := Dropped(fs[a], |fs[a].chain|)], other + Members(fs[a].chain))
  {
    var fs', other' := fs[a := Dropped(fs[a], |fs[a].chain|)], other + Members(fs[a].chain);
    forall c | c in v.fat && v.fat[c] != 0 ensures c in other' || InChain(fs', c) {
      if c !in other' {
        var b :| b in fs && c in fs[b].chain;
        assert b != a && c in fs'[b].chain;
      }
    }
    forall c | c in other' ensures c in v.fat && v.fat[c] != 0 && !InChain(fs', c) {
      if c in fs[a].chain {
        var i :| 0 <= i < |fs[a].chain| && fs[a].chain[i] == c;
        assert Linked(v, fs[a]);
        ChainCluster(sb, v, fs[a], i);
        assert forall b | b in fs' :: c !in fs'[b].chain;
      } else {
        assert !InChain(fs, c);
        assert forall b | b in fs :: c !in fs[b].chain;
      }
    }
  }

  lemma CreateOk(sb: Super, v: Vol, ds: Dirents, chains: Chains, other: set<nat>, a: nat)
    requires SuperOk(sb) && FsOk(sb, v, ds, chains, other) && a !in ds
    ensures FsOk(sb, v, ds[a := Dirent(0, 0, Blank(), false)], chains[a := []], other)
  {
    hide ClusSize, Raw, FileOk, ChainsOk;
    var ds', chains' := ds[a := Dirent(0, 0, Blank(), false)], chains[a := []];
    var fs, fs' := FilesOf(ds, chains), FilesOf(ds', chains');
    assert fs' == fs[a := File(0, 0, [])];
    BlankFile(sb, v);
    NewFile(sb, v, fs, other, a);
    forall b | b in ds' ensures FileOk(sb, v, ds'[b], chains'[b]) {
      if b != a { assert FileOk(sb, v, ds[b], chains[b]); }
    }
  }

  lemma BlankFile(sb: Super, v: Vol)
    requires SuperOk(sb)
    ensures FileOk(sb, v, Dirent(0, 0, Blank(), false), [])
  {
    Ceiling(0, ClusSize(sb));
  }

  lemma NewFile(sb: Super, v: Vol, files: Files, other: set<nat>, a: nat)
    requires ChainsOk(sb, v, files, other) && a !in files
    ensures ChainsOk(sb, v, files[a := File(0, 0, [])], other)
  {
    var files' := files[a := File(0, 0, [])];
    forall b | b in files' ensures Linked(v, files'[b]) {
      if b != a { assert Linked(v, files[b]); }
    }
    forall c ensures InChain(files', c) <==> InChain(files, c) {
      assert forall b | b in files :: files'[b].chain == files[b].chain;
    }
  }

  // ---- plain bytes ------------------------------------------------------------------------------

  /** Reading back what was written gives it back; everything else reads as before, or as zero in the gap. */
  lemma WriteThenRead(content: seq<Byte>, off: nat, bytes: seq<Byte>)
    requires bytes != []
    ensures ReadOf(WriteOf(content, off, bytes), off, |bytes|) == bytes
    ensures forall k | 0 <= k < |WriteOf(content, off, bytes)| && !(off <= k < off + |bytes|) ::
              WriteOf(content, off, bytes)[k] == if k < |content| then content[k] else 0
    ensures |WriteOf(content, off, bytes)| == if off + |bytes| <= |content| then |content| else off + |bytes|
  {
    var r := WriteOf(content, off, bytes);
    assert r[off..off + |bytes|] == bytes;
  }
}
