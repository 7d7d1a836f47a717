/**
 Inputs at which file.c and filepnt.c do less than their callers expect: sizes and
 offsets at the end of 32 bits, and files longer than the cluster index.
 */
module FileCases {
  import opened Words
  import opened Clusters
  import opened Buffers
  import opened DiskImage
  import opened FatChains
  import opened FileIndex
  import opened FilePositions
  import opened FatFiles

  // ---- a volume that one file fills with zeros -----------------------------------------------------

  ghost function WholeChain(n: nat): seq<nat> {
    seq(n, i requires i >= 0 => i + 2)
  }

  ghost function WholeVolume(sb: Super): Vol {
    Vol(imap c: nat | Cluster(sb, c) :: if c == sb.dataClus + 1 then FAT32_EOF else c + 1,
        imap c: nat | Cluster(sb, c) :: Zeros(ClusSize(sb)))
  }

  lemma WholeLinked(sb: Super, size: nat)
    requires SuperOk(sb) && sb.dataClus > 0
    ensures Linked(WholeVolume(sb), File(2, size, WholeChain(sb.dataClus)))
  {
    hide ClusSize;
    var v, chain := WholeVolume(sb), WholeChain(sb.dataClus);
    forall i: nat | i < |chain| ensures Link(v, chain, i) { }
  }

  lemma WholeChains(sb: Super, size: nat)
    requires SuperOk(sb) && sb.dataClus > 0
    ensures ChainsOk(sb, WholeVolume(sb), map[0 := File(2, size, WholeChain(sb.dataClus))], {})
  {
    hide ClusSize, Linked, SuperOk;
    var v, chain := WholeVolume(sb), WholeChain(sb.dataClus);
    var files: Files := map[0 := File(2, size, chain)];
    WholeLinked(sb, size);
    forall c | c in v.fat && v.fat[c] != 0 ensures InChain(files, c) {
      assert chain[c - 2] == c && c in files[0].chain;
    }
  }

  lemma {:induction false} WholeZeros(sb: Super, n: nat, k: nat)
    requires SuperOk(sb) && n <= sb.dataClus && k < |Raw(WholeVolume(sb), WholeChain(n))|
    ensures Raw(WholeVolume(sb), WholeChain(n))[k] == 0
  {
    hide ClusSize, SuperOk;
    var v, chain := WholeVolume(sb), WholeChain(n);
    if n > 0 {
      assert chain[..n - 1] == WholeChain(n - 1);
      assert chain[n - 1] == n + 1 && Raw(v, chain) == Raw(v, WholeChain(n - 1)) + v.data[n + 1];
      if k < |Raw(v, WholeChain(n - 1))| { WholeZeros(sb, n - 1, k); }
    }
  }

  /** Any size that takes all clusters of the volume, with any index, is a consistent file. */
  lemma WholeFile(sb: Super, size: nat, index: Index, valid: bool)
    requires SuperOk(sb) && sb.dataClus > 0 && size < WORD && ClusSize(sb) > 0 && ClusCount(sb, size) == sb.dataClus
    requires Shape(index) && IndexOk(sb, index) && (valid ==> Agrees(index, WholeChain(sb.dataClus)))
    ensures FsOk(sb, WholeVolume(sb), map[0 := Dirent(2, size, index, valid)], map[0 := WholeChain(sb.dataClus)], {})
  {
    hide ChainsOk, Raw, ClusSize, SuperOk, Shape, Agrees, IndexOk, ClusCount;
    var v, chain := WholeVolume(sb), WholeChain(sb.dataClus);
    var ds: Dirents, chains: Chains := map[0 := Dirent(2, size, index, valid)], map[0 := chain];
    WholeChains(sb, size);
    assert FilesOf(ds, chains) == map[0 := File(2, size, chain)];
    WholeTail(sb, size);
    assert FileOk(sb, v, ds[0], chain);
  }

  lemma WholeTail(sb: Super, size: nat)
    requires SuperOk(sb) && sb.dataClus > 0 && ClusSize(sb) > 0 && ClusCount(sb, size) == sb.dataClus
    ensures TailZero(WholeVolume(sb), size, WholeChain(sb.dataClus))
  {
    hide Raw, ClusSize, SuperOk;
    var v, chain := WholeVolume(sb), WholeChain(sb.dataClus);
    RawLength(sb, v, chain);
    Ceiling(size, ClusSize(sb));
    forall k | size <= k < |Raw(v, chain)| ensures Raw(v, chain)[k] == 0 {
      WholeZeros(sb, sb.dataClus, k);
    }
  }

  // ---- file_shrink ----------------------------------------------------------------------------------

  /** 65536 clusters of 64 KiB. */
  const WIDE := Super(0, 32, 2, 513, 128, 65536)

  ghost function WideTable(t: nat): Table {
    seq(PAGE_NCLUSNO, k requires k >= 0 => t * PAGE_NCLUSNO + k + 2)
  }

  /** An index with the first 65536 numbers filled. */
  ghost function WideIndex(): Index {
    Index(seq(NDIRENT_SECPOINTER, t requires t >= 0 => WideTable(t)),
          seq(THIRD_POINTERS, t requires t >= 0 => if t < 59 then WideTable(t + NDIRENT_SECPOINTER) else []))
  }

  lemma WideEntry(i: nat)
    requires i < MAX_INDEX
    ensures Entry(WideIndex(), i) == if i < 65536 then i + 2 else 0
  {
    var t, k := i / PAGE_NCLUSNO, i % PAGE_NCLUSNO;
    assert i == t * PAGE_NCLUSNO + k;
    if NDIRENT_SECPOINTER <= t { assert t - NDIRENT_SECPOINTER < THIRD_POINTERS; }
  }

  /** On this volume a file of 2^32 - 1 bytes has 65536 clusters, and file_shrink counts none. */
  lemma ShrinkCountsNone()
    ensures var sb, size, chain := WIDE, WORD - 1, WholeChain(65536);
            && SuperOk(sb) && FsOk(sb, WholeVolume(sb), map[0 := Dirent(2, size, WideIndex(), true)], map[0 := chain], {})
            && Agrees(WideIndex(), chain)
            && U32(size + ClusSize(sb) - 1) / ClusSize(sb) == 0
  {
    var sb := WIDE;
    hide Entry, WideIndex, FsOk, WholeChain;
    forall i: nat | i < MAX_INDEX ensures Entry(WideIndex(), i) == if i < 65536 then i + 2 else 0 {
      WideEntry(i);
    }
    WideAgrees();
    CeilingIs(WORD - 1, ClusSize(sb), 65536);
    WholeFile(sb, WORD - 1, WideIndex(), true);
    CountWraps(sb, WORD - 1);
  }

  lemma WideAgrees()
    ensures Shape(WideIndex()) && Agrees(WideIndex(), WholeChain(65536))
  {
    hide Entry;
    forall i: nat | i < 65536 ensures Entry(WideIndex(), i) == WholeChain(65536)[i] { WideEntry(i); }
  }

  // ---- filepnt_init -----------------------------------------------------------------------------------

  /** One cluster of 512 bytes more than the index can hold. */
  const LONG := Super(0, 32, 2, 4137, 1, MAX_INDEX + 1)

  /** A file of 529409 clusters on this volume: filepnt_init cannot open it. */
  lemma OneClusterTooMany()
    ensures SuperOk(LONG) && |WholeChain(MAX_INDEX + 1)| > MAX_INDEX
    ensures FsOk(LONG, WholeVolume(LONG), map[0 := Dirent(2, MAX_INDEX * 512 + 1, Blank(), false)], map[0 := WholeChain(MAX_INDEX + 1)], {})
  {
    hide FsOk, WholeChain, Entry;
    assert |WholeChain(MAX_INDEX + 1)| == MAX_INDEX + 1 by { ChainLength(MAX_INDEX + 1); }
    CeilingIs(MAX_INDEX * 512 + 1, ClusSize(LONG), MAX_INDEX + 1);
    WholeFile(LONG, MAX_INDEX * 512 + 1, Blank(), false);
  }

  lemma ChainLength(n: nat)
    ensures |WholeChain(n)| == n
  {
  }

  // ---- file_read, file_write and file_extend ------------------------------------------------------------

  /** Reads of 2^32 - 1 bytes: at offset 1 file_read panics, at offset 2 it says it has read them all and has read one cluster at most. */
  method LongReads(t: FileTable, a: nat) returns (ok1: bool, ok2: bool, count: nat, bytes: seq<Byte>)
    requires t.Valid() && t.Opened(a) && t.files[a].size > 2
    modifies t.vol.cache
    ensures !ok1 && ok2 && count == WORD - 1 && 0 < |bytes| <= 0x1_0000
  {
    hide FatVolume.Valid, FsOk, Agrees, Content, ReadOf;
    SizeDivides(t.vol.sb);
    SmallClusters(t.vol.sb);
    hide ClusSize, SuperOk;
    ok1, count, bytes := t.FileRead(a, 1, WORD - 1);
    ok2, count, bytes := t.FileRead(a, 2, WORD - 1);
  }

  lemma SmallClusters(sb: Super)
    requires SuperOk(sb)
    ensures 512 <= ClusSize(sb) <= 0x1_0000 && OffsetOf(sb, 2) < ClusSize(sb)
  {
  }

  /** No file can be extended to 2^32 - 1 bytes, on whatever volume. */
  method LastClusterOutOfReach(t: FileTable, a: nat) returns (ok: bool)
    requires t.Valid() && t.Opened(a) && t.files[a].size < WORD - 1
    modifies t`files, t`chains, t.vol.cache
    ensures !ok
  {
    hide FatVolume.Valid, FsOk, Agrees, Content, Room;
    SizeDivides(t.vol.sb);
    SmallClusters(t.vol.sb);
    hide ClusSize, SuperOk;
    ok := t.FileExtend(a, WORD - 1);
  }

  /** A write of 2^32 - 1 bytes at offset 1 runs past the end of the file and panics. */
  method LongWrite(t: FileTable, a: nat, bytes: seq<Byte>) returns (ok: bool)
    requires t.Valid() && t.Opened(a) && |bytes| == WORD - 1
    modifies t`files, t`chains, t.vol.cache
    ensures !ok
  {
    hide FatVolume.Valid, FsOk, Agrees, Content, WriteWorks, WriteOf;
    SizeDivides(t.vol.sb);
    hide ClusSize, SuperOk;
    ok := t.FileWrite(a, 1, bytes);
  }

  // ---- a formatted volume ----------------------------------------------------------------------------

  /** 32 reserved sectors, two copies of a table of one sector, 126 clusters of one sector. */
  const FORMATTED := Super(0, 32, 2, 1, 1, 126)

  /** The bytes of the table's first sector: the two entries before the clusters, then 2 -> 5, 3 -> end, 5 -> 3. */
  function TableByte(i: nat): Byte {
    if i == 0 then 0xf8 else if i == 8 then 5 else if i == 20 then 3
    else if i < 8 || 12 <= i < 16 then if i % 4 == 3 then 0x0f else 0xff
    else 0
  }

  function FormattedTable(): Sector {
    seq(512, i requires i >= 0 => TableByte(i))
  }

  function FormattedSector(s: nat): Sector {
    if s == 32 || s == 33 then FormattedTable() else if s == 0 then seq(512, _ => 0xeb) else Zeros(512)
  }

  function FormattedDisk(): Disk {
    map s: nat | s < 160 :: Block(0, s) := FormattedSector(s)
  }

  lemma FormattedAt(s: nat)
    requires s < 160
    ensures Block(0, s) in FormattedDisk() && FormattedDisk()[Block(0, s)] == FormattedSector(s)
  {
    hide FormattedSector;
  }

  lemma FormattedOk()
    ensures SuperOk(FORMATTED) && OnDisk(FORMATTED, FormattedDisk()) && CopiesOk(FORMATTED, FormattedDisk())
    ensures forall b | b in FormattedDisk() :: b.dev >= 0
  {
    hide FormattedTable, WordAt;
    var sb, d := FORMATTED, FormattedDisk();
    assert forall s: nat | s < 160 :: Block(0, s) in d && d[Block(0, s)] == FormattedSector(s);
    forall c, k | Cluster(sb, c) && 0 <= k < sb.fatCnt ensures FatAt(sb, d, c, k) == FatAt(sb, d, c, 0) {
      assert FatSec(sb, c, 0) == 32 && FatSec(sb, c, 1) == 33;
    }
  }

  /** The words of the table, on the device. */
  lemma FormattedWords(img: Image)
    requires img == ImageOf(0, FormattedDisk())
    ensures WordIn(img, 32 * 512 + 8) == 5 && WordIn(img, 32 * 512 + 20) == 3 && WordIn(img, 32 * 512 + 12) == 0xfffffff
  {
    hide FormattedDisk, ImageOf, WordIn;
    var d := FormattedDisk();
    FormattedAt(32);
    BlockWord(0, d, 32, 8);
    BlockWord(0, d, 32, 12);
    BlockWord(0, d, 32, 20);
  }

  /** Following the table of this volume from cluster 2 gives the chain it was formatted with. */
  method FormattedChain() returns (second: nat, third: nat, end: nat)
    ensures second == 5 && third == 3 && end == 0xfffffff
  {
    hide FormattedDisk, ImageOf, WordIn, SuperOk, OnDisk, CopiesOk, Quiet, CacheOk, LruOk, VolOf, DiskView;
    FormattedOk();
    FormattedWords(ImageOf(0, FormattedDisk()));
    var cache := new BufferCache(FormattedDisk());
    var vol := new FatVolume(FORMATTED, cache);
    var ok;
    ok, second := vol.FatRead(2);
    ok, third := vol.FatRead(second);
    ok, end := vol.FatRead(third);
  }
}
