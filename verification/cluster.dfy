/**
 Clusters and the file allocation table over cached sectors (kern/fs/cluster.c).
 The layout follows section "FAT Data Structure" of the FAT32 File System
 Specification: copies of the table, then the data clusters from number 2 on.
 */
module Clusters {
  import opened Panics
  import opened Words
  import opened Buffers
  import opened DiskImage

  /** The fields of the super block that addressing uses. */
  datatype Super = Super(dev: nat, rsvd: nat, fatCnt: nat, fatSz: nat, spc: nat, dataClus: nat)

  function FirstData(sb: Super): nat {
    sb.rsvd + sb.fatCnt * sb.fatSz
  }

  function ClusSize(sb: Super): nat {
    sb.spc * BUF_SIZE
  }

  predicate Cluster(sb: Super, c: nat) {
    2 <= c < sb.dataClus + 2
  }

  /**
   The sectors of a cluster are a power of two up to 128, each copy of the table has
   room for an entry per cluster, and no cluster number is an end mark.
   */
  predicate SuperOk(sb: Super) {
    && sb.spc in {1, 2, 4, 8, 16, 32, 64, 128} && sb.fatCnt > 0 && (sb.dataClus + 2) * 4 <= sb.fatSz * BUF_SIZE
    && sb.dataClus + 2 <= 0xffffff8
  }

  /** clusterSec */
  function ClusterSec(sb: Super, c: nat): nat
    requires c >= 2
  {
    FirstData(sb) + (c - 2) * sb.spc
  }

  /** The sector that holds offset at of cluster c, and where in it. */
  function SecNo(sb: Super, c: nat, at: nat): nat
    requires c >= 2
  {
    ClusterSec(sb, c) + at / BUF_SIZE
  }

  function SecOff(at: nat): (x: nat)
    ensures x < BUF_SIZE
  {
    at % BUF_SIZE
  }

  /** clusterFatSec and clusterFatSecIndex */
  function FatSec(sb: Super, c: nat, k: nat): nat {
    sb.rsvd + k * sb.fatSz + c * 4 / BUF_SIZE
  }

  function FatIndex(c: nat): (x: nat)
    ensures x < 128
  {
    c * 4 % BUF_SIZE / 4
  }

  ghost predicate OnDisk(sb: Super, d: Disk) {
    forall s {:trigger Block(sb.dev, s)} | 0 <= s < FirstData(sb) + sb.dataClus * sb.spc :: Block(sb.dev, s) in d
  }

  // ---- addresses do not collide ------------------------------------------------------------

  lemma {:induction false} MulAtLeast(d: nat, n: nat)
    requires d >= 1
    ensures d * n >= n
  {
    if d > 1 { MulAtLeast(d - 1, n); }
  }

  lemma MulRoom(a: nat, x: nat, b: nat, n: nat)
    requires a < b && x < n
    ensures a * n + x < b * n
  {
    MulAtLeast(b - a, n);
    assert (b - a) * n == b * n - a * n;
  }

  lemma MulSplit(a: nat, x: nat, b: nat, y: nat, n: nat)
    requires x < n && y < n && a * n + x == b * n + y
    ensures a == b && x == y
  {
    if a < b {
      MulRoom(a, x, b, n);
    } else if b < a {
      MulRoom(b, y, a, n);
    }
  }

  lemma FatSecRoom(sb: Super, c: nat, k: nat)
    requires SuperOk(sb) && c < sb.dataClus + 2 && k < sb.fatCnt
    ensures c * 4 / BUF_SIZE < sb.fatSz && FatSec(sb, c, k) < FirstData(sb)
  {
    MulRoom(k, c * 4 / BUF_SIZE, sb.fatCnt, sb.fatSz);
  }

  lemma FatSlot(c: nat)
    ensures c == c * 4 / BUF_SIZE * 128 + FatIndex(c)
  {
  }

  /** An entry of the table is found in one place of each copy, and no other entry is found there. */
  lemma FatPlaces(sb: Super, c: nat, k: nat, c': nat, k': nat)
    requires SuperOk(sb) && c < sb.dataClus + 2 && c' < sb.dataClus + 2 && k < sb.fatCnt && k' < sb.fatCnt
    requires FatSec(sb, c, k) == FatSec(sb, c', k')
    ensures k == k' && (FatIndex(c) == FatIndex(c') ==> c == c')
  {
    FatSecRoom(sb, c, k);
    FatSecRoom(sb, c', k');
    MulSplit(k, c * 4 / BUF_SIZE, k', c' * 4 / BUF_SIZE, sb.fatSz);
    FatSlot(c);
    FatSlot(c');
  }

  lemma ClusterRoom(sb: Super, c: nat, x: nat)
    requires Cluster(sb, c) && x < sb.spc
    ensures FirstData(sb) <= ClusterSec(sb, c) + x < FirstData(sb) + sb.dataClus * sb.spc
  {
    MulRoom(c - 2, x, sb.dataClus, sb.spc);
  }

  lemma ClusterPlaces(sb: Super, c: nat, x: nat, c': nat, x': nat)
    requires c >= 2 && c' >= 2 && x < sb.spc && x' < sb.spc && ClusterSec(sb, c) + x == ClusterSec(sb, c') + x'
    ensures c == c' && x == x'
  {
    MulSplit(c - 2, x, c' - 2, x', sb.spc);
  }

  // ---- 32-bit entries in a sector -----------------------------------------------------------

  type Word = w: nat | w < 0x1_0000_0000

  function Bytes(w: Word): (s: seq<Byte>)
    ensures |s| == 4
  {
    [w % 256, w / 256 % 256, w / 65536 % 256, w / 16777216]
  }

  function WordAt(s: Sector, x: nat): Word
    requires x < 128
  {
    s[4 * x] as int + 256 * (s[4 * x + 1] as int) + 65536 * (s[4 * x + 2] as int) + 16777216 * (s[4 * x + 3] as int)
  }

  lemma BytesJoin(w: Word)
    ensures Bytes(w)[0] as int + 256 * (Bytes(w)[1] as int) + 65536 * (Bytes(w)[2] as int) + 16777216 * (Bytes(w)[3] as int) == w
  {
  }

  /** Little-endian storage of an entry: it reads back, and its neighbours are untouched. */
  lemma WordPut(s: Sector, x: nat, w: Word, y: nat)
    requires x < 128 && y < 128
    ensures WordAt(Splice(s, 4 * x, Bytes(w)), y) == if y == x then w else WordAt(s, y)
  {
    hide Bytes;
    BytesJoin(w);
    var s' := Splice(s, 4 * x, Bytes(w));
    if y == x {
      assert s'[4 * x] == Bytes(w)[0] && s'[4 * x + 1] == Bytes(w)[1];
      assert s'[4 * x + 2] == Bytes(w)[2] && s'[4 * x + 3] == Bytes(w)[3];
    }
  }

  // ---- the volume that a disk holds ----------------------------------------------------------

  ghost function SecAt(sb: Super, d: Disk, s: nat): Sector {
    if Block(sb.dev, s) in d then d[Block(sb.dev, s)] else ZeroSector()
  }

  /** The entry of cluster c in copy k of the table. */
  ghost function FatAt(sb: Super, d: Disk, c: nat, k: nat): Word {
    WordAt(SecAt(sb, d, FatSec(sb, c, k)), FatIndex(c))
  }

  ghost function ByteAt(sb: Super, d: Disk, c: nat, o: nat): Byte
    requires c >= 2
  {
    SecAt(sb, d, ClusterSec(sb, c) + o / BUF_SIZE)[o % BUF_SIZE]
  }

  /** The bytes of cluster c. */
  ghost function Data(sb: Super, d: Disk, c: nat): (s: seq<Byte>)
    requires c >= 2
    ensures |s| == ClusSize(sb)
  {
    seq(ClusSize(sb), o requires 0 <= o < ClusSize(sb) => ByteAt(sb, d, c, o))
  }

  /** The table and the clusters, without sectors. */
  datatype Vol = Vol(fat: imap<nat, nat>, data: imap<nat, seq<Byte>>)

  ghost function VolOf(sb: Super, d: Disk): Vol {
    Vol(imap c: nat | Cluster(sb, c) :: FatAt(sb, d, c, 0), imap c: nat | Cluster(sb, c) :: Data(sb, d, c))
  }

  /** All copies of the table agree. */
  ghost predicate CopiesOk(sb: Super, d: Disk) {
    forall c, k {:trigger FatAt(sb, d, c, k)} | Cluster(sb, c) && 0 <= k < sb.fatCnt :: FatAt(sb, d, c, k) == FatAt(sb, d, c, 0)
  }

  ghost function WithSec(sb: Super, d: Disk, s: nat, sector: Sector): Disk {
    d[Block(sb.dev, s) := sector]
  }

  lemma SecAfter(sb: Super, d: Disk, s: nat, sector: Sector, s': nat)
    ensures SecAt(sb, WithSec(sb, d, s, sector), s') == if s' == s then sector else SecAt(sb, d, s')
  {
  }

  /** Writing one entry of one copy of the table changes that entry of that copy. */
  lemma FatPut(sb: Super, d: Disk, c: nat, k: nat, w: Word, c': nat, k': nat)
    requires SuperOk(sb) && Cluster(sb, c) && Cluster(sb, c') && k < sb.fatCnt && k' < sb.fatCnt
    ensures var s := FatSec(sb, c, k);
            var d' := WithSec(sb, d, s, Splice(SecAt(sb, d, s), 4 * FatIndex(c), Bytes(w)));
            && FatAt(sb, d', c', k') == (if c' == c && k' == k then w else FatAt(sb, d, c', k'))
            && Data(sb, d', c') == Data(sb, d, c')
  {
    var s := FatSec(sb, c, k);
    var sector := Splice(SecAt(sb, d, s), 4 * FatIndex(c), Bytes(w));
    var d' := WithSec(sb, d, s, sector);
    SecAfter(sb, d, s, sector, FatSec(sb, c', k'));
    WordPut(SecAt(sb, d, s), FatIndex(c), w, FatIndex(c'));
    if FatSec(sb, c', k') == s { FatPlaces(sb, c, k, c', k'); }
    FatSecRoom(sb, c, k);
    forall o | 0 <= o < ClusSize(sb) ensures ByteAt(sb, d', c', o) == ByteAt(sb, d, c', o) {
      OffsetRoom(sb, o);
      ClusterRoom(sb, c', o / BUF_SIZE);
      SecAfter(sb, d, s, sector, ClusterSec(sb, c') + o / BUF_SIZE);
    }
  }

  lemma OffsetRoom(sb: Super, o: nat)
    requires o < ClusSize(sb)
    ensures o / BUF_SIZE < sb.spc
  {
  }

  lemma InSector(o: nat, x: nat, off: nat, len: nat)
    requires off + len <= BUF_SIZE
    ensures x * BUF_SIZE + off <= o < x * BUF_SIZE + off + len <==> o / BUF_SIZE == x && off <= o % BUF_SIZE < off + len
    ensures o / BUF_SIZE == x ==> o - (x * BUF_SIZE + off) == o % BUF_SIZE - off
  {
  }

  lemma DataPutByte(sb: Super, d: Disk, c: nat, x: nat, off: nat, bytes: seq<Byte>, c': nat, o: nat)
    requires Cluster(sb, c) && Cluster(sb, c') && x < sb.spc && off + |bytes| <= BUF_SIZE && o < ClusSize(sb)
    ensures var s := ClusterSec(sb, c) + x;
            var d' := WithSec(sb, d, s, Splice(SecAt(sb, d, s), off, bytes));
            var base := x * BUF_SIZE + off;
            ByteAt(sb, d', c', o) == if c' == c && base <= o < base + |bytes| then bytes[o - base] else ByteAt(sb, d, c', o)
  {
    var s := ClusterSec(sb, c) + x;
    var sector := Splice(SecAt(sb, d, s), off, bytes);
    OffsetRoom(sb, o);
    InSector(o, x, off, |bytes|);
    SecAfter(sb, d, s, sector, ClusterSec(sb, c') + o / BUF_SIZE);
    if ClusterSec(sb, c') + o / BUF_SIZE == s {
      ClusterPlaces(sb, c', o / BUF_SIZE, c, x);
    }
  }

  lemma SectorRoom(sb: Super, x: nat, off: nat, len: nat)
    requires x < sb.spc && off + len <= BUF_SIZE
    ensures x * BUF_SIZE + off + len <= ClusSize(sb)
  {
  }

  /** Writing some bytes of one sector of a cluster changes those bytes of that cluster. */
  lemma DataPut(sb: Super, d: Disk, c: nat, x: nat, off: nat, bytes: seq<Byte>, c': nat, k: nat)
    requires SuperOk(sb) && Cluster(sb, c) && Cluster(sb, c') && k < sb.fatCnt && x < sb.spc && off + |bytes| <= BUF_SIZE
    ensures x * BUF_SIZE + off + |bytes| <= ClusSize(sb)
    ensures var s := ClusterSec(sb, c) + x;
            var d' := WithSec(sb, d, s, Splice(SecAt(sb, d, s), off, bytes));
            && FatAt(sb, d', c', k) == FatAt(sb, d, c', k)
            && Data(sb, d', c') == if c' == c then Patch(Data(sb, d, c), x * BUF_SIZE + off, bytes) else Data(sb, d, c')
  {
    hide ByteAt, FatSec, ClusterSec, FirstData, ClusSize;
    SectorRoom(sb, x, off, |bytes|);
    var s := ClusterSec(sb, c) + x;
    var sector := Splice(SecAt(sb, d, s), off, bytes);
    var d' := WithSec(sb, d, s, sector);
    ClusterRoom(sb, c, x);
    FatSecRoom(sb, c', k);
    SecAfter(sb, d, s, sector, FatSec(sb, c', k));
    forall o | 0 <= o < ClusSize(sb)
      ensures Data(sb, d', c')[o]
              == if c' == c && x * BUF_SIZE + off <= o < x * BUF_SIZE + off + |bytes| then bytes[o - (x * BUF_SIZE + off)] else Data(sb, d, c')[o]
    {
      DataPutByte(sb, d, c, x, off, bytes, c', o);
    }
  }

  // ---- where everything is on the device ------------------------------------------------------------

  /** Entry c of copy k of the table, behind the reserved sectors. */
  function EntryPlace(sb: Super, c: nat, k: nat): nat {
    (sb.rsvd + k * sb.fatSz) * 512 + 4 * c
  }

  /** Cluster c, the first of which has number 2, behind the copies of the table. */
  function ClusterPlace(sb: Super, c: nat): nat
    requires c >= 2
  {
    (sb.rsvd + sb.fatCnt * sb.fatSz + (c - 2) * sb.spc) * 512
  }

  lemma EntryAddress(sb: Super, c: nat, k: nat)
    ensures FatSec(sb, c, k) * 512 + 4 * FatIndex(c) == EntryPlace(sb, c, k)
  {
    FatSlot(c);
    assert (sb.rsvd + k * sb.fatSz + c * 4 / BUF_SIZE) * 512 == (sb.rsvd + k * sb.fatSz) * 512 + c * 4 / BUF_SIZE * 512;
  }

  lemma ClusterAddress(sb: Super, c: nat, at: nat)
    requires c >= 2
    ensures SecNo(sb, c, at) * 512 + SecOff(at) == ClusterPlace(sb, c) + at
  {
  }

  /** The table of the model is the one at its place on the device, in every copy. */
  lemma FatLayout(sb: Super, d: Disk, c: nat, k: nat)
    requires SuperOk(sb) && OnDisk(sb, d) && Cluster(sb, c) && k < sb.fatCnt
    ensures FatAt(sb, d, c, k) == WordIn(ImageOf(sb.dev, d), EntryPlace(sb, c, k))
  {
    hide ImageOf, FatSec, EntryPlace, WordIn;
    FatOnDisk(sb, d, c, k);
    EntryAddress(sb, c, k);
    BlockWord(sb.dev, d, FatSec(sb, c, k), 4 * FatIndex(c));
  }

  /** The bytes of a cluster are those at its place on the device. */
  lemma DataLayout(sb: Super, d: Disk, c: nat, o: nat)
    requires OnDisk(sb, d) && Cluster(sb, c) && o < ClusSize(sb)
    ensures HasByte(ImageOf(sb.dev, d), ClusterPlace(sb, c) + o, Data(sb, d, c)[o])
  {
    hide ImageOf, ClusterPlace;
    DataOnDisk(sb, d, c, o);
    ClusterAddress(sb, c, o);
    BlockIn(sb.dev, d, SecNo(sb, c, o), SecOff(o));
  }

  lemma DataShows(sb: Super, d: Disk, c: nat, off: nat, n: nat)
    requires OnDisk(sb, d) && Cluster(sb, c) && off + n <= ClusSize(sb)
    ensures Shows(ImageOf(sb.dev, d), ClusterPlace(sb, c) + off, Data(sb, d, c)[off..off + n])
  {
    hide ImageOf, ClusterPlace, Data, OnDisk, ClusSize;
    var bytes, img, at := Data(sb, d, c)[off..off + n], ImageOf(sb.dev, d), ClusterPlace(sb, c) + off;
    forall x | 0 <= x < |bytes| ensures HasByte(img, at + x, bytes[x]) {
      DataLayout(sb, d, c, off + x);
    }
  }

  /** The volume all file theorems are about, read off the device. */
  lemma VolLayout(sb: Super, d: Disk, c: nat)
    requires SuperOk(sb) && OnDisk(sb, d) && Cluster(sb, c)
    ensures var v, img := VolOf(sb, d), ImageOf(sb.dev, d);
            && c in v.fat && v.fat[c] == WordIn(img, EntryPlace(sb, c, 0))
            && c in v.data && |v.data[c]| == sb.spc * 512 && Shows(img, ClusterPlace(sb, c), v.data[c])
  {
    hide ImageOf, ClusterPlace, EntryPlace, FatAt, Data, OnDisk, Shows;
    FatLayout(sb, d, c, 0);
    VolData(sb, d, c);
    DataShows(sb, d, c, 0, ClusSize(sb));
    assert Data(sb, d, c)[0..ClusSize(sb)] == Data(sb, d, c);
  }

  lemma EntryRead(sb: Super, d: Disk, c: nat)
    requires SuperOk(sb) && OnDisk(sb, d) && Cluster(sb, c)
    ensures Block(sb.dev, FatSec(sb, c, 0)) in d && c in VolOf(sb, d).fat
    ensures WordAt(d[Block(sb.dev, FatSec(sb, c, 0))], FatIndex(c)) == VolOf(sb, d).fat[c] == WordIn(ImageOf(sb.dev, d), EntryPlace(sb, c, 0))
  {
    hide ImageOf, EntryPlace, WordAt, WordIn, FatSec, OnDisk;
    FatOnDisk(sb, d, c, 0);
    FatLayout(sb, d, c, 0);
  }

  ghost predicate InEntry(sb: Super, c: nat, k: nat, i: nat) {
    EntryPlace(sb, c, k) <= i < EntryPlace(sb, c, k) + 4
  }

  /** In the first n copies of the table entry c is w; no other byte of the device is different. */
  ghost predicate EntriesStored(sb: Super, img: Image, img': Image, c: nat, w: nat, n: nat) {
    && (forall i: nat :: i in img' <==> i in img)
    && (forall k: nat {:trigger EntryPlace(sb, c, k)} | k < n :: WordIn(img', EntryPlace(sb, c, k)) == w)
    && (forall i: nat {:trigger img'[i]} | i in img && (forall k: nat | k < n :: !InEntry(sb, c, k, i)) :: img'[i] == img[i])
  }

  lemma EntriesApart(sb: Super, c: nat, k: nat, n: nat)
    requires k < n && sb.fatSz > 0
    ensures EntryPlace(sb, c, k) + 512 <= EntryPlace(sb, c, n)
  {
    MulAtLeast(n - k, sb.fatSz);
    assert (n - k) * sb.fatSz == n * sb.fatSz - k * sb.fatSz;
  }

  lemma WordStored(img: Image, at: nat, w: Word)
    requires forall i | at <= i < at + 4 :: i in img
    ensures WordIn(Put(img, at, Bytes(w)), at) == w
  {
    hide Bytes;
    BytesJoin(w);
    var img' := Put(img, at, Bytes(w));
    assert img'[at] == Bytes(w)[0] && img'[at + 1] == Bytes(w)[1] && img'[at + 2] == Bytes(w)[2] && img'[at + 3] == Bytes(w)[3];
  }

  lemma EntryStored(sb: Super, img: Image, img1: Image, c: nat, w: Word, n: nat)
    requires EntriesStored(sb, img, img1, c, w, n) && sb.fatSz > 0
    requires forall i | EntryPlace(sb, c, n) <= i < EntryPlace(sb, c, n) + 4 :: i in img1
    ensures EntriesStored(sb, img, Put(img1, EntryPlace(sb, c, n), Bytes(w)), c, w, n + 1)
  {
    hide Bytes, EntryPlace, WordIn;
    var img' := Put(img1, EntryPlace(sb, c, n), Bytes(w));
    WordStored(img1, EntryPlace(sb, c, n), w);
    forall k: nat | k < n + 1 ensures WordIn(img', EntryPlace(sb, c, k)) == w {
      if k < n {
        EntriesApart(sb, c, k, n);
        WordKept(img1, EntryPlace(sb, c, n), Bytes(w), EntryPlace(sb, c, k));
      }
    }
    forall i: nat | i in img && (forall k: nat | k < n + 1 :: !InEntry(sb, c, k, i)) ensures img'[i] == img[i] {
      assert !InEntry(sb, c, n, i);
    }
  }

  lemma WordKept(img: Image, at: nat, bytes: seq<Byte>, p: nat)
    requires p + 4 <= at
    ensures WordIn(Put(img, at, bytes), p) == WordIn(img, p)
  {
  }

  /** One entry of one copy as sectors have it. */
  lemma EntryPut(sb: Super, d: Disk, c: nat, k: nat, w: Word)
    requires Block(sb.dev, FatSec(sb, c, k)) in d
    ensures var s := FatSec(sb, c, k);
            ImageOf(sb.dev, d[Block(sb.dev, s) := Splice(d[Block(sb.dev, s)], 4 * FatIndex(c), Bytes(w))])
            == Put(ImageOf(sb.dev, d), EntryPlace(sb, c, k), Bytes(w))
    ensures forall i | EntryPlace(sb, c, k) <= i < EntryPlace(sb, c, k) + 4 :: i in ImageOf(sb.dev, d)
  {
    hide FatSec, EntryPlace, Bytes;
    EntryAddress(sb, c, k);
    SplicePut(sb.dev, d, FatSec(sb, c, k), 4 * FatIndex(c), Bytes(w));
    forall i | EntryPlace(sb, c, k) <= i < EntryPlace(sb, c, k) + 4 ensures i in ImageOf(sb.dev, d) {
      BlockIn(sb.dev, d, FatSec(sb, c, k), 4 * FatIndex(c) + i - EntryPlace(sb, c, k));
    }
  }

  // ---- the layer itself ------------------------------------------------------------------------

  const FAT32_EOF: Word := 0xfffffff

  /** FAT32_NOT_END_CLUSTER */
  predicate NotEnd(w: nat) {
    w < 0xffffff8
  }

  /** The entry of c reads w in the copies before k; nothing else differs from d. */
  ghost predicate FatWritten(sb: Super, d: Disk, d': Disk, c: nat, w: Word, k: nat) {
    && d'.Keys == d.Keys
    && (forall c', k' {:trigger FatAt(sb, d', c', k')} | Cluster(sb, c') && 0 <= k' < sb.fatCnt ::
          FatAt(sb, d', c', k') == if c' == c && k' < k then w else FatAt(sb, d, c', k'))
    && (forall c' {:trigger Data(sb, d', c')} | Cluster(sb, c') :: Data(sb, d', c') == Data(sb, d, c'))
  }

  lemma FatWriteStep(sb: Super, d: Disk, d1: Disk, c: nat, w: Word, k: nat)
    requires SuperOk(sb) && Cluster(sb, c) && k < sb.fatCnt && FatWritten(sb, d, d1, c, w, k) && Block(sb.dev, FatSec(sb, c, k)) in d1
    ensures var s := FatSec(sb, c, k);
            FatWritten(sb, d, WithSec(sb, d1, s, Splice(SecAt(sb, d1, s), 4 * FatIndex(c), Bytes(w))), c, w, k + 1)
  {
    hide FatAt, Data, FatSec;
    var s := FatSec(sb, c, k);
    var d' := WithSec(sb, d1, s, Splice(SecAt(sb, d1, s), 4 * FatIndex(c), Bytes(w)));
    forall c', k' | Cluster(sb, c') && 0 <= k' < sb.fatCnt
      ensures FatAt(sb, d', c', k') == if c' == c && k' < k + 1 then w else FatAt(sb, d, c', k')
    {
      FatPut(sb, d1, c, k, w, c', k');
    }
    forall c' | Cluster(sb, c') ensures Data(sb, d', c') == Data(sb, d, c') {
      FatPut(sb, d1, c, k, w, c', k);
      assert Data(sb, d1, c') == Data(sb, d, c');
    }
  }

  lemma FatWriteDone(sb: Super, d: Disk, d': Disk, c: nat, w: Word)
    requires SuperOk(sb) && Cluster(sb, c) && FatWritten(sb, d, d', c, w, sb.fatCnt)
    ensures VolOf(sb, d') == VolOf(sb, d).(fat := VolOf(sb, d).fat[c := w])
    ensures CopiesOk(sb, d) ==> CopiesOk(sb, d')
  {
    hide FatAt, Data;
    if CopiesOk(sb, d) {
      forall c', k | Cluster(sb, c') && 0 <= k < sb.fatCnt ensures FatAt(sb, d', c', k) == FatAt(sb, d', c', 0) {
        assert FatAt(sb, d, c', k) == FatAt(sb, d, c', 0);
      }
    }
  }

  /** From offset off of cluster c on, bytes have been written; nothing else differs from d. */
  ghost predicate DataWritten(sb: Super, d: Disk, d': Disk, c: nat, off: nat, bytes: seq<Byte>)
    requires Cluster(sb, c)
  {
    && d'.Keys == d.Keys && off + |bytes| <= ClusSize(sb)
    && (forall c', k' {:trigger FatAt(sb, d', c', k')} | Cluster(sb, c') && 0 <= k' < sb.fatCnt ::
          FatAt(sb, d', c', k') == FatAt(sb, d, c', k'))
    && (forall c' {:trigger Data(sb, d', c')} | Cluster(sb, c') ::
          Data(sb, d', c') == if c' == c then Patch(Data(sb, d, c), off, bytes) else Data(sb, d, c'))
  }

  lemma PatchTwice(s: seq<Byte>, off: nat, a: seq<Byte>, b: seq<Byte>)
    requires off + |a| + |b| <= |s|
    ensures Patch(Patch(s, off, a), off + |a|, b) == Patch(s, off, a + b)
  {
  }

  lemma DataWriteStep(sb: Super, d: Disk, d1: Disk, c: nat, off: nat, done: seq<Byte>, bytes: seq<Byte>)
    requires SuperOk(sb) && Cluster(sb, c) && DataWritten(sb, d, d1, c, off, done)
    requires var at := off + |done|; at % BUF_SIZE + |bytes| <= BUF_SIZE && at < ClusSize(sb)
    requires Block(sb.dev, ClusterSec(sb, c) + (off + |done|) / BUF_SIZE) in d1
    ensures var at := off + |done|;
            var s := ClusterSec(sb, c) + at / BUF_SIZE;
            DataWritten(sb, d, WithSec(sb, d1, s, Splice(SecAt(sb, d1, s), at % BUF_SIZE, bytes)), c, off, done + bytes)
  {
    hide FatAt, Data, ClusterSec, SecAt;
    var at := off + |done|;
    var s := ClusterSec(sb, c) + at / BUF_SIZE;
    var d' := WithSec(sb, d1, s, Splice(SecAt(sb, d1, s), at % BUF_SIZE, bytes));
    OffsetRoom(sb, at);
    DataPut(sb, d1, c, at / BUF_SIZE, at % BUF_SIZE, bytes, c, 0);
    assert Data(sb, d1, c) == Patch(Data(sb, d, c), off, done);
    PatchTwice(Data(sb, d, c), off, done, bytes);
    forall c', k' | Cluster(sb, c') && 0 <= k' < sb.fatCnt ensures FatAt(sb, d', c', k') == FatAt(sb, d, c', k') {
      DataPut(sb, d1, c, at / BUF_SIZE, at % BUF_SIZE, bytes, c', k');
      assert FatAt(sb, d1, c', k') == FatAt(sb, d, c', k');
    }
    forall c' | Cluster(sb, c')
      ensures Data(sb, d', c') == if c' == c then Patch(Data(sb, d, c), off, done + bytes) else Data(sb, d, c')
    {
      DataPut(sb, d1, c, at / BUF_SIZE, at % BUF_SIZE, bytes, c', 0);
      assert Data(sb, d1, c') == if c' == c then Patch(Data(sb, d, c), off, done) else Data(sb, d, c');
    }
  }

  lemma DataWriteDone(sb: Super, d: Disk, d': Disk, c: nat, off: nat, bytes: seq<Byte>)
    requires SuperOk(sb) && Cluster(sb, c) && DataWritten(sb, d, d', c, off, bytes)
    ensures var v := VolOf(sb, d);
            c in v.data && off + |bytes| <= |v.data[c]| && VolOf(sb, d') == v.(data := v.data[c := Patch(v.data[c], off, bytes)])
    ensures CopiesOk(sb, d) ==> CopiesOk(sb, d')
  {
    hide FatAt, Data;
    if CopiesOk(sb, d) {
      forall c', k | Cluster(sb, c') && 0 <= k < sb.fatCnt ensures FatAt(sb, d', c', k) == FatAt(sb, d', c', 0) {
        assert FatAt(sb, d, c', k) == FatAt(sb, d, c', 0);
      }
    }
  }

  /** The first free cluster from c on. */
  ghost function FirstFree(sb: Super, v: Vol, c: nat): Res<nat>
    decreases sb.dataClus + 2 - c
  {
    if c >= sb.dataClus + 2 then Panic
    else if c in v.fat && v.fat[c] == 0 then Ok(c)
    else FirstFree(sb, v, c + 1)
  }

  /** What clusterAlloc does to the volume: it never looks at clusters before prev. */
  ghost function AllocFrom(sb: Super, v: Vol, prev: nat): Res<(Vol, nat)> {
    var c :- FirstFree(sb, v, if prev == 0 then 2 else prev + 1);
    var fat := if prev == 0 then v.fat else v.fat[prev := c];
    Ok((Vol(fat[c := FAT32_EOF], v.data[c := Zeros(ClusSize(sb))]), c))
  }

  class FatVolume {
    const sb: Super
    const cache: BufferCache

    ghost predicate Valid()
      reads this, cache
    {
      cache.Valid() && Quiet(cache.groups) && SuperOk(sb) && OnDisk(sb, cache.disk) && CopiesOk(sb, cache.View())
    }

    ghost function V(): Vol
      reads this, cache
    {
      VolOf(sb, cache.View())
    }

    /** The device, as the rest of the kernel sees it. */
    ghost function Img(): Image
      reads this, cache
    {
      ImageOf(sb.dev, cache.View())
    }

    constructor (sb: Super, cache: BufferCache)
      requires cache.Valid() && Quiet(cache.groups) && SuperOk(sb) && OnDisk(sb, cache.disk) && CopiesOk(sb, cache.View())
      ensures Valid() && this.sb == sb && this.cache == cache
    {
      this.sb, this.cache := sb, cache;
    }

    method FatRead(c: nat) returns (ok: bool, w: Word)
      requires Valid()
      modifies cache
      ensures Valid() && V() == old(V())
      ensures ok == Cluster(sb, c) && (ok ==> c in V().fat && w == V().fat[c]) && (!ok ==> w == 0)
      ensures Img() == old(Img()) && (ok ==> w == WordIn(Img(), EntryPlace(sb, c, 0)))
    {
      hide CacheOk, LruOk, DiskView, Quiet, CopiesOk, ImageOf, EntryPlace, WordIn, OnDisk, VolOf, WordAt, FatSec, FatIndex, SuperOk;
      if c < 2 || c > sb.dataClus + 1 { return false, 0; }
      EntryRead(sb, cache.disk, c);
      VolumeOnDisk();
      EntryRead(sb, cache.View(), c);
      var sector := cache.ReadBlock(Block(sb.dev, FatSec(sb, c, 0)));
      SameOnDisk(sb, old(cache.disk), cache.disk);
      return true, WordAt(sector, FatIndex(c));
    }

    method FatWrite(c: nat, w: Word) returns (ok: bool)
      requires Valid()
      modifies cache
      ensures Valid() && ok == Cluster(sb, c)
      ensures V() == if ok then old(V()).(fat := old(V()).fat[c := w]) else old(V())
      ensures EntriesStored(sb, old(Img()), Img(), c, w, if ok then sb.fatCnt else 0)
    {
      hide CacheOk, LruOk, DiskView, Quiet, FatSec, FatWritten, VolOf, CopiesOk, EntriesStored, ImageOf, Put, EntryPlace;
      ghost var d := cache.View();
      FatWriteStart(sb, d, c, w);
      if c < 2 || c > sb.dataClus + 1 { return false; }
      var k := 0;
      while k < sb.fatCnt
        invariant k <= sb.fatCnt && cache.Valid() && Quiet(cache.groups) && OnDisk(sb, cache.disk)
        invariant FatWritten(sb, d, cache.View(), c, w, k) && EntriesStored(sb, ImageOf(sb.dev, d), Img(), c, w, k)
      {
        FatOnDisk(sb, cache.disk, c, k);
        ViewKeys(cache.groups, cache.disk);
        EntryPut(sb, cache.View(), c, k, w);
        EntryStored(sb, ImageOf(sb.dev, d), Img(), c, w, k);
        FatWriteStep(sb, d, cache.View(), c, w, k);
        ghost var before := cache.disk;
        cache.UpdateBlock(Block(sb.dev, FatSec(sb, c, k)), 4 * FatIndex(c), Bytes(w));
        SameOnDisk(sb, before, cache.disk);
        k := k + 1;
      }
      FatWriteDone(sb, d, cache.View(), c, w);
      return true;
    }

    lemma VolumeOnDisk()
      requires Valid()
      ensures OnDisk(sb, cache.View())
    {
      hide CacheOk, LruOk, DiskView, Quiet, CopiesOk, SuperOk;
      ViewOnDisk(sb, cache.groups, cache.disk);
    }

    /** The bytes at an offset of a cluster; refused where they would run past its end. */
    method ClusterRead(c: nat, off: nat, n: nat) returns (ok: bool, bytes: seq<Byte>)
      requires Valid() && Cluster(sb, c)
      modifies cache
      ensures Valid() && V() == old(V())
      ensures ok == (off + n <= ClusSize(sb)) && c in V().data && |V().data[c]| == ClusSize(sb)
      ensures ok ==> bytes == V().data[c][off..off + n]
      ensures Img() == old(Img()) && (ok ==> |bytes| == n && Shows(Img(), ClusterPlace(sb, c) + off, bytes))
    {
      hide Valid, DiskView, SecNo, SecOff, Data, VolOf, ClusSize, ImageOf, ClusterPlace, Shows;
      VolData(sb, cache.View(), c);
      if off + n > ClusSize(sb) { return false, []; }
      var secno, secoff := SecNo(sb, c, off), SecOff(off);
      bytes := [];
      var i := 0;
      while i < n
        invariant i <= n && Valid() && cache.View() == old(cache.View()) && |bytes| == i
        invariant bytes == Data(sb, cache.View(), c)[off..off + i]
        invariant i < n ==> secno == SecNo(sb, c, off + i) && secoff == SecOff(off + i)
      {
        var len := if BUF_SIZE - secoff < n - i then BUF_SIZE - secoff else n - i;
        var sector := ReadSector(c, off + i, secno);
        ReadStep(sb, cache.View(), c, off, i, len, sector);
        NextSector(sb, c, off + i, len);
        bytes := bytes + sector[secoff..secoff + len];
        i := i + len;
        secno, secoff := secno + 1, 0;
      }
      VolumeOnDisk();
      DataShows(sb, cache.View(), c, off, n);
      ok := true;
    }

    method ReadSector(ghost c: nat, ghost at: nat, secno: nat) returns (sector: Sector)
      requires Valid() && Cluster(sb, c) && at < ClusSize(sb) && secno == SecNo(sb, c, at)
      modifies cache
      ensures Valid() && cache.View() == old(cache.View())
      ensures Block(sb.dev, secno) in cache.View() && sector == cache.View()[Block(sb.dev, secno)]
    {
      hide CacheOk, LruOk, DiskView, Quiet, CopiesOk, SuperOk;
      DataOnDisk(sb, cache.disk, c, at);
      sector := cache.ReadBlock(Block(sb.dev, secno));
      SameOnDisk(sb, old(cache.disk), cache.disk);
    }

    method ClusterWrite(c: nat, off: nat, bytes: seq<Byte>) returns (ok: bool)
      requires Valid() && Cluster(sb, c)
      modifies cache
      ensures Valid() && ok == (off + |bytes| <= ClusSize(sb)) && c in old(V()).data && |old(V()).data[c]| == ClusSize(sb)
      ensures V() == if ok then old(V()).(data := old(V()).data[c := Patch(old(V()).data[c], off, bytes)]) else old(V())
      ensures Img() == if ok then Put(old(Img()), ClusterPlace(sb, c) + off, bytes) else old(Img())
    {
      hide BufferCache.Valid, DiskView, Quiet, SuperOk, OnDisk, CopiesOk, SecNo, SecOff, DataWritten, VolOf, ClusSize, ImageOf, Put, ClusterPlace;
      ghost var d := cache.View();
      VolData(sb, d, c);
      if off + |bytes| > ClusSize(sb) { return false; }
      var secno, secoff := SecNo(sb, c, off), SecOff(off);
      DataWriteStart(sb, d, c, off);
      PutNothing(Img(), ClusterPlace(sb, c) + off);
      var i, n := 0, |bytes|;
      while i < n
        invariant i <= n && cache.Valid() && Quiet(cache.groups) && OnDisk(sb, cache.disk)
        invariant DataWritten(sb, d, cache.View(), c, off, bytes[..i]) && Img() == Put(old(Img()), ClusterPlace(sb, c) + off, bytes[..i])
        invariant i < n ==> secno == SecNo(sb, c, off + i) && secoff == SecOff(off + i)
      {
        var len := if BUF_SIZE - secoff < n - i then BUF_SIZE - secoff else n - i;
        WriteSector(d, c, off, bytes[..i], bytes[i..i + len], secno, secoff);
        assert bytes[..i] + bytes[i..i + len] == bytes[..i + len];
        PutTwice(old(Img()), ClusterPlace(sb, c) + off, bytes[..i], bytes[i..i + len]);
        NextSector(sb, c, off + i, len);
        i := i + len;
        secno, secoff := secno + 1, 0;
      }
      assert bytes[..n] == bytes;
      DataWriteDone(sb, d, cache.View(), c, off, bytes);
      ok := true;
    }

    /** One round of clusterWrite's loop. */
    method WriteSector(ghost d: Disk, ghost c: nat, ghost off: nat, ghost done: seq<Byte>, bytes: seq<Byte>, secno: nat, secoff: nat)
      requires cache.Valid() && Quiet(cache.groups) && OnDisk(sb, cache.disk) && SuperOk(sb) && Cluster(sb, c)
      requires DataWritten(sb, d, cache.View(), c, off, done) && off + |done| < ClusSize(sb) && secoff + |bytes| <= BUF_SIZE
      requires secno == SecNo(sb, c, off + |done|) && secoff == SecOff(off + |done|)
      modifies cache
      ensures cache.Valid() && Quiet(cache.groups) && OnDisk(sb, cache.disk)
      ensures DataWritten(sb, d, cache.View(), c, off, done + bytes)
      ensures Img() == Put(old(Img()), ClusterPlace(sb, c) + off + |done|, bytes)
    {
      hide CacheOk, LruOk, DiskView, Quiet, DataWritten, OnDisk, SuperOk, ImageOf, Put, ClusterPlace;
      DataOnDisk(sb, cache.disk, c, off + |done|);
      ViewKeys(cache.groups, cache.disk);
      DataWriteStep(sb, d, cache.View(), c, off, done, bytes);
      ClusterAddress(sb, c, off + |done|);
      SplicePut(sb.dev, cache.View(), secno, secoff, bytes);
      cache.UpdateBlock(Block(sb.dev, secno), secoff, bytes);
      SameOnDisk(sb, old(cache.disk), cache.disk);
    }

    /** clusterZero: the sectors are not read before they are overwritten. */
    method ClusterZero(c: nat)
      requires Valid() && Cluster(sb, c)
      modifies cache
      ensures Valid() && V() == old(V()).(data := old(V()).data[c := Zeros(ClusSize(sb))])
      ensures Img() == Put(old(Img()), ClusterPlace(sb, c), Zeros(sb.spc * 512))
    {
      hide CacheOk, LruOk, DiskView, Quiet, ClusterSec, DataWritten, CopiesOk, ImageOf, Put, ClusterPlace;
      ghost var d := cache.View();
      DataWriteStart(sb, d, c, 0);
      PutNothing(Img(), ClusterPlace(sb, c));
      var secno, i, n := ClusterSec(sb, c), 0, ClusSize(sb);
      while i < n
        invariant 0 <= i <= n && i % BUF_SIZE == 0 && secno == ClusterSec(sb, c) + i / BUF_SIZE
        invariant cache.Valid() && Quiet(cache.groups) && OnDisk(sb, cache.disk)
        invariant DataWritten(sb, d, cache.View(), c, 0, Zeros(i)) && Img() == Put(old(Img()), ClusterPlace(sb, c), Zeros(i))
        decreases n - i
      {
        DataOnDisk(sb, cache.disk, c, i);
        ViewKeys(cache.groups, cache.disk);
        ZeroStep(sb, d, cache.View(), c, i);
        ZeroPut(sb, cache.View(), old(Img()), c, i);
        ghost var before := cache.disk;
        cache.ZeroBlock(Block(sb.dev, secno));
        SameOnDisk(sb, before, cache.disk);
        i := i + BUF_SIZE;
        secno := secno + 1;
      }
      DataWriteDone(sb, d, cache.View(), c, 0, Zeros(n));
      ZeroAll(VolOf(sb, d).data[c], n);
    }

    /** clusterAlloc: the first free cluster after prev, linked behind prev and zeroed. */
    method ClusterAlloc(prev: nat) returns (ok: bool, c: nat)
      requires Valid() && (prev == 0 || Cluster(sb, prev))
      modifies cache
      ensures Valid() && AllocFrom(sb, old(V()), prev) == if ok then Ok((V(), c)) else Panic
      ensures !ok ==> V() == old(V())
    {
      hide CacheOk, LruOk, DiskView, Quiet, OnDisk, CopiesOk, VolOf;
      ghost var v := V();
      VolKeys(sb, cache.View());
      c := if prev == 0 then 2 else prev + 1;
      while c < sb.dataClus + 2
        invariant 2 <= c && Valid() && V() == v && FirstFree(sb, v, if prev == 0 then 2 else prev + 1) == FirstFree(sb, v, c)
        decreases sb.dataClus + 2 - c
      {
        var known, w := FatRead(c);
        if w == 0 {
          if prev != 0 { ok := FatWrite(prev, c); }
          ok := FatWrite(c, FAT32_EOF);
          ClusterZero(c);
          return true, c;
        }
        c := c + 1;
      }
      return false, 0;
    }
  }

  lemma FatOnDisk(sb: Super, d: Disk, c: nat, k: nat)
    requires SuperOk(sb) && OnDisk(sb, d) && Cluster(sb, c) && k < sb.fatCnt
    ensures Block(sb.dev, FatSec(sb, c, k)) in d
  {
    FatSecRoom(sb, c, k);
  }

  lemma SameOnDisk(sb: Super, d: Disk, d': Disk)
    requires OnDisk(sb, d) && d'.Keys == d.Keys
    ensures OnDisk(sb, d')
  {
  }

  lemma FatWriteStart(sb: Super, d: Disk, c: nat, w: Word)
    ensures FatWritten(sb, d, d, c, w, 0) && EntriesStored(sb, ImageOf(sb.dev, d), ImageOf(sb.dev, d), c, w, 0)
  {
  }

  lemma DataWriteStart(sb: Super, d: Disk, c: nat, off: nat)
    requires Cluster(sb, c) && off <= ClusSize(sb)
    ensures DataWritten(sb, d, d, c, off, []) && DataWritten(sb, d, d, c, off, Zeros(0))
  {
    assert Patch(Data(sb, d, c), off, []) == Data(sb, d, c);
    assert Zeros(0) == [];
  }

  lemma ViewKeys(groups: seq<Group>, disk: Disk)
    ensures DiskView(groups, disk).Keys == disk.Keys
  {
  }

  lemma DataOnDisk(sb: Super, d: Disk, c: nat, at: nat)
    requires OnDisk(sb, d) && Cluster(sb, c) && at < ClusSize(sb)
    ensures Block(sb.dev, ClusterSec(sb, c) + at / BUF_SIZE) in d
  {
    OffsetRoom(sb, at);
    ClusterRoom(sb, c, at / BUF_SIZE);
  }

  /** The next sector starts where this one was used up. */
  lemma NextSector(sb: Super, c: nat, at: nat, len: nat)
    requires c >= 2 && SecOff(at) + len <= BUF_SIZE
    ensures SecOff(at) + len == BUF_SIZE ==> SecNo(sb, c, at + len) == SecNo(sb, c, at) + 1 && SecOff(at + len) == 0
  {
  }

  lemma ReadStep(sb: Super, d: Disk, c: nat, off: nat, i: nat, len: nat, sector: Sector)
    requires Cluster(sb, c) && off + i + len <= ClusSize(sb) && SecOff(off + i) + len <= BUF_SIZE && len > 0
    requires var b := Block(sb.dev, SecNo(sb, c, off + i)); b in d && d[b] == sector
    ensures var x := SecOff(off + i);
            Data(sb, d, c)[off..off + i] + sector[x..x + len] == Data(sb, d, c)[off..off + i + len]
  {
    hide SecNo, SecOff, Data, ClusSize;
    var data, from := Data(sb, d, c), SecOff(off + i);
    var new', old' := sector[from..from + len], data[off + i..off + i + len];
    forall x | 0 <= x < len ensures new'[x] == old'[x] {
      ReadByte(sb, d, c, off + i, x, sector);
    }
    assert new' == old';
    assert data[off..off + i] + old' == data[off..off + i + len];
  }

  lemma ReadByte(sb: Super, d: Disk, c: nat, at: nat, x: nat, sector: Sector)
    requires Cluster(sb, c) && at + x < ClusSize(sb) && SecOff(at) + x < BUF_SIZE
    requires var b := Block(sb.dev, SecNo(sb, c, at)); b in d && d[b] == sector
    ensures sector[SecOff(at) + x] == Data(sb, d, c)[at + x]
  {
    SameSector(at, x);
  }

  lemma SameSector(at: nat, x: nat)
    requires SecOff(at) + x < BUF_SIZE
    ensures (at + x) / BUF_SIZE == at / BUF_SIZE && (at + x) % BUF_SIZE == at % BUF_SIZE + x
  {
  }

  lemma VolData(sb: Super, d: Disk, c: nat)
    requires Cluster(sb, c)
    ensures c in VolOf(sb, d).data && VolOf(sb, d).data[c] == Data(sb, d, c)
  {
  }

  lemma ZeroStep(sb: Super, d: Disk, d1: Disk, c: nat, i: nat)
    requires SuperOk(sb) && Cluster(sb, c) && i % BUF_SIZE == 0 && i < ClusSize(sb) && DataWritten(sb, d, d1, c, 0, Zeros(i))
    requires Block(sb.dev, ClusterSec(sb, c) + i / BUF_SIZE) in d1
    ensures DataWritten(sb, d, WithSec(sb, d1, ClusterSec(sb, c) + i / BUF_SIZE, ZeroSector()), c, 0, Zeros(i + BUF_SIZE))
    ensures i + BUF_SIZE <= ClusSize(sb)
  {
    hide DataWritten;
    var s := ClusterSec(sb, c) + i / BUF_SIZE;
    DataWriteStep(sb, d, d1, c, 0, Zeros(i), Zeros(BUF_SIZE));
    assert Splice(SecAt(sb, d1, s), i % BUF_SIZE, Zeros(BUF_SIZE)) == ZeroSector();
    assert Zeros(i) + Zeros(BUF_SIZE) == Zeros(i + BUF_SIZE);
    OffsetRoom(sb, i);
    SectorRoom(sb, i / BUF_SIZE, 0, BUF_SIZE);
  }

  lemma ZeroPut(sb: Super, d: Disk, img: Image, c: nat, i: nat)
    requires Cluster(sb, c) && i % BUF_SIZE == 0 && Block(sb.dev, ClusterSec(sb, c) + i / BUF_SIZE) in d
    requires ImageOf(sb.dev, d) == Put(img, ClusterPlace(sb, c), Zeros(i))
    ensures ImageOf(sb.dev, d[Block(sb.dev, ClusterSec(sb, c) + i / BUF_SIZE) := ZeroSector()]) == Put(img, ClusterPlace(sb, c), Zeros(i + BUF_SIZE))
  {
    hide ImageOf, Put, ClusterSec, ClusterPlace;
    var s := ClusterSec(sb, c) + i / BUF_SIZE;
    ClusterAddress(sb, c, i);
    assert Splice(d[Block(sb.dev, s)], 0, Zeros(BUF_SIZE)) == ZeroSector();
    SplicePut(sb.dev, d, s, 0, Zeros(BUF_SIZE));
    PutTwice(img, ClusterPlace(sb, c), Zeros(i), Zeros(BUF_SIZE));
    assert Zeros(i) + Zeros(BUF_SIZE) == Zeros(i + BUF_SIZE);
  }

  lemma ViewOnDisk(sb: Super, groups: seq<Group>, disk: Disk)
    requires OnDisk(sb, disk)
    ensures OnDisk(sb, DiskView(groups, disk))
  {
    ViewKeys(groups, disk);
    SameOnDisk(sb, disk, DiskView(groups, disk));
  }

  lemma ZeroAll(s: seq<Byte>, n: nat)
    requires |s| == n
    ensures Patch(s, 0, Zeros(n)) == Zeros(n)
  {
  }

  lemma VolKeys(sb: Super, d: Disk)
    ensures forall x: nat :: x in VolOf(sb, d).fat <==> Cluster(sb, x)
    ensures forall x: nat :: x in VolOf(sb, d).data <==> Cluster(sb, x)
    ensures forall x: nat | Cluster(sb, x) :: |VolOf(sb, d).data[x]| == ClusSize(sb)
  {
  }
}
