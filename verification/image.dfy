/**
 A device as one run of bytes, and where a FAT32 volume has its parts on it: the
 boot sector and the other reserved sectors, the copies of the table, the clusters
 ("FAT Data Structure" in Microsoft's FAT32 File System Specification).
 */
module DiskImage {
  import opened Words
  import opened Buffers

  type Image = imap<nat, Byte>

  ghost function ImageOf(dev: int, d: Disk): Image {
    imap i: nat | Block(dev, i / 512) in d :: d[Block(dev, i / 512)][i % 512]
  }

  /** Bytes stored from place at on. */
  ghost function Put(img: Image, at: nat, bytes: seq<Byte>): Image {
    imap i: nat | i in img :: if at <= i < at + |bytes| then bytes[i - at] else img[i]
  }

  ghost predicate HasByte(img: Image, i: nat, b: Byte) {
    i in img && img[i] == b
  }

  /** The image has the bytes from place at on. */
  ghost predicate Shows(img: Image, at: nat, bytes: seq<Byte>) {
    forall x {:trigger bytes[x]} | 0 <= x < |bytes| :: HasByte(img, at + x, bytes[x])
  }

  /** The little-endian word at a place. */
  ghost function WordIn(img: Image, at: nat): nat {
    if at in img && at + 1 in img && at + 2 in img && at + 3 in img
    then img[at] as int + 0x100 * (img[at + 1] as int) + 0x1_0000 * (img[at + 2] as int) + 0x100_0000 * (img[at + 3] as int)
    else 0
  }

  lemma InBlock(i: nat, s: nat, off: nat, len: nat)
    requires off + len <= 512
    ensures s * 512 + off <= i < s * 512 + off + len <==> i / 512 == s && off <= i % 512 < off + len
    ensures i / 512 == s ==> i - (s * 512 + off) == i % 512 - off
  {
  }

  /** Bytes spliced into a sector are bytes put into the image. */
  lemma SplicePut(dev: int, d: Disk, s: nat, off: nat, bytes: seq<Byte>)
    requires Block(dev, s) in d && off + |bytes| <= 512
    ensures ImageOf(dev, d[Block(dev, s) := Splice(d[Block(dev, s)], off, bytes)]) == Put(ImageOf(dev, d), s * 512 + off, bytes)
  {
    var b := Block(dev, s);
    var d' := d[b := Splice(d[b], off, bytes)];
    var img, img' := ImageOf(dev, d), ImageOf(dev, d');
    forall i: nat | i in img' ensures img'[i] == Put(img, s * 512 + off, bytes)[i] {
      InBlock(i, s, off, |bytes|);
    }
  }

  lemma PutTwice(img: Image, at: nat, a: seq<Byte>, b: seq<Byte>)
    ensures Put(Put(img, at, a), at + |a|, b) == Put(img, at, a + b)
  {
  }

  lemma PutNothing(img: Image, at: nat)
    ensures Put(img, at, []) == img
  {
  }

  lemma BlockIn(dev: int, d: Disk, s: nat, x: nat)
    requires Block(dev, s) in d && x < 512
    ensures HasByte(ImageOf(dev, d), s * 512 + x, d[Block(dev, s)][x])
  {
    assert (s * 512 + x) / 512 == s && (s * 512 + x) % 512 == x;
  }

  lemma BlockWord(dev: int, d: Disk, s: nat, x: nat)
    requires Block(dev, s) in d && x + 4 <= 512
    ensures var b := d[Block(dev, s)];
            WordIn(ImageOf(dev, d), s * 512 + x) == b[x] as int + 0x100 * (b[x + 1] as int) + 0x1_0000 * (b[x + 2] as int) + 0x100_0000 * (b[x + 3] as int)
  {
    hide ImageOf;
    BlockIn(dev, d, s, x);
    BlockIn(dev, d, s, x + 1);
    BlockIn(dev, d, s, x + 2);
    BlockIn(dev, d, s, x + 3);
  }
}
