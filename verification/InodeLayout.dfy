/** The disk layout and the inode record (inode_manager.h). */
module InodeLayout {
  import opened Bytes

  const DISK_SIZE := 1024 * 1024 * 16
  const BLOCK_SIZE := 512
  const BLOCK_NUM := DISK_SIZE / BLOCK_SIZE
  const INODE_NUM := 1024
  const IPB := 1
  const BPB := BLOCK_SIZE * 8
  const NDIRECT := 100
  const NINDIRECT := BLOCK_SIZE / 4
  const MAXFILE := NDIRECT + NINDIRECT

  /** The block of inode `i`. */
  function IBlock(i: nat): nat {
    BLOCK_NUM / BPB + i / IPB + 3
  }

  /** The first block that is handed out for data. */
  const DATA_START := 1036
  const DATA_BLOCKS := BLOCK_NUM - DATA_START

  type Block = b: Bytes | |b| == BLOCK_SIZE witness seq(BLOCK_SIZE, i => 0)

  const ZERO_BLOCK: Block := seq(BLOCK_SIZE, i => 0)

  predicate ValidInum(i: nat) {
    1 <= i <= INODE_NUM
  }

  /** Block 0, the inode table and the data region are pairwise disjoint. */
  lemma LayoutDisjoint(i: nat, j: nat)
    requires ValidInum(i) && ValidInum(j)
    ensures DATA_START == IBlock(INODE_NUM) + 1
    ensures 0 < IBlock(i) < DATA_START < BLOCK_NUM
    ensures IBlock(i) == IBlock(j) <==> i == j
    ensures RECORD_SIZE <= BLOCK_SIZE && 4 * NINDIRECT == BLOCK_SIZE
    ensures BLOCK_NUM == 32768 && IBlock(i) == 11 + i && NDIRECT == 100 && MAXFILE == 228
  {
  }

  /** `struct inode`. */
  datatype Inode = Inode(kind: U16, size: U32, atime: U32, mtime: U32, ctime: U32, blocks: seq<U32>)

  type WholeInode = ino: Inode | |ino.blocks| == NDIRECT + 1 witness NO_INODE

  const NO_INODE := Inode(0, 0, 0, 0, 0, seq(NDIRECT + 1, i => 0))

  /** The block array starts after a 2-byte kind, 2 bytes of padding and four words. */
  const HEADER_SIZE := 20
  const RECORD_SIZE := HEADER_SIZE + 4 * (NDIRECT + 1)

  function Header(ino: Inode): (b: Bytes)
    ensures |b| == HEADER_SIZE
  {
    ToBytes(ino.kind, 2) + [0, 0] + ToBytes(ino.size, 4)
    + ToBytes(ino.atime, 4) + ToBytes(ino.mtime, 4) + ToBytes(ino.ctime, 4)
  }

  /** The block with the record written over its start. */
  function StoreInode(b: Block, ino: WholeInode): Block {
    Header(ino) + Words(ino.blocks) + b[RECORD_SIZE..]
  }

  function LoadInode(b: Block): WholeInode {
    Inode(U16At(b, 0), U32At(b, 4), U32At(b, 8), U32At(b, 12), U32At(b, 16),
          seq(NDIRECT + 1, i requires 0 <= i <= NDIRECT => U32At(b, HEADER_SIZE + 4 * i)))
  }

  lemma LoadStored(b: Block, ino: WholeInode)
    ensures LoadInode(StoreInode(b, ino)) == ino
  {
    var s := StoreInode(b, ino);
    assert s[0..2] == ToBytes(ino.kind, 2);
    U16RoundTrip(s, 0, ino.kind);
    assert s[4..8] == ToBytes(ino.size, 4);
    U32RoundTrip(s, 4, ino.size);
    assert s[8..12] == ToBytes(ino.atime, 4);
    U32RoundTrip(s, 8, ino.atime);
    assert s[12..16] == ToBytes(ino.mtime, 4);
    U32RoundTrip(s, 12, ino.mtime);
    assert s[16..20] == ToBytes(ino.ctime, 4);
    U32RoundTrip(s, 16, ino.ctime);
    forall i | 0 <= i <= NDIRECT
      ensures U32At(s, HEADER_SIZE + 4 * i) == ino.blocks[i]
    {
      StoredWord(b, ino, i);
    }
    assert LoadInode(s).blocks == ino.blocks;
  }

  /** Where the fields of a stored record are; the rest of the block is as it was. */
  lemma StoredAt(b: Block, ino: WholeInode)
    ensures var s := StoreInode(b, ino);
            && U16At(s, 0) == ino.kind && U32At(s, 4) == ino.size
            && U32At(s, 8) == ino.atime && U32At(s, 12) == ino.mtime && U32At(s, 16) == ino.ctime
            && (forall i :: 0 <= i <= NDIRECT ==> U32At(s, 20 + 4 * i) == ino.blocks[i])
            && s[424..] == b[424..]
  {
    LoadStored(b, ino);
    var s := StoreInode(b, ino);
    assert forall i :: 0 <= i <= NDIRECT ==> U32At(s, HEADER_SIZE + 4 * i) == LoadInode(s).blocks[i];
  }

  lemma StoredWord(b: Block, ino: WholeInode, i: nat)
    requires i <= NDIRECT
    ensures U32At(StoreInode(b, ino), HEADER_SIZE + 4 * i) == ino.blocks[i]
  {
    var s, at := StoreInode(b, ino), HEADER_SIZE + 4 * i;
    WordsAt(ino.blocks, i);
    assert s[at..at + 4] == Words(ino.blocks)[4 * i..4 * i + 4];
    U32RoundTrip(s, at, ino.blocks[i]);
  }

  lemma ZeroAt(at: nat)
    requires at + 4 <= BLOCK_SIZE
    ensures U16At(ZERO_BLOCK, at) == 0 && U32At(ZERO_BLOCK, at) == 0
  {
    ZeroWord(ZERO_BLOCK[at..at + 2]);
    ZeroWord(ZERO_BLOCK[at..at + 4]);
  }

  lemma LoadZeros()
    ensures LoadInode(ZERO_BLOCK) == NO_INODE
    ensures LoadTable(ZERO_BLOCK) == seq(NINDIRECT, i => 0)
  {
    forall k | 0 <= k < NINDIRECT
      ensures U32At(ZERO_BLOCK, 4 * k) == 0
    {
      ZeroAt(4 * k);
    }
    ZeroAt(0);
    ZeroAt(4);
    ZeroAt(8);
    ZeroAt(12);
    ZeroAt(16);
    forall i | 0 <= i <= NDIRECT
      ensures U32At(ZERO_BLOCK, HEADER_SIZE + 4 * i) == 0
    {
      ZeroAt(HEADER_SIZE + 4 * i);
    }
    assert LoadInode(ZERO_BLOCK).blocks == NO_INODE.blocks;
  }

  /** A block read as an array of block ids. */
  function LoadTable(b: Block): seq<U32> {
    seq(NINDIRECT, i requires 0 <= i < NINDIRECT => U32At(b, 4 * i))
  }

  function StoreWord(b: Block, i: nat, v: U32): Block
    requires i < NINDIRECT
  {
    b[..4 * i] + ToBytes(v, 4) + b[4 * i + 4..]
  }

  lemma TableUpdated(b: Block, i: nat, v: U32)
    requires i < NINDIRECT
    ensures LoadTable(StoreWord(b, i, v)) == LoadTable(b)[i := v]
  {
    var s := StoreWord(b, i, v);
    forall k | 0 <= k < NINDIRECT
      ensures LoadTable(s)[k] == LoadTable(b)[i := v][k]
    {
      if k == i {
        assert s[4 * i..4 * i + 4] == ToBytes(v, 4);
        U32RoundTrip(s, 4 * i, v);
      } else {
        assert s[4 * k..4 * k + 4] == b[4 * k..4 * k + 4];
      }
    }
  }
}
