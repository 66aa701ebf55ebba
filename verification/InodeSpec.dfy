/**
 What the inode manager (inode_manager.cc) does to the parts of the disk: the
 inode table, block 0 read as a table of block ids, and the data blocks.  A run
 out of blocks or inodes, where the program exits, is `None`.
 */
module InodeSpec {
  import opened Options
  import opened Bytes
  import opened InodeLayout

  datatype Fs = Fs(inodes: seq<WholeInode>, table: seq<U32>, data: seq<Block>, used: set<nat>)

  predicate Shape(fs: Fs) {
    |fs.inodes| == INODE_NUM + 1 && |fs.table| == NINDIRECT && |fs.data| == DATA_BLOCKS
  }

  predicate DataId(b: nat) {
    DATA_START <= b < BLOCK_NUM
  }

  function BlockCount(size: nat): nat {
    size / BLOCK_SIZE + if size % BLOCK_SIZE == 0 then 0 else 1
  }

  predicate Fits(n: nat) {
    n <= MAXFILE
  }

  /** The id of block `k` of a file.  Ids from the indirect part are taken from
      block 0, which is where every inode but the root keeps pointing. */
  function BlockAt(fs: Fs, ino: WholeInode, k: nat): nat
    requires Shape(fs) && k < MAXFILE
  {
    if k < NDIRECT then ino.blocks[k] else fs.table[k - NDIRECT]
  }

  /** First fit. */
  function FirstFree(used: set<nat>, from: nat): (r: Option<nat>)
    ensures r.Some? ==> from <= r.value < BLOCK_NUM && r.value !in used
    ensures r.Some? ==> forall b :: from <= b < r.value ==> b in used
    ensures r.None? ==> forall b :: from <= b < BLOCK_NUM ==> b in used
    decreases BLOCK_NUM - from
  {
    if from >= BLOCK_NUM then None
    else if from !in used then Some(from)
    else FirstFree(used, from + 1)
  }

  datatype Grown = Grown(fs: Fs, ino: WholeInode)

  /** Block `k` of a file gets the newly allocated block `b`. */
  function Attach(fs: Fs, ino: WholeInode, k: nat, b: nat): Grown
    requires Shape(fs) && k < MAXFILE && DataId(b)
  {
    var taken := fs.(used := fs.used + {b});
    if k < NDIRECT then Grown(taken, ino.(blocks := ino.blocks[k := b]))
    else Grown(taken.(table := fs.table[k - NDIRECT := b]), ino)
  }

  /** Allocation of the blocks from `k` up to `n`. */
  function Grow(fs: Fs, ino: WholeInode, k: nat, n: nat): (r: Option<Grown>)
    requires Shape(fs) && Fits(n)
    ensures r.Some? ==> Shape(r.value.fs)
    decreases n - k
  {
    if k >= n then Some(Grown(fs, ino))
    else
      match FirstFree(fs.used, DATA_START)
      case None => None
      case Some(b) =>
        var g := Attach(fs, ino, k, b);
        Grow(g.fs, g.ino, k + 1, n)
  }

  /** Freeing of the blocks from `k` up to `n`. */
  function Trim(fs: Fs, ino: WholeInode, k: nat, n: nat): (r: Fs)
    requires Shape(fs) && Fits(n)
    ensures r == fs.(used := r.used)
    decreases n - k
  {
    if k >= n then fs else Trim(fs.(used := fs.used - {BlockAt(fs, ino, k)}), ino, k + 1, n)
  }

  /** What block `k` of `n` is given: a slice of the bytes, the last one padded with zeros. */
  function Chunk(bytes: Bytes, k: nat, n: nat): Block
    requires k < n && BlockCount(|bytes|) == n
  {
    if k + 1 < n then bytes[BLOCK_SIZE * k..BLOCK_SIZE * k + BLOCK_SIZE]
    else bytes[BLOCK_SIZE * k..] + seq(BLOCK_SIZE * n - |bytes|, i => 0)
  }

  function WriteBlock(fs: Fs, b: nat, block: Block): (r: Fs)
    requires Shape(fs)
    ensures r == fs.(data := r.data) && Shape(r)
  {
    if DataId(b) then fs.(data := fs.data[b - DATA_START := block]) else fs
  }

  function Chunks(bytes: Bytes): (cs: seq<Block>)
    ensures |cs| == BlockCount(|bytes|)
  {
    var n := BlockCount(|bytes|);
    seq(n, k requires 0 <= k < n => Chunk(bytes, k, n))
  }

  /** Writing of the blocks from `k` on. */
  function Fill(fs: Fs, ino: WholeInode, chunks: seq<Block>, k: nat): (r: Fs)
    requires Shape(fs) && Fits(|chunks|)
    ensures r == fs.(data := r.data) && Shape(r)
    decreases |chunks| - k
  {
    if k >= |chunks| then fs
    else Fill(WriteBlock(fs, BlockAt(fs, ino, k), chunks[k]), ino, chunks, k + 1)
  }

  function PutInode(fs: Fs, i: nat, ino: WholeInode): Fs
    requires Shape(fs) && ValidInum(i)
  {
    fs.(inodes := fs.inodes[i := ino])
  }

  /** The space a file of `n` blocks needs in place of the one it has. */
  function Resize(fs: Fs, ino: WholeInode, n: nat): (r: Option<Grown>)
    requires Shape(fs) && Fits(BlockCount(ino.size)) && Fits(n)
    ensures r.Some? ==> Shape(r.value.fs)
  {
    if n < BlockCount(ino.size) then Some(Grown(Trim(fs, ino, n, BlockCount(ino.size)), ino))
    else Grow(fs, ino, BlockCount(ino.size), n)
  }

  /** `write_file`; `now` is what the clock says. */
  function WriteFile(fs: Fs, i: nat, bytes: Bytes, now: U32): Option<Fs>
    requires Shape(fs) && ValidInum(i) && Fits(BlockCount(fs.inodes[i].size)) && |bytes| <= MAXFILE * BLOCK_SIZE
  {
    match Resize(fs, fs.inodes[i], BlockCount(|bytes|))
    case None => None
    case Some(g) => Some(FinishWrite(g, i, bytes, now))
  }

  /** `write_file` once there is room. */
  function FinishWrite(g: Grown, i: nat, bytes: Bytes, now: U32): (r: Fs)
    requires Shape(g.fs) && ValidInum(i) && |bytes| <= MAXFILE * BLOCK_SIZE
    ensures Shape(r)
  {
    var ino := g.ino.(size := |bytes|);
    PutInode(Fill(g.fs, ino, Chunks(bytes), 0), i, ino.(atime := now, mtime := now, ctime := now))
  }

  function ReadBlock(fs: Fs, b: nat): Block
    requires Shape(fs) && DataId(b)
  {
    fs.data[b - DATA_START]
  }

  /** The blocks from `k` up to `n`, one after the other. */
  function ReadBlocks(fs: Fs, ino: WholeInode, k: nat, n: nat): Bytes
    requires Shape(fs) && Fits(n)
    requires forall j :: k <= j < n ==> DataId(BlockAt(fs, ino, j))
    decreases n - k
  {
    if k >= n then [] else ReadBlock(fs, BlockAt(fs, ino, k)) + ReadBlocks(fs, ino, k + 1, n)
  }

  /** One block more of those to be read has been read. */
  lemma NextBlockRead(fs: Fs, ino: WholeInode, k: nat, n: nat, bytes: Bytes)
    requires Shape(fs) && Fits(n) && k < n && forall j :: k <= j < n ==> DataId(BlockAt(fs, ino, j))
    ensures bytes + ReadBlocks(fs, ino, k, n) ==
            (bytes + ReadBlock(fs, BlockAt(fs, ino, k))) + ReadBlocks(fs, ino, k + 1, n)
  {
  }

  /** `read_file`: the time of access is set unless the file is empty. */
  function TouchRead(fs: Fs, i: nat, now: U32): Fs
    requires Shape(fs) && ValidInum(i)
  {
    if fs.inodes[i].size == 0 then fs else PutInode(fs, i, fs.inodes[i].(atime := now))
  }

  /** `remove_file`. */
  function RemoveFile(fs: Fs, i: nat): Fs
    requires Shape(fs) && ValidInum(i) && Fits(BlockCount(fs.inodes[i].size))
  {
    PutInode(Trim(fs, fs.inodes[i], 0, BlockCount(fs.inodes[i].size)), i, fs.inodes[i].(kind := 0))
  }

  /** The first free inode from `i` on. */
  function FirstFreeInode(fs: Fs, i: nat): (r: Option<nat>)
    requires Shape(fs)
    ensures r.Some? ==> i <= r.value <= INODE_NUM && fs.inodes[r.value].kind == 0
    decreases INODE_NUM + 1 - i
  {
    if i > INODE_NUM then None
    else if fs.inodes[i].kind == 0 then Some(i)
    else FirstFreeInode(fs, i + 1)
  }

  /** It passes over no free one. */
  lemma {:induction false} FirstFreeInodeIsLeast(fs: Fs, i: nat, j: nat)
    requires Shape(fs) && i <= j <= INODE_NUM && fs.inodes[j].kind == 0
    ensures FirstFreeInode(fs, i).Some? && FirstFreeInode(fs, i).value <= j
    decreases INODE_NUM + 1 - i
  {
    if fs.inodes[i].kind != 0 {
      FirstFreeInodeIsLeast(fs, i + 1, j);
    }
  }

  /** `alloc_inode` once it has found a free inode. */
  function TakeInode(fs: Fs, i: nat, kind: U16, now: U32): Fs
    requires Shape(fs) && ValidInum(i)
  {
    PutInode(fs, i, fs.inodes[i].(kind := kind, size := 0, atime := now))
  }

  datatype Attributes = Attributes(kind: U16, size: U32, atime: U32, mtime: U32, ctime: U32)

  /** `getattr`. */
  function GetAttributes(fs: Fs, i: nat): Attributes
    requires Shape(fs) && ValidInum(i)
  {
    var ino := fs.inodes[i];
    Attributes(ino.kind, ino.size, ino.atime, ino.mtime, ino.ctime)
  }

  /** A newly formatted disk.  The root record is written from a local variable of
      which only kind, size and access time have been set. */
  function Format(root: WholeInode, now: U32): Fs {
    var zero := Fs(seq(INODE_NUM + 1, i => NO_INODE), seq(NINDIRECT, i => 0), seq(DATA_BLOCKS, i => ZERO_BLOCK), {});
    PutInode(zero, 1, root.(kind := 1, size := 0, atime := now))
  }
}
