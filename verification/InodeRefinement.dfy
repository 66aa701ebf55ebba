/** The inode manager refines a map from inode numbers to files. */
module InodeRefinement {
  import opened Options
  import opened Bytes
  import opened InodeLayout
  import opened InodeSpec
  import opened InodeOwnership

  datatype File = File(kind: nat, bytes: Bytes)

  function ByteAt(fs: Fs, i: nat, p: nat): Byte
    requires Shape(fs) && ValidInum(i) && p < MAXFILE * BLOCK_SIZE
  {
    var b := BlockOf(fs, i, p / BLOCK_SIZE);
    if DataId(b) then ReadBlock(fs, b)[p % BLOCK_SIZE] else 0
  }

  /** The bytes of a file, block by block. */
  function Contents(fs: Fs, i: nat): Bytes
    requires Shape(fs) && ValidInum(i) && fs.inodes[i].size <= MAXFILE * BLOCK_SIZE
  {
    seq(fs.inodes[i].size, p requires 0 <= p < fs.inodes[i].size => ByteAt(fs, i, p))
  }

  /** The files as a user of the inode manager sees them. */
  ghost function Files(fs: Fs): map<nat, File>
    requires Shape(fs) && Domain(fs)
  {
    map i: nat | 1 <= i <= INODE_NUM && Live(fs, i) :: FileOf(fs, i)
  }

  function FileOf(fs: Fs, i: nat): File
    requires Shape(fs) && ValidInum(i) && fs.inodes[i].size <= MAXFILE * BLOCK_SIZE
  {
    File(fs.inodes[i].kind, Contents(fs, i))
  }

  lemma FilesAre(fs: Fs, files: map<nat, File>)
    requires Shape(fs) && Domain(fs)
    requires forall i: nat :: i in files <==> Live(fs, i)
    requires forall i: nat :: Live(fs, i) ==> files[i] == FileOf(fs, i)
    ensures Files(fs) == files
  {
  }

  lemma UntouchedFile(fs: Fs, fs': Fs, i: nat)
    requires Shape(fs) && Shape(fs') && ValidInum(i) && fs.inodes[i].size <= MAXFILE * BLOCK_SIZE
    requires fs'.table == fs.table && fs'.data == fs.data
    requires fs'.inodes[i].kind == fs.inodes[i].kind && fs'.inodes[i].size == fs.inodes[i].size
    requires fs'.inodes[i].blocks == fs.inodes[i].blocks
    ensures FileOf(fs', i) == FileOf(fs, i)
  {
    assert forall p: nat :: p < fs.inodes[i].size ==> ByteAt(fs', i, p) == ByteAt(fs, i, p);
    assert Contents(fs', i) == Contents(fs, i);
  }

  // Writing.

  /** What the code can cope with: the root must not need the table, and no two
      live files may need it. */
  ghost predicate CanWrite(fs: Fs, i: nat, bytes: Bytes)
    requires Shape(fs)
  {
    && Live(fs, i) && |bytes| <= MAXFILE * BLOCK_SIZE
    && (BlockCount(|bytes|) > NDIRECT ==> i != 1 && TableFree(fs, i))
  }

  lemma OwnershipIgnoresData(fs: Fs, owner: Owners, data: seq<Block>)
    requires Inv(fs, owner) && |data| == DATA_BLOCKS
    ensures Inv(fs.(data := data), owner)
  {
    var fs' := fs.(data := data);
    assert forall j: nat :: Live(fs', j) <==> Live(fs, j);
    assert forall j: nat, m: nat :: Holds(fs', j, m) <==> Holds(fs, j, m);
    DomainLess(fs, fs');
    OwnedSame(fs, owner, fs');
  }

  predicate DistinctBlocks(fs: Fs, ino: WholeInode, n: nat)
    requires Shape(fs) && Fits(n)
  {
    && (forall k: nat :: k < n ==> DataId(BlockAt(fs, ino, k)))
    && (forall k: nat, m: nat :: k < m < n ==> BlockAt(fs, ino, k) != BlockAt(fs, ino, m))
  }

  /** Writing changes no block but those of the file. */
  lemma {:induction false} FillMisses(fs: Fs, ino: WholeInode, chunks: seq<Block>, k: nat, b: nat)
    requires Shape(fs) && Fits(|chunks|) && DataId(b)
    requires forall m: nat :: k <= m < |chunks| ==> BlockAt(fs, ino, m) != b
    ensures ReadBlock(Fill(fs, ino, chunks, k), b) == ReadBlock(fs, b)
    decreases |chunks| - k
  {
    if k < |chunks| {
      var fs' := WriteBlock(fs, BlockAt(fs, ino, k), chunks[k]);
      BlocksIgnoreData(fs, fs', ino, |chunks|);
      FillMisses(fs', ino, chunks, k + 1, b);
    }
  }

  /** Writing puts each chunk into its block. */
  lemma {:induction false} FillHits(fs: Fs, ino: WholeInode, chunks: seq<Block>, k: nat, m: nat)
    requires Shape(fs) && Fits(|chunks|) && DistinctBlocks(fs, ino, |chunks|) && k <= m < |chunks|
    ensures ReadBlock(Fill(fs, ino, chunks, k), BlockAt(fs, ino, m)) == chunks[m]
    decreases m - k
  {
    var fs' := WriteBlock(fs, BlockAt(fs, ino, k), chunks[k]);
    BlocksIgnoreData(fs, fs', ino, |chunks|);
    if k < m {
      FillHits(fs', ino, chunks, k + 1, m);
    } else {
      FillMisses(fs', ino, chunks, k + 1, BlockAt(fs, ino, k));
    }
  }

  lemma BlocksIgnoreData(fs: Fs, fs': Fs, ino: WholeInode, n: nat)
    requires Shape(fs) && Shape(fs') && Fits(n) && fs'.table == fs.table
    ensures forall k: nat :: k < n ==> BlockAt(fs', ino, k) == BlockAt(fs, ino, k)
    ensures DistinctBlocks(fs', ino, n) <==> DistinctBlocks(fs, ino, n)
  {
  }

  lemma ChunkBytes(bytes: Bytes, p: nat)
    requires p < |bytes|
    ensures p / BLOCK_SIZE < BlockCount(|bytes|)
    ensures Chunk(bytes, p / BLOCK_SIZE, BlockCount(|bytes|))[p % BLOCK_SIZE] == bytes[p]
  {
    CountFits(|bytes|);
  }

  lemma {:induction false} ResizeOwned(fs: Fs, owner: Owners, i: nat, n: nat) returns (owner': Owners)
    requires Inv(fs, owner) && Live(fs, i) && Fits(n)
    requires n > NDIRECT ==> i != 1 && TableFree(fs, i)
    ensures Fits(Count(fs, i))
    ensures Resize(fs, fs.inodes[i], n).Some? ==>
              var g := Resize(fs, fs.inodes[i], n).value;
              && Inv(Sized(g.fs, i, g.ino, n), owner')
              && g.fs.inodes == fs.inodes && g.fs.data == fs.data && g.ino == fs.inodes[i].(blocks := g.ino.blocks)
              && (n <= NDIRECT ==> g.fs.table == fs.table)
  {
    var ino, c := fs.inodes[i], Count(fs, i);
    CountFits(ino.size);
    if n < c {
      ShrinkOwned(fs, owner, i, n);
      owner' := Without(owner, i, n);
    } else {
      SameBlocks(fs, owner, i, ino.(size := c * BLOCK_SIZE));
      owner' := owner;
      GrowFrame(fs, ino, c, n);
      if Grow(fs, ino, c, n).Some? {
        owner' := GrowOwned(fs, owner, i, ino, c, n, Grow(fs, ino, c, n).value);
      }
    }
  }

  /** The blocks of one inode are distinct data blocks. */
  lemma OwnBlocksDistinct(fs: Fs, owner: Owners, i: nat, ino: WholeInode, n: nat)
    requires Shape(fs) && ValidInum(i) && Fits(n) && ino.kind != 0 && Inv(Sized(fs, i, ino, n), owner)
    ensures DistinctBlocks(fs, ino, n)
  {
    var z := Sized(fs, i, ino, n);
    assert Count(z, i) == n;
    forall k: nat | k < n
      ensures BlockAt(fs, ino, k) in owner && owner[BlockAt(fs, ino, k)] == (i, k)
    {
      assert Holds(z, i, k) && BlockOf(z, i, k) == BlockAt(fs, ino, k);
    }
  }

  /** A write keeps ownership exact. */
  lemma WriteOwned(fs: Fs, owner: Owners, i: nat, bytes: Bytes, now: U32) returns (owner': Owners)
    requires Inv(fs, owner) && CanWrite(fs, i, bytes)
    ensures Fits(Count(fs, i))
    ensures WriteFile(fs, i, bytes, now).Some? ==> Inv(WriteFile(fs, i, bytes, now).value, owner')
  {
    CountFits(|bytes|);
    var n := BlockCount(|bytes|);
    owner' := ResizeOwned(fs, owner, i, n);
    if Resize(fs, fs.inodes[i], n).Some? {
      var g := Resize(fs, fs.inodes[i], n).value;
      var ino := g.ino.(size := |bytes|);
      var filled := Fill(g.fs, ino, Chunks(bytes), 0);
      var z := Sized(g.fs, i, g.ino, n);
      OwnershipIgnoresData(z, owner', filled.data);
      SameBlocks(z.(data := filled.data), owner', i, ino.(atime := now, mtime := now, ctime := now));
      assert PutInode(z.(data := filled.data), i, ino.(atime := now, mtime := now, ctime := now))
             == PutInode(filled, i, ino.(atime := now, mtime := now, ctime := now));
    }
  }

  /** A write gives inode `i` exactly the bytes written. */
  lemma WriteReadsBack(fs: Fs, owner: Owners, i: nat, bytes: Bytes, now: U32)
    requires Inv(fs, owner) && CanWrite(fs, i, bytes) && Fits(Count(fs, i))
    requires WriteFile(fs, i, bytes, now).Some?
    ensures var fs' := WriteFile(fs, i, bytes, now).value;
            Shape(fs') && fs'.inodes[i].size == |bytes| && Contents(fs', i) == bytes
  {
    CountFits(|bytes|);
    var n := BlockCount(|bytes|);
    var owner' := ResizeOwned(fs, owner, i, n);
    var g, fs' := Resize(fs, fs.inodes[i], n).value, WriteFile(fs, i, bytes, now).value;
    OwnBlocksDistinct(g.fs, owner', i, g.ino, n);
    forall p: nat | p < |bytes|
      ensures Contents(fs', i)[p] == bytes[p]
    {
      FilledReadsBack(g, i, bytes, now, p);
    }
  }

  /** Making room for inode `i` leaves block `m` of inode `j` where it was. */
  lemma ResizeLeavesBlock(fs: Fs, g: Grown, i: nat, n: nat, j: nat, m: nat)
    requires Shape(fs) && Shape(g.fs) && ValidInum(i) && Fits(n) && j != i && Holds(fs, j, m)
    requires g.fs.inodes == fs.inodes && (n <= NDIRECT ==> g.fs.table == fs.table)
    requires n > NDIRECT ==> TableFree(fs, i)
    ensures Holds(Sized(g.fs, i, g.ino, n), j, m) && BlockOf(g.fs, j, m) == BlockOf(fs, j, m)
  {
    assert m >= NDIRECT ==> Large(fs, j);
  }

  /** No block of inode `i` is a block of inode `j`. */
  lemma BlocksApart(fs: Fs, owner: Owners, i: nat, ino: WholeInode, n: nat, j: nat, m: nat)
    requires Shape(fs) && ValidInum(i) && Fits(n) && ino.kind != 0 && Inv(Sized(fs, i, ino, n), owner)
    requires j != i && Holds(Sized(fs, i, ino, n), j, m)
    ensures DataId(BlockOf(fs, j, m)) && forall k: nat :: k < n ==> BlockAt(fs, ino, k) != BlockOf(fs, j, m)
  {
    var z := Sized(fs, i, ino, n);
    assert Count(z, i) == n && BlockOf(z, j, m) == BlockOf(fs, j, m);
    forall k: nat | k < n
      ensures BlockAt(fs, ino, k) in owner && owner[BlockAt(fs, ino, k)] == (i, k)
    {
      assert Holds(z, i, k) && BlockOf(z, i, k) == BlockAt(fs, ino, k);
    }
  }

  /** A write to inode `i` leaves block `m` of inode `j` where and what it was. */
  lemma WriteLeavesBlock(fs: Fs, owner: Owners, i: nat, bytes: Bytes, now: U32, j: nat, m: nat)
    requires Inv(fs, owner) && CanWrite(fs, i, bytes) && Fits(Count(fs, i))
    requires WriteFile(fs, i, bytes, now).Some? && j != i && Holds(fs, j, m)
    ensures var fs' := WriteFile(fs, i, bytes, now).value;
            && Shape(fs') && fs'.inodes[j] == fs.inodes[j]
            && DataId(BlockOf(fs, j, m)) && BlockOf(fs', j, m) == BlockOf(fs, j, m)
            && ReadBlock(fs', BlockOf(fs, j, m)) == ReadBlock(fs, BlockOf(fs, j, m))
  {
    CountFits(|bytes|);
    var n := BlockCount(|bytes|);
    var owner' := ResizeOwned(fs, owner, i, n);
    var g := Resize(fs, fs.inodes[i], n).value;
    ResizeLeavesBlock(fs, g, i, n, j, m);
    BlocksApart(g.fs, owner', i, g.ino, n, j, m);
    FilledLeavesBlock(g, i, bytes, now, j, m);
  }

  lemma FilledLeavesBlock(g: Grown, i: nat, bytes: Bytes, now: U32, j: nat, m: nat)
    requires Shape(g.fs) && ValidInum(i) && ValidInum(j) && j != i && m < MAXFILE
    requires Fits(BlockCount(|bytes|)) && |bytes| <= MAXFILE * BLOCK_SIZE && DataId(BlockOf(g.fs, j, m))
    requires forall k: nat :: k < BlockCount(|bytes|) ==> BlockAt(g.fs, g.ino, k) != BlockOf(g.fs, j, m)
    ensures var fs' := FinishWrite(g, i, bytes, now);
            && fs'.inodes[j] == g.fs.inodes[j] && BlockOf(fs', j, m) == BlockOf(g.fs, j, m)
            && ReadBlock(fs', BlockOf(g.fs, j, m)) == ReadBlock(g.fs, BlockOf(g.fs, j, m))
  {
    var ino := g.ino.(size := |bytes|);
    assert forall k: nat :: k < BlockCount(|bytes|) ==> BlockAt(g.fs, ino, k) == BlockAt(g.fs, g.ino, k);
    FillMisses(g.fs, ino, Chunks(bytes), 0, BlockOf(g.fs, j, m));
  }

  lemma FilledReadsBack(g: Grown, i: nat, bytes: Bytes, now: U32, p: nat)
    requires Shape(g.fs) && ValidInum(i) && |bytes| <= MAXFILE * BLOCK_SIZE && p < |bytes|
    requires Fits(BlockCount(|bytes|)) && DistinctBlocks(g.fs, g.ino, BlockCount(|bytes|))
    ensures ByteAt(FinishWrite(g, i, bytes, now), i, p) == bytes[p]
  {
    var ino := g.ino.(size := |bytes|);
    assert forall k: nat :: k < BlockCount(|bytes|) ==> BlockAt(g.fs, ino, k) == BlockAt(g.fs, g.ino, k);
    ChunkBytes(bytes, p);
    FillHits(g.fs, ino, Chunks(bytes), 0, p / BLOCK_SIZE);
    assert BlockOf(FinishWrite(g, i, bytes, now), i, p / BLOCK_SIZE) == BlockAt(g.fs, ino, p / BLOCK_SIZE);
  }

  lemma SameContents(fs: Fs, fs': Fs, j: nat)
    requires Shape(fs) && Shape(fs') && Live(fs, j) && fs.inodes[j].size <= MAXFILE * BLOCK_SIZE
    requires fs'.inodes[j].size == fs.inodes[j].size
    requires forall m: nat :: Holds(fs, j, m) ==>
               && DataId(BlockOf(fs, j, m)) && BlockOf(fs', j, m) == BlockOf(fs, j, m)
               && ReadBlock(fs', BlockOf(fs, j, m)) == ReadBlock(fs, BlockOf(fs, j, m))
    ensures Contents(fs', j) == Contents(fs, j)
  {
    CountFits(fs.inodes[j].size);
    forall p: nat | p < fs.inodes[j].size
      ensures Contents(fs', j)[p] == Contents(fs, j)[p]
    {
      assert Holds(fs, j, p / BLOCK_SIZE);
    }
  }

  lemma WriteLeavesOthers(fs: Fs, owner: Owners, i: nat, bytes: Bytes, now: U32, j: nat)
    requires Inv(fs, owner) && CanWrite(fs, i, bytes) && Fits(Count(fs, i))
    requires WriteFile(fs, i, bytes, now).Some? && ValidInum(j) && j != i
    ensures var fs' := WriteFile(fs, i, bytes, now).value;
            && Shape(fs') && fs'.inodes[j] == fs.inodes[j]
            && (Live(fs, j) ==> Contents(fs', j) == Contents(fs, j))
  {
    var fs' := WriteFile(fs, i, bytes, now).value;
    CountFits(|bytes|);
    var owner' := ResizeOwned(fs, owner, i, BlockCount(|bytes|));
    if Live(fs, j) {
      forall m: nat | Holds(fs, j, m)
        ensures && DataId(BlockOf(fs, j, m)) && BlockOf(fs', j, m) == BlockOf(fs, j, m)
                && ReadBlock(fs', BlockOf(fs, j, m)) == ReadBlock(fs, BlockOf(fs, j, m))
      {
        WriteLeavesBlock(fs, owner, i, bytes, now, j, m);
      }
      SameContents(fs, fs', j);
    }
  }

  lemma OneFileChanged(fs: Fs, fs': Fs, i: nat, file: File)
    requires Shape(fs) && Domain(fs) && Shape(fs') && Domain(fs') && ValidInum(i)
    requires Live(fs', i) && fs'.inodes[i].kind == file.kind && Contents(fs', i) == file.bytes
    requires forall j: nat :: ValidInum(j) && j != i ==> fs'.inodes[j] == fs.inodes[j]
    requires forall j: nat :: Live(fs, j) && j != i ==> Contents(fs', j) == Contents(fs, j)
    ensures Files(fs') == Files(fs)[i := file]
  {
    FilesAre(fs', Files(fs)[i := file]);
  }

  /** A write that does not run out of blocks replaces one file in the map. */
  lemma WriteRefines(fs: Fs, owner: Owners, i: nat, bytes: Bytes, now: U32) returns (owner': Owners)
    requires Inv(fs, owner) && CanWrite(fs, i, bytes) && Fits(Count(fs, i))
    requires WriteFile(fs, i, bytes, now).Some?
    ensures Inv(WriteFile(fs, i, bytes, now).value, owner')
    ensures Files(WriteFile(fs, i, bytes, now).value) == Files(fs)[i := File(fs.inodes[i].kind, bytes)]
  {
    var fs' := WriteFile(fs, i, bytes, now).value;
    owner' := WriteOwned(fs, owner, i, bytes, now);
    WriteReadsBack(fs, owner, i, bytes, now);
    WrittenKind(fs, owner, i, bytes, now);
    forall j: nat | ValidInum(j) && j != i
      ensures fs'.inodes[j] == fs.inodes[j]
      ensures Live(fs, j) ==> Contents(fs', j) == Contents(fs, j)
    {
      WriteLeavesOthers(fs, owner, i, bytes, now, j);
    }
    OneFileChanged(fs, fs', i, File(fs.inodes[i].kind, bytes));
  }

  lemma WrittenKind(fs: Fs, owner: Owners, i: nat, bytes: Bytes, now: U32)
    requires Inv(fs, owner) && CanWrite(fs, i, bytes) && Fits(Count(fs, i)) && WriteFile(fs, i, bytes, now).Some?
    ensures WriteFile(fs, i, bytes, now).value.inodes[i].kind == fs.inodes[i].kind
  {
    CountFits(|bytes|);
    var _ := ResizeOwned(fs, owner, i, BlockCount(|bytes|));
  }
}
