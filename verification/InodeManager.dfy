/**
 The inode manager in place: an array of blocks of bytes and a map of the blocks
 in use.  Its methods run the loops of inode_manager.cc; what they do is stated
 against `View`, which reads the inode table, block 0 and the data blocks off the
 bytes.
 */
module InodeManager {
  import opened Options
  import opened Bytes
  import opened InodeLayout
  import opened InodeSpec
  import opened InodeOwnership
  import opened InodeRefinement
  import opened InodeRuns

  class Manager {
    const blocks: array<Block>
    var usingBlocks: map<nat, bool>

    ghost predicate Sound()
      reads this
    {
      blocks.Length == BLOCK_NUM
    }

    ghost function Used(): set<nat>
      reads this
    {
      set b | b in usingBlocks && usingBlocks[b]
    }

    ghost function View(): (fs: Fs)
      requires Sound()
      reads this, blocks
      ensures Shape(fs)
    {
      Fs(seq(INODE_NUM + 1, i requires 0 <= i <= INODE_NUM reads blocks, this requires Sound() =>
               LoadInode(blocks[IBlock(i)])),
         LoadTable(blocks[0]), blocks[DATA_START..], Used())
    }

    /** Formatting; `root` is the uninitialised local variable that becomes the root. */
    constructor (root: WholeInode, now: U32)
      ensures Sound() && fresh(blocks)
      ensures View() == Format(root, now)
    {
      blocks := new Block[BLOCK_NUM](i => ZERO_BLOCK);
      usingBlocks := map[];
      new;
      LoadZeros();
      assert View().inodes == seq(INODE_NUM + 1, i => NO_INODE);
      assert View().data == seq(DATA_BLOCKS, i => ZERO_BLOCK);
      assert Used() == {};
      StoreInodeAt(1, root.(kind := 1, size := 0, atime := now));
    }

    method LoadInodeAt(i: nat) returns (ino: WholeInode)
      requires Sound() && ValidInum(i)
      ensures ino == View().inodes[i]
    {
      ino := LoadInode(blocks[IBlock(i)]);
    }

    method StoreInodeAt(i: nat, ino: WholeInode)
      requires Sound() && ValidInum(i)
      modifies blocks
      ensures Sound() && View() == PutInode(old(View()), i, ino)
    {
      ghost var before := View();
      var buf := blocks[IBlock(i)];
      blocks[IBlock(i)] := StoreInode(buf, ino);
      LoadStored(buf, ino);
      assert View().inodes == before.inodes[i := ino];
      assert View().data == before.data;
    }

    /** First fit over the data region; `None` is where the program exits. */
    method AllocBlock() returns (r: Option<nat>)
      requires Sound()
      modifies this`usingBlocks
      ensures Sound() && r == FirstFree(old(Used()), DATA_START)
      ensures View() == old(View()).(used := if r.Some? then old(Used()) + {r.value} else old(Used()))
    {
      var i := DATA_START;
      while i < BLOCK_NUM
        invariant DATA_START <= i <= BLOCK_NUM
        invariant FirstFree(Used(), i) == FirstFree(Used(), DATA_START)
        invariant usingBlocks == old(usingBlocks)
      {
        if i !in usingBlocks || !usingBlocks[i] {
          usingBlocks := usingBlocks[i := true];
          assert Used() == old(Used()) + {i};
          return Some(i);
        }
        i := i + 1;
      }
      return None;
    }

    method FreeBlock(b: nat)
      requires Sound()
      modifies this`usingBlocks
      ensures Sound() && View() == old(View()).(used := old(Used()) - {b})
    {
      usingBlocks := usingBlocks[b := false];
      assert Used() == old(Used()) - {b};
    }

    method BlockIdInInode(ino: WholeInode, k: nat) returns (b: nat)
      requires Sound() && k < MAXFILE && (k >= NDIRECT ==> ino.blocks[NDIRECT] == 0)
      ensures b == BlockAt(View(), ino, k)
    {
      if k < NDIRECT {
        return ino.blocks[k];
      }
      var table := blocks[ino.blocks[NDIRECT]];
      b := U32At(table, 4 * (k - NDIRECT));
    }

    /** The block is allocated and entered in the inode or in its table. */
    method AllocBlockInInode(ino: WholeInode, k: nat) returns (r: Option<WholeInode>)
      requires Sound() && k < MAXFILE && (k >= NDIRECT ==> ino.blocks[NDIRECT] == 0)
      modifies this`usingBlocks, blocks
      ensures Sound()
      ensures match FirstFree(old(Used()), DATA_START)
              case None => r.None?
              case Some(b) => var g := Attach(old(View()), ino, k, b); View() == g.fs && r == Some(g.ino)
    {
      ghost var before := View();
      var b := AllocBlock();
      if b.None? {
        return None;
      }
      if k < NDIRECT {
        return Some(ino.(blocks := ino.blocks[k := b.value]));
      }
      var table := blocks[ino.blocks[NDIRECT]];
      blocks[ino.blocks[NDIRECT]] := StoreWord(table, k - NDIRECT, b.value);
      TableUpdated(table, k - NDIRECT, b.value);
      assert View().inodes == before.inodes;
      assert View().data == before.data;
      return Some(ino);
    }

    method WriteData(b: nat, block: Block)
      requires Sound() && DataId(b)
      modifies blocks
      ensures Sound() && View() == WriteBlock(old(View()), b, block)
    {
      ghost var before := View();
      blocks[b] := block;
      assert View().inodes == before.inodes;
      assert View().data == before.data[b - DATA_START := block];
    }

    /** The table in block 0 is where this inode's indirect ids are, if it has any. */
    ghost predicate UsesTable(ino: WholeInode, n: nat) {
      n > NDIRECT ==> ino.blocks[NDIRECT] == 0
    }

    method FreeBlocks(ino: WholeInode, from: nat, n: nat)
      requires Sound() && Fits(n) && UsesTable(ino, n)
      modifies this`usingBlocks
      ensures Sound() && View() == Trim(old(View()), ino, from, n)
    {
      var k := from;
      while k < n
        invariant Sound() && from <= k
        invariant Trim(View(), ino, k, n) == Trim(old(View()), ino, from, n)
      {
        var b := BlockIdInInode(ino, k);
        FreeBlock(b);
        k := k + 1;
      }
    }

    method AllocBlocks(ino: WholeInode, from: nat, n: nat) returns (r: Option<WholeInode>)
      requires Sound() && Fits(n) && UsesTable(ino, n)
      modifies this`usingBlocks, blocks
      ensures Sound()
      ensures match Grow(old(View()), ino, from, n)
              case None => r.None?
              case Some(g) => View() == g.fs && r == Some(g.ino)
    {
      var k, cur := from, ino;
      while k < n
        invariant Sound() && from <= k && UsesTable(cur, n)
        invariant Grow(View(), cur, k, n) == Grow(old(View()), ino, from, n)
      {
        var next := AllocBlockInInode(cur, k);
        if next.None? {
          return None;
        }
        cur := next.value;
        k := k + 1;
      }
      return Some(cur);
    }

    method ContentOf(bytes: Bytes, k: nat, n: nat) returns (content: Block)
      requires k < n && n == BlockCount(|bytes|)
      ensures content == Chunks(bytes)[k]
    {
      if k + 1 < n {
        content := bytes[BLOCK_SIZE * k..BLOCK_SIZE * k + BLOCK_SIZE];
      } else {
        var padding := n * BLOCK_SIZE - |bytes|;
        var tail := BLOCK_SIZE - padding;
        assert BLOCK_SIZE * k + tail == |bytes|;
        content := bytes[BLOCK_SIZE * k..BLOCK_SIZE * k + tail] + seq(padding, i => 0);
      }
    }

    method WriteBlockInInode(ino: WholeInode, k: nat, content: Block)
      requires Sound() && k < MAXFILE && (k >= NDIRECT ==> ino.blocks[NDIRECT] == 0)
      requires DataId(BlockAt(View(), ino, k))
      modifies blocks
      ensures Sound() && View() == WriteBlock(old(View()), BlockAt(old(View()), ino, k), content)
    {
      var b := BlockIdInInode(ino, k);
      WriteData(b, content);
    }

    method WriteBlocks(ino: WholeInode, bytes: Bytes)
      requires Sound() && |bytes| <= MAXFILE * BLOCK_SIZE && Fits(BlockCount(|bytes|))
      requires UsesTable(ino, BlockCount(|bytes|))
      requires forall k: nat :: k < BlockCount(|bytes|) ==> DataId(BlockAt(View(), ino, k))
      modifies blocks
      ensures Sound() && View() == Fill(old(View()), ino, Chunks(bytes), 0)
    {
      var n, k := BlockCount(|bytes|), 0;
      ghost var before := View();
      while k < n
        invariant Sound() && k <= n
        invariant Fill(View(), ino, Chunks(bytes), k) == Fill(before, ino, Chunks(bytes), 0)
        invariant View().table == before.table
      {
        var content := ContentOf(bytes, k, n);
        assert BlockAt(View(), ino, k) == BlockAt(before, ino, k);
        assert DataId(BlockAt(before, ino, k));
        WriteBlockInInode(ino, k, content);
        k := k + 1;
      }
    }

    // The operations on the view.

    method FindFreeInode() returns (r: Option<nat>)
      requires Sound()
      ensures r == FirstFreeInode(View(), 2)
    {
      var i := 2;
      while i <= INODE_NUM
        invariant 2 <= i <= INODE_NUM + 1
        invariant FirstFreeInode(View(), 2) == FirstFreeInode(View(), i)
      {
        var ino := LoadInodeAt(i);
        if ino.kind == 0 {
          return Some(i);
        }
        i := i + 1;
      }
      return None;
    }

    method MakeRoom(ino: WholeInode, n: nat) returns (r: Option<WholeInode>)
      requires Sound() && Fits(BlockCount(ino.size)) && Fits(n)
      requires UsesTable(ino, n) && UsesTable(ino, BlockCount(ino.size))
      modifies this`usingBlocks, blocks
      ensures Sound()
      ensures match Resize(old(View()), ino, n)
              case None => r.None?
              case Some(g) => View() == g.fs && r == Some(g.ino)
    {
      var c := BlockCount(ino.size);
      if n < c {
        FreeBlocks(ino, n, c);
        r := Some(ino);
      } else {
        r := AllocBlocks(ino, c, n);
      }
    }

    method StoreBytes(i: nat, ino: WholeInode, bytes: Bytes, now: U32)
      requires Sound() && ValidInum(i) && |bytes| <= MAXFILE * BLOCK_SIZE && Fits(BlockCount(|bytes|))
      requires UsesTable(ino, BlockCount(|bytes|))
      requires forall k: nat :: k < BlockCount(|bytes|) ==> DataId(BlockAt(View(), ino, k))
      modifies blocks
      ensures Sound() && View() == FinishWrite(Grown(old(View()), ino), i, bytes, now)
    {
      var sized := ino.(size := |bytes|);
      assert forall k: nat :: k < BlockCount(|bytes|) ==> BlockAt(View(), sized, k) == BlockAt(View(), ino, k);
      WriteBlocks(sized, bytes);
      StoreInodeAt(i, sized.(atime := now, mtime := now, ctime := now));
    }

    method LoadBlocks(ino: WholeInode, n: nat) returns (bytes: Bytes)
      requires Sound() && Fits(n) && UsesTable(ino, n)
      requires forall j :: 0 <= j < n ==> DataId(BlockAt(View(), ino, j))
      ensures bytes == ReadBlocks(View(), ino, 0, n)
    {
      var k := 0;
      bytes := [];
      while k < n
        invariant k <= n
        invariant bytes + ReadBlocks(View(), ino, k, n) == ReadBlocks(View(), ino, 0, n)
      {
        var b := BlockIdInInode(ino, k);
        assert DataId(BlockAt(View(), ino, k));
        assert blocks[b] == ReadBlock(View(), b);
        NextBlockRead(View(), ino, k, n, bytes);
        bytes := bytes + blocks[b];
        k := k + 1;
      }
      assert bytes + [] == bytes;
    }

    // The operations of the inode manager.

    /** The first free inode from 2 on becomes an empty file; with none free the
        program exits. */
    method AllocInode(kind: U16, now: U32) returns (r: Option<nat>)
      requires Sound()
      modifies blocks
      ensures Sound() && r == FirstFreeInode(old(View()), 2)
      ensures View() == if r.Some? then TakeInode(old(View()), r.value, kind, now) else old(View())
    {
      r := FindFreeInode();
      if r.Some? {
        ResetInode(r.value, kind, now);
      }
    }

    method ResetInode(i: nat, kind: U16, now: U32)
      requires Sound() && ValidInum(i)
      modifies blocks
      ensures Sound() && View() == TakeInode(old(View()), i, kind, now)
    {
      var ino := LoadInodeAt(i);
      StoreInodeAt(i, ino.(kind := kind, size := 0, atime := now));
    }

    /** `ok` is false where the program exits for want of blocks. */
    method WriteFile(i: nat, bytes: Bytes, now: U32) returns (ok: bool)
      requires Sound() && Storable(View(), i, bytes)
      modifies this`usingBlocks, blocks
      ensures Sound()
      ensures match InodeSpec.WriteFile(old(View()), i, bytes, now)
              case None => !ok
              case Some(fs) => ok && View() == fs
    {
      var ino := LoadInodeAt(i);
      var grown := MakeRoom(ino, BlockCount(|bytes|));
      ok := grown.Some?;
      if ok {
        StoreBytes(i, grown.value, bytes, now);
      }
    }

    method ReadFile(i: nat, now: U32) returns (bytes: Bytes)
      requires Sound() && Readable(View(), i)
      modifies blocks
      ensures Sound() && View() == TouchRead(old(View()), i, now)
      ensures bytes == BytesOf(old(View()), i)
    {
      var ino := LoadInodeAt(i);
      if ino.size == 0 {
        return [];
      }
      bytes := LoadBlocks(ino, BlockCount(ino.size));
      ReadSize(View(), ino);
      bytes := bytes[..ino.size];
      StoreInodeAt(i, ino.(atime := now));
    }

    method GetAttr(i: nat) returns (a: Attributes)
      requires Sound() && ValidInum(i)
      ensures a == GetAttributes(View(), i)
      ensures a.kind == U16At(blocks[11 + i], 0) && a.size == U32At(blocks[11 + i], 4)
      ensures a.atime == U32At(blocks[11 + i], 8) && a.mtime == U32At(blocks[11 + i], 12)
      ensures a.ctime == U32At(blocks[11 + i], 16)
    {
      var ino := LoadInodeAt(i);
      a := Attributes(ino.kind, ino.size, ino.atime, ino.mtime, ino.ctime);
    }

    method RemoveFile(i: nat)
      requires Sound() && ValidInum(i) && TableInReach(View(), i, Count(View(), i))
      modifies this`usingBlocks, blocks
      ensures Sound() && View() == InodeSpec.RemoveFile(old(View()), i)
    {
      var ino := LoadInodeAt(i);
      var n := if ino.size == 0 then 0 else (ino.size - 1) / BLOCK_SIZE + 1;
      assert n == BlockCount(ino.size);
      FreeBlocks(ino, 0, n);
      StoreInodeAt(i, ino.(kind := 0));
    }
  }

  /** An inode can have `n` blocks: its indirect ids, if it needs any, are in block 0. */
  predicate TableInReach(fs: Fs, i: nat, n: nat)
    requires Shape(fs) && ValidInum(i)
  {
    Fits(n) && (n > NDIRECT ==> fs.inodes[i].blocks[NDIRECT] == 0)
  }

  /** What a write relies on: the blocks it comes to write are data blocks. */
  ghost predicate Storable(fs: Fs, i: nat, bytes: Bytes)
    requires Shape(fs)
  {
    && ValidInum(i) && |bytes| <= MAXFILE * BLOCK_SIZE
    && TableInReach(fs, i, Count(fs, i)) && TableInReach(fs, i, BlockCount(|bytes|))
    && match Resize(fs, fs.inodes[i], BlockCount(|bytes|))
       case None => true
       case Some(g) =>
         && (BlockCount(|bytes|) > NDIRECT ==> g.ino.blocks[NDIRECT] == 0)
         && forall k: nat :: k < BlockCount(|bytes|) ==> DataId(BlockAt(g.fs, g.ino, k))
  }

  ghost predicate Readable(fs: Fs, i: nat)
    requires Shape(fs)
  {
    && ValidInum(i) && TableInReach(fs, i, Count(fs, i))
    && forall j :: 0 <= j < Count(fs, i) ==> DataId(BlockAt(fs, fs.inodes[i], j))
  }

  lemma ReadSize(fs: Fs, ino: WholeInode)
    requires Shape(fs) && Fits(BlockCount(ino.size))
    requires forall j :: 0 <= j < BlockCount(ino.size) ==> DataId(BlockAt(fs, ino, j))
    ensures |ReadBlocks(fs, ino, 0, BlockCount(ino.size))| >= ino.size
  {
    CountFits(ino.size);
    if ino.size > 0 {
      ReadBlocksAt(fs, ino, 0, BlockCount(ino.size), 0);
    }
  }

  ghost function BytesOf(fs: Fs, i: nat): Bytes
    requires Shape(fs) && Readable(fs, i)
  {
    ReadSize(fs, fs.inodes[i]);
    ReadBlocks(fs, fs.inodes[i], 0, Count(fs, i))[..fs.inodes[i].size]
  }

  /** In every state with exact ownership the methods can be called for every live
      inode, with what its users may write, and reading gives the file. */
  lemma OperationsReady(fs: Fs, owner: Owners, i: nat, bytes: Bytes)
    requires Inv(fs, owner) && Live(fs, i)
    ensures TableInReach(fs, i, Count(fs, i)) && Readable(fs, i) && BytesOf(fs, i) == Files(fs)[i].bytes
    ensures CanWrite(fs, i, bytes) ==> Storable(fs, i, bytes)
  {
    ReadsContents(fs, owner, i);
    if CanWrite(fs, i, bytes) {
      CountFits(|bytes|);
      var n := BlockCount(|bytes|);
      var sized := ResizeOwned(fs, owner, i, n);
      if Resize(fs, fs.inodes[i], n).Some? {
        var g := Resize(fs, fs.inodes[i], n).value;
        OwnBlocksDistinct(g.fs, sized, i, g.ino, n);
        assert Sized(g.fs, i, g.ino, n).inodes[i].blocks == g.ino.blocks;
      }
    }
  }
}
