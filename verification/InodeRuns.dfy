/** Runs of the inode manager against runs of a plain map, and where they part. */
module InodeRuns {
  import opened Options
  import opened Bytes
  import opened InodeLayout
  import opened InodeSpec
  import opened InodeOwnership
  import opened InodeRefinement

  // Reading.

  lemma {:induction false} ReadBlocksAt(fs: Fs, ino: WholeInode, k: nat, n: nat, p: nat)
    requires Shape(fs) && Fits(n) && k <= n && p < (n - k) * BLOCK_SIZE
    requires forall j :: k <= j < n ==> DataId(BlockAt(fs, ino, j))
    ensures |ReadBlocks(fs, ino, k, n)| == (n - k) * BLOCK_SIZE
    ensures k + p / BLOCK_SIZE < n
    ensures ReadBlocks(fs, ino, k, n)[p] == ReadBlock(fs, BlockAt(fs, ino, k + p / BLOCK_SIZE))[p % BLOCK_SIZE]
    decreases n - k
  {
    if p < BLOCK_SIZE {
      if k + 1 < n {
        ReadBlocksAt(fs, ino, k + 1, n, 0);
      }
    } else {
      ReadBlocksAt(fs, ino, k + 1, n, p - BLOCK_SIZE);
    }
  }

  /** What read_file assembles from the blocks, cut to size, is the file. */
  lemma ReadsContents(fs: Fs, owner: Owners, i: nat)
    requires Inv(fs, owner) && Live(fs, i)
    ensures Fits(Count(fs, i))
    ensures forall j :: 0 <= j < Count(fs, i) ==> DataId(BlockAt(fs, fs.inodes[i], j))
    ensures var blocks := ReadBlocks(fs, fs.inodes[i], 0, Count(fs, i));
            |blocks| >= fs.inodes[i].size && blocks[..fs.inodes[i].size] == Contents(fs, i)
  {
    var ino, n := fs.inodes[i], Count(fs, i);
    CountFits(ino.size);
    forall j: nat | j < n
      ensures DataId(BlockAt(fs, ino, j))
    {
      assert Holds(fs, i, j) && BlockOf(fs, i, j) in owner;
    }
    if n > 0 {
      ReadBlocksAt(fs, ino, 0, n, 0);
    }
    forall p: nat | p < ino.size
      ensures ReadBlocks(fs, ino, 0, n)[p] == Contents(fs, i)[p]
    {
      ReadBlocksAt(fs, ino, 0, n, p);
    }
  }

  lemma SameFiles(fs: Fs, fs': Fs)
    requires Shape(fs) && Domain(fs) && Shape(fs') && Domain(fs') && fs'.data == fs.data && fs'.table == fs.table
    requires forall j: nat :: ValidInum(j) ==>
               && fs'.inodes[j].kind == fs.inodes[j].kind && fs'.inodes[j].size == fs.inodes[j].size
               && fs'.inodes[j].blocks == fs.inodes[j].blocks
    ensures Files(fs') == Files(fs)
  {
    forall j: nat | Live(fs, j)
      ensures FileOf(fs', j) == FileOf(fs, j)
    {
      UntouchedFile(fs, fs', j);
    }
    FilesAre(fs', Files(fs));
  }

  lemma TouchRefines(fs: Fs, owner: Owners, i: nat, now: U32)
    requires Inv(fs, owner) && Live(fs, i)
    ensures Inv(TouchRead(fs, i, now), owner) && Files(TouchRead(fs, i, now)) == Files(fs)
  {
    SameBlocks(fs, owner, i, fs.inodes[i].(atime := now));
    SameFiles(fs, TouchRead(fs, i, now));
  }

  // Allocation and removal.

  lemma TakeRefines(fs: Fs, owner: Owners, i: nat, kind: U16, now: U32)
    requires Inv(fs, owner) && 2 <= i <= INODE_NUM && fs.inodes[i].kind == 0 && kind != 0
    ensures Inv(TakeInode(fs, i, kind, now), owner)
    ensures Files(TakeInode(fs, i, kind, now)) == Files(fs)[i := File(kind, [])]
  {
    var fs' := TakeInode(fs, i, kind, now);
    assert Count(fs', i) == 0;
    forall j: nat | ValidInum(j) && j != i
      ensures fs'.inodes[j] == fs.inodes[j] && Live(fs', j) == Live(fs, j) && Count(fs', j) == Count(fs, j)
      ensures Live(fs, j) ==> Contents(fs', j) == Contents(fs, j)
    {
      if Live(fs, j) {
        UntouchedFile(fs, fs', j);
      }
    }
    assert forall j: nat :: Live(fs', j) && Large(fs', j) ==> Live(fs, j) && Large(fs, j);
    OwnedSame(fs, owner, fs');
    OneFileChanged(fs, fs', i, File(kind, []));
  }

  lemma TrimFrame(fs: Fs, ino: WholeInode, k: nat, n: nat)
    requires Shape(fs) && Fits(n)
    ensures var t := Trim(fs, ino, k, n); t.inodes == fs.inodes && t.table == fs.table && t.data == fs.data
  {
  }

  lemma OneFileRemoved(fs: Fs, fs': Fs, i: nat)
    requires Shape(fs) && Domain(fs) && Shape(fs') && Domain(fs') && ValidInum(i) && !Live(fs', i)
    requires fs'.table == fs.table && fs'.data == fs.data
    requires forall j: nat :: ValidInum(j) && j != i ==> fs'.inodes[j] == fs.inodes[j]
    ensures Files(fs') == Files(fs) - {i}
  {
    forall j: nat | Live(fs, j) && j != i
      ensures FileOf(fs', j) == FileOf(fs, j)
    {
      UntouchedFile(fs, fs', j);
    }
    FilesAre(fs', Files(fs) - {i});
  }

  lemma RemoveRefines(fs: Fs, owner: Owners, i: nat)
    requires Inv(fs, owner) && Live(fs, i) && Fits(Count(fs, i))
    ensures Inv(RemoveFile(fs, i), Without(owner, i, 0)) && Files(RemoveFile(fs, i)) == Files(fs) - {i}
  {
    RemoveOwned(fs, owner, i);
    TrimFrame(fs, fs.inodes[i], 0, Count(fs, i));
    OneFileRemoved(fs, RemoveFile(fs, i), i);
  }

  // Running out of blocks.

  lemma {:induction false} Counting(used: set<nat>, from: nat)
    requires from <= BLOCK_NUM && forall b :: b in used ==> from <= b < BLOCK_NUM
    ensures |used| <= BLOCK_NUM - from
    ensures |used| == BLOCK_NUM - from <==> forall b: nat :: from <= b < BLOCK_NUM ==> b in used
    decreases BLOCK_NUM - from
  {
    if from == BLOCK_NUM {
      assert used == {};
    } else {
      Counting(used - {from}, from + 1);
      assert forall b: nat :: from + 1 <= b < BLOCK_NUM ==> (b in used <==> b in used - {from});
      if from in used {
        assert used == (used - {from}) + {from};
      } else {
        assert used == used - {from};
      }
    }
  }

  predicate InRegion(used: set<nat>) {
    forall b :: b in used ==> DataId(b)
  }

  lemma FullIff(used: set<nat>)
    requires InRegion(used)
    ensures |used| <= DATA_BLOCKS
    ensures FirstFree(used, DATA_START).None? <==> |used| == DATA_BLOCKS
  {
    Counting(used, DATA_START);
  }

  lemma {:induction false} GrowFailsIff(fs: Fs, ino: WholeInode, k: nat, n: nat)
    requires Shape(fs) && Fits(n) && k <= n && InRegion(fs.used)
    ensures Grow(fs, ino, k, n).None? <==> |fs.used| + n - k > DATA_BLOCKS
    decreases n - k
  {
    FullIff(fs.used);
    if k < n && FirstFree(fs.used, DATA_START).Some? {
      var g := Attach(fs, ino, k, FirstFree(fs.used, DATA_START).value);
      GrowFailsIff(g.fs, g.ino, k + 1, n);
    }
  }

  /** A write makes the server exit exactly when there are not enough free blocks. */
  lemma WriteRunsOutIff(fs: Fs, owner: Owners, i: nat, bytes: Bytes, now: U32)
    requires Inv(fs, owner) && Live(fs, i) && Fits(Count(fs, i)) && |bytes| <= MAXFILE * BLOCK_SIZE
    ensures WriteFile(fs, i, bytes, now).None? <==> |fs.used| - Count(fs, i) + BlockCount(|bytes|) > DATA_BLOCKS
  {
    var n, c := BlockCount(|bytes|), Count(fs, i);
    CountFits(|bytes|);
    FullIff(fs.used);
    if n >= c {
      GrowFailsIff(fs, fs.inodes[i], c, n);
    }
  }

  // The shared table.

  /** No block belongs to two places. */
  ghost predicate Exclusive(fs: Fs)
    requires Shape(fs)
  {
    forall i: nat, k: nat, j: nat, m: nat ::
      Holds(fs, i, k) && Holds(fs, j, m) && BlockOf(fs, i, k) == BlockOf(fs, j, m) ==> i == j && k == m
  }

  lemma WriteFrame(fs: Fs, i: nat, bytes: Bytes, now: U32)
    requires Shape(fs) && ValidInum(i) && Fits(Count(fs, i)) && |bytes| <= MAXFILE * BLOCK_SIZE
    requires WriteFile(fs, i, bytes, now).Some?
    ensures var fs' := WriteFile(fs, i, bytes, now).value;
            && Shape(fs') && fs'.inodes[i].size == |bytes| && fs'.inodes[i].kind == fs.inodes[i].kind
            && forall j: nat :: ValidInum(j) && j != i ==> fs'.inodes[j] == fs.inodes[j]
  {
    CountFits(|bytes|);
    GrowFrame(fs, fs.inodes[i], Count(fs, i), BlockCount(|bytes|));
  }

  /** All inodes but the root keep their indirect ids in block 0, so that a second
      large file overwrites those of the first.  A write leaves every block with one
      place exactly when the new contents need no table or no other file has it. */
  lemma WriteKeepsExclusiveIff(fs: Fs, owner: Owners, i: nat, bytes: Bytes, now: U32)
    requires Inv(fs, owner) && Live(fs, i) && i != 1 && Fits(Count(fs, i)) && |bytes| <= MAXFILE * BLOCK_SIZE
    requires WriteFile(fs, i, bytes, now).Some?
    ensures Shape(WriteFile(fs, i, bytes, now).value)
    ensures Exclusive(WriteFile(fs, i, bytes, now).value) <==> BlockCount(|bytes|) <= NDIRECT || TableFree(fs, i)
  {
    var fs' := WriteFile(fs, i, bytes, now).value;
    WriteFrame(fs, i, bytes, now);
    CountFits(|bytes|);
    if BlockCount(|bytes|) <= NDIRECT || TableFree(fs, i) {
      var owner' := WriteOwned(fs, owner, i, bytes, now);
    } else {
      var j: nat :| Live(fs, j) && j != i && Large(fs, j);
      assert Holds(fs', i, NDIRECT) && Holds(fs', j, NDIRECT);
      assert BlockOf(fs', i, NDIRECT) == fs'.table[0] == BlockOf(fs', j, NDIRECT);
    }
  }

  /** Two live inodes, neither the root, that are both large read the same bytes in
      their first indirect block. */
  lemma LargeFilesOverlap(fs: Fs, i: nat, j: nat, p: nat)
    requires Shape(fs) && Live(fs, i) && Live(fs, j) && i != 1 && j != 1 && Large(fs, i) && Large(fs, j)
    requires NDIRECT * BLOCK_SIZE <= p < (NDIRECT + 1) * BLOCK_SIZE
    ensures BlockOf(fs, i, NDIRECT) == BlockOf(fs, j, NDIRECT) && ByteAt(fs, i, p) == ByteAt(fs, j, p)
  {
    assert p / BLOCK_SIZE == NDIRECT;
  }

  // Runs.

  datatype Op = Alloc(kind: U16) | Write(i: nat, bytes: Bytes) | Read(i: nat) | Remove(i: nat)

  datatype Result = Number(i: nat) | Data(bytes: Bytes) | Done

  /** What callers must stick to; it can be told from the files alone. */
  ghost predicate Allowed(files: map<nat, File>, op: Op) {
    match op
    case Alloc(kind) => 1 <= kind <= 3
    case Write(i, bytes) =>
      && i in files && |bytes| <= MAXFILE * BLOCK_SIZE
      && (BlockCount(|bytes|) > NDIRECT ==>
            i != 1 && forall j :: j in files && j != i ==> BlockCount(|files[j].bytes|) <= NDIRECT)
    case Read(i) => i in files
    case Remove(i) => i in files
  }

  datatype Outcome<T> = Outcome(state: T, result: Result)

  /** The same operations on a plain map. */
  ghost function MapStep(files: map<nat, File>, op: Op): Option<Outcome<map<nat, File>>>
    requires Allowed(files, op)
  {
    match op
    case Alloc(kind) =>
      (match FirstFreeNumber(files, 2)
       case None => None
       case Some(i) => Some(Outcome(files[i := File(kind, [])], Number(i))))
    case Write(i, bytes) => Some(Outcome(files[i := File(files[i].kind, bytes)], Done))
    case Read(i) => Some(Outcome(files, Data(files[i].bytes)))
    case Remove(i) => Some(Outcome(files - {i}, Done))
  }

  /** The least number from `i` on that no file has. */
  function FirstFreeNumber(files: map<nat, File>, i: nat): (r: Option<nat>)
    ensures r.Some? ==> i <= r.value <= INODE_NUM && r.value !in files
    ensures r.Some? ==> forall n :: i <= n < r.value ==> n in files
    ensures r.None? ==> forall n :: i <= n <= INODE_NUM ==> n in files
    decreases INODE_NUM + 1 - i
  {
    if i > INODE_NUM then None else if i !in files then Some(i) else FirstFreeNumber(files, i + 1)
  }

  /** The inode manager: `None` where the program exits. */
  ghost function DiskStep(fs: Fs, op: Op, now: U32): Option<Outcome<Fs>>
    requires Shape(fs) && Domain(fs) && Allowed(Files(fs), op)
  {
    match op
    case Alloc(kind) =>
      (match FirstFreeInode(fs, 2)
       case None => None
       case Some(i) => Some(Outcome(TakeInode(fs, i, kind, now), Number(i))))
    case Write(i, bytes) =>
      LiveFits(fs, op);
      (match WriteFile(fs, i, bytes, now)
       case None => None
       case Some(fs') => Some(Outcome(fs', Done)))
    case Read(i) =>
      LiveFits(fs, op);
      var n := Count(fs, i);
      var blocks := if forall j :: 0 <= j < n ==> DataId(BlockAt(fs, fs.inodes[i], j))
                    then ReadBlocks(fs, fs.inodes[i], 0, n) else [];
      var bytes := if fs.inodes[i].size <= |blocks| then blocks[..fs.inodes[i].size] else [];
      Some(Outcome(TouchRead(fs, i, now), Data(bytes)))
    case Remove(i) =>
      LiveFits(fs, op);
      Some(Outcome(RemoveFile(fs, i), Done))
  }

  lemma {:induction false} FreeNumbersAgree(fs: Fs, i: nat)
    requires Shape(fs) && Domain(fs) && 1 <= i
    ensures FirstFreeInode(fs, i) == FirstFreeNumber(Files(fs), i)
    decreases INODE_NUM + 1 - i
  {
    if i <= INODE_NUM && fs.inodes[i].kind != 0 {
      FreeNumbersAgree(fs, i + 1);
    }
  }

  lemma AllowedWrite(fs: Fs, i: nat, bytes: Bytes)
    requires Shape(fs) && Domain(fs) && Allowed(Files(fs), Write(i, bytes))
    ensures CanWrite(fs, i, bytes)
  {
    forall j: nat | Live(fs, j) && j != i && BlockCount(|bytes|) > NDIRECT
      ensures !Large(fs, j)
    {
      assert j in Files(fs);
    }
  }

  lemma LiveFits(fs: Fs, op: Op)
    requires Shape(fs) && Domain(fs) && Allowed(Files(fs), op) && !op.Alloc?
    ensures Live(fs, op.i) && Fits(Count(fs, op.i))
  {
    CountFits(fs.inodes[op.i].size);
  }

  /** One operation: the disk does what the map does, or it is full. */
  lemma StepRefines(fs: Fs, owner: Owners, op: Op, now: U32) returns (owner': Owners)
    requires Inv(fs, owner) && Allowed(Files(fs), op)
    ensures match DiskStep(fs, op, now)
            case Some(o) => Inv(o.state, owner') && MapStep(Files(fs), op) == Some(Outcome(Files(o.state), o.result))
            case None => || (op.Alloc? && MapStep(Files(fs), op).None?)
                         || (op.Write? && |fs.used| - Count(fs, op.i) + BlockCount(|op.bytes|) > DATA_BLOCKS)
  {
    owner' := owner;
    if !op.Alloc? {
      LiveFits(fs, op);
    }
    match op {
      case Alloc(kind) =>
        FreeNumbersAgree(fs, 2);
        if FirstFreeInode(fs, 2).Some? {
          TakeRefines(fs, owner, FirstFreeInode(fs, 2).value, kind, now);
        }
      case Write(i, bytes) =>
        AllowedWrite(fs, i, bytes);
        WriteRunsOutIff(fs, owner, i, bytes, now);
        if WriteFile(fs, i, bytes, now).Some? {
          owner' := WriteRefines(fs, owner, i, bytes, now);
        }
      case Read(i) =>
        ReadsContents(fs, owner, i);
        TouchRefines(fs, owner, i, now);
      case Remove(i) =>
        RemoveRefines(fs, owner, i);
        owner' := Without(owner, i, 0);
    }
  }

  ghost predicate AllowedRun(files: map<nat, File>, ops: seq<Op>)
    decreases |ops|
  {
    ops == [] || (Allowed(files, ops[0]) &&
                  (MapStep(files, ops[0]).Some? ==> AllowedRun(MapStep(files, ops[0]).value.state, ops[1..])))
  }

  ghost function MapRun(files: map<nat, File>, ops: seq<Op>): Option<(map<nat, File>, seq<Result>)>
    requires AllowedRun(files, ops)
    decreases |ops|
  {
    if ops == [] then Some((files, []))
    else
      match MapStep(files, ops[0])
      case None => None
      case Some(o) =>
        match MapRun(o.state, ops[1..])
        case None => None
        case Some(rest) => Some((rest.0, [o.result] + rest.1))
  }

  /** The run of the disk, as a relation, with the clock as it may be at each step. */
  ghost predicate DiskRun(fs: Fs, ops: seq<Op>, nows: seq<U32>, fs': Fs, results: seq<Result>)
    requires |nows| == |ops|
    decreases |ops|
  {
    if ops == [] then fs' == fs && results == []
    else
      && Shape(fs) && Domain(fs) && Allowed(Files(fs), ops[0])
      && var o := DiskStep(fs, ops[0], nows[0]);
         o.Some? && results != [] && o.value.result == results[0]
         && DiskRun(o.value.state, ops[1..], nows[1..], fs', results[1..])
  }

  /** Every run of the disk has the results of the same run of the map, and ends with
      its files; ownership of blocks is exact at the end. */
  lemma {:induction false} RunRefines(fs: Fs, owner: Owners, ops: seq<Op>, nows: seq<U32>, fs': Fs,
                                      results: seq<Result>)
      returns (owner': Owners)
    requires Inv(fs, owner) && |nows| == |ops| && AllowedRun(Files(fs), ops) && DiskRun(fs, ops, nows, fs', results)
    ensures Inv(fs', owner') && MapRun(Files(fs), ops) == Some((Files(fs'), results))
    decreases |ops|
  {
    owner' := owner;
    if ops != [] {
      var o := DiskStep(fs, ops[0], nows[0]).value;
      owner' := StepRefines(fs, owner, ops[0], nows[0]);
      owner' := RunRefines(o.state, owner', ops[1..], nows[1..], fs', results[1..]);
      assert [results[0]] + results[1..] == results;
    }
  }

  lemma FormatFiles(root: WholeInode, now: U32)
    ensures Inv(Format(root, now), map[]) && Files(Format(root, now)) == map[1 := File(1, [])]
  {
    FormatOwned(root, now);
    var fs := Format(root, now);
    assert forall i: nat :: Live(fs, i) <==> i == 1;
    FilesAre(fs, map[1 := File(1, [])]);
  }

  /** Every run from a formatted disk, whatever was in memory for the root record:
      the results are those of a map that starts with an empty root directory, no
      block belongs to two places, the used blocks are those of live inodes, and every
      inode but the root still points to block 0 for its table. */
  lemma DiskRefinesMap(root: WholeInode, now: U32, ops: seq<Op>, nows: seq<U32>, fs: Fs, results: seq<Result>)
    requires |nows| == |ops| && AllowedRun(map[1 := File(1, [])], ops)
    requires DiskRun(Format(root, now), ops, nows, fs, results)
    ensures Shape(fs) && Domain(fs) && Exclusive(fs)
    ensures MapRun(map[1 := File(1, [])], ops) == Some((Files(fs), results))
    ensures forall b :: b in fs.used <==> exists i: nat, k: nat :: Holds(fs, i, k) && BlockOf(fs, i, k) == b
    ensures forall i: nat :: ValidInum(i) && i != 1 ==> fs.inodes[i].blocks[NDIRECT] == 0
  {
    FormatFiles(root, now);
    var owner := RunRefines(Format(root, now), map[], ops, nows, fs, results);
    forall b | b in fs.used
      ensures exists i: nat, k: nat :: Holds(fs, i, k) && BlockOf(fs, i, k) == b
    {
      assert Holds(fs, owner[b].0, owner[b].1) && BlockOf(fs, owner[b].0, owner[b].1) == b;
    }
  }

  // Two large files.

  const LARGE := (NDIRECT + 1) * BLOCK_SIZE

  lemma LargeCount()
    ensures BlockCount(LARGE) == NDIRECT + 1 && LARGE <= MAXFILE * BLOCK_SIZE
  {
  }

  /** The second of two files that grow past the direct blocks takes over the first
      one's table. */
  lemma SecondLargeShares(fs: Fs, i: nat, j: nat, a: Bytes, b: Bytes, now: U32)
    requires Inv(fs, map[]) && Live(fs, i) && Live(fs, j) && 1 < i && 1 < j && i != j
    requires Count(fs, i) == Count(fs, j) == 0 && TableFree(fs, i) && |a| == |b| == LARGE
    ensures WriteFile(fs, i, a, now).Some?
    ensures var fs' := WriteFile(fs, i, a, now).value;
            && Shape(fs') && Count(fs', j) == 0 && WriteFile(fs', j, b, now).Some?
            && Shape(WriteFile(fs', j, b, now).value) && !Exclusive(WriteFile(fs', j, b, now).value)
  {
    LargeCount();
    WriteRunsOutIff(fs, map[], i, a, now);
    var owner := WriteOwned(fs, map[], i, a, now);
    WriteFrame(fs, i, a, now);
    var fs' := WriteFile(fs, i, a, now).value;
    assert Live(fs', i) && Large(fs', i) && !TableFree(fs', j);
    FewUsed(fs, i, a, now);
    WriteRunsOutIff(fs', owner, j, b, now);
    WriteKeepsExclusiveIff(fs', owner, j, b, now);
  }

  /** From a formatted disk: two new files, each then written 101 blocks.  Both end
      up with the same block at the end. */
  lemma TwoLargeFilesShare(root: WholeInode, now: U32, a: Bytes, b: Bytes)
    requires |a| == |b| == LARGE
    ensures FirstFreeInode(Format(root, now), 2) == Some(2)
    ensures FirstFreeInode(TakeInode(Format(root, now), 2, 2, now), 2) == Some(3)
    ensures var fs := TakeInode(TakeInode(Format(root, now), 2, 2, now), 3, 2, now);
            && Count(fs, 2) == 0 && WriteFile(fs, 2, a, now).Some?
            && var fs' := WriteFile(fs, 2, a, now).value;
               && Shape(fs') && Count(fs', 3) == 0 && WriteFile(fs', 3, b, now).Some?
               && Shape(WriteFile(fs', 3, b, now).value) && !Exclusive(WriteFile(fs', 3, b, now).value)
  {
    var fs0 := Format(root, now);
    FormatOwned(root, now);
    TakeRefines(fs0, map[], 2, 2, now);
    var fs1 := TakeInode(fs0, 2, 2, now);
    TakeRefines(fs1, map[], 3, 2, now);
    var fs := TakeInode(fs1, 3, 2, now);
    SecondLargeShares(fs, 2, 3, a, b, now);
  }

  lemma {:induction false} GrowUses(fs: Fs, ino: WholeInode, k: nat, n: nat)
    requires Shape(fs) && Fits(n) && k <= n && Grow(fs, ino, k, n).Some?
    ensures |Grow(fs, ino, k, n).value.fs.used| == |fs.used| + n - k
    decreases n - k
  {
    if k < n {
      var g := Attach(fs, ino, k, FirstFree(fs.used, DATA_START).value);
      GrowUses(g.fs, g.ino, k + 1, n);
    }
  }

  lemma FewUsed(fs: Fs, i: nat, a: Bytes, now: U32)
    requires Shape(fs) && ValidInum(i) && fs.used == {} && Count(fs, i) == 0 && |a| == LARGE
    requires WriteFile(fs, i, a, now).Some?
    ensures |WriteFile(fs, i, a, now).value.used| == NDIRECT + 1
  {
    LargeCount();
    GrowUses(fs, fs.inodes[i], 0, NDIRECT + 1);
  }
}
