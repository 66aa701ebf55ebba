/**
 What runs of the inode manager leave behind: a read returns what was last written,
 the times are those of the last operations, and the space after the end of a file is
 zero.
 */
module InodeHistory {
  import opened Options
  import opened Bytes
  import opened InodeLayout
  import opened InodeSpec
  import opened InodeOwnership
  import opened InodeRefinement
  import opened InodeRuns

  // The last bytes written.

  /** What is in `i` after an operation, if `b` was before: the bytes written to it, nothing
      if it has just been handed out, and otherwise what was there. */
  function BytesNext(b: Bytes, op: Op, result: Result, i: nat): Bytes {
    if op.Write? && op.i == i then op.bytes else if result == Number(i) then [] else b
  }

  /** What was last written to `i`. */
  function LastBytes(b: Bytes, ops: seq<Op>, results: seq<Result>, i: nat): Bytes
    requires |results| == |ops|
    decreases |ops|
  {
    if ops == [] then b else LastBytes(BytesNext(b, ops[0], results[0], i), ops[1..], results[1..], i)
  }

  lemma StepBytes(files: map<nat, File>, op: Op, i: nat, b: Bytes)
    requires Allowed(files, op) && MapStep(files, op).Some? && (i in files ==> files[i].bytes == b)
    ensures var o := MapStep(files, op).value; i in o.state ==> o.state[i].bytes == BytesNext(b, op, o.result, i)
  {
  }

  lemma {:induction false} MapReadsLast(files: map<nat, File>, ops: seq<Op>, k: nat, i: nat, b: Bytes)
    requires AllowedRun(files, ops) && MapRun(files, ops).Some? && k < |ops| && ops[k] == Read(i)
    requires i in files ==> files[i].bytes == b
    ensures var results := MapRun(files, ops).value.1;
            |results| == |ops| && results[k] == Data(LastBytes(b, ops[..k], results[..k], i))
    decreases |ops|
  {
    var o, results := MapStep(files, ops[0]).value, MapRun(files, ops).value.1;
    RunLength(files, ops);
    if k > 0 {
      StepBytes(files, ops[0], i, b);
      MapReadsLast(o.state, ops[1..], k - 1, i, BytesNext(b, ops[0], o.result, i));
      assert results[1..] == MapRun(o.state, ops[1..]).value.1;
      assert ops[..k][1..] == ops[1..][..k - 1] && results[..k][1..] == results[1..][..k - 1];
    }
  }

  lemma {:induction false} RunLength(files: map<nat, File>, ops: seq<Op>)
    requires AllowedRun(files, ops) && MapRun(files, ops).Some?
    ensures |MapRun(files, ops).value.1| == |ops|
    decreases |ops|
  {
    if ops != [] {
      RunLength(MapStep(files, ops[0]).value.state, ops[1..]);
    }
  }

  /** Every read, in every run from a formatted disk, returns what was last written to that
      inode since it was handed out, whatever was done to other inodes in between. */
  lemma DiskReadsLast(root: WholeInode, now: U32, ops: seq<Op>, nows: seq<U32>, fs: Fs, results: seq<Result>, k: nat)
    requires |nows| == |ops| && AllowedRun(map[1 := File(1, [])], ops)
    requires DiskRun(Format(root, now), ops, nows, fs, results)
    requires k < |ops| && ops[k].Read?
    ensures |results| == |ops| && results[k] == Data(LastBytes([], ops[..k], results[..k], ops[k].i))
  {
    DiskRefinesMap(root, now, ops, nows, fs, results);
    MapReadsLast(map[1 := File(1, [])], ops, k, ops[k].i, []);
  }

  // Attributes.

  /** Attributes of inode `i` after an operation of which `result` is the result. */
  function AttrNext(a: Attributes, op: Op, result: Result, i: nat, now: U32): Attributes {
    match op
    case Alloc(kind) => if result == Number(i) then a.(kind := kind, size := 0, atime := now) else a
    case Write(j, bytes) =>
      if j == i then Attributes(a.kind, |bytes| % 0x1_0000_0000, now, now, now) else a
    case Read(j) => if j == i && a.size != 0 then a.(atime := now) else a
    case Remove(j) => if j == i then a.(kind := 0) else a
  }

  lemma WriteAttr(fs: Fs, j: nat, bytes: Bytes, now: U32, i: nat)
    requires Shape(fs) && ValidInum(j) && Fits(Count(fs, j)) && |bytes| <= MAXFILE * BLOCK_SIZE && ValidInum(i)
    requires WriteFile(fs, j, bytes, now).Some?
    ensures var fs' := WriteFile(fs, j, bytes, now).value;
            && Shape(fs')
            && GetAttributes(fs', i) == if i == j then Attributes(fs.inodes[i].kind, |bytes|, now, now, now)
                                        else GetAttributes(fs, i)
  {
    WriteFrame(fs, j, bytes, now);
  }

  predicate AttrKept(fs: Fs, op: Op, now: U32, i: nat, o: Outcome<Fs>)
    requires Shape(fs) && ValidInum(i)
  {
    Shape(o.state) && GetAttributes(o.state, i) == AttrNext(GetAttributes(fs, i), op, o.result, i, now)
  }

  lemma AllocAttr(fs: Fs, kind: U16, now: U32, i: nat)
    requires Shape(fs) && Domain(fs) && Allowed(Files(fs), Alloc(kind)) && ValidInum(i)
    requires DiskStep(fs, Alloc(kind), now).Some?
    ensures AttrKept(fs, Alloc(kind), now, i, DiskStep(fs, Alloc(kind), now).value)
  {
  }

  lemma WriteStepAttr(fs: Fs, j: nat, bytes: Bytes, now: U32, i: nat)
    requires Shape(fs) && Domain(fs) && Allowed(Files(fs), Write(j, bytes)) && ValidInum(i)
    requires DiskStep(fs, Write(j, bytes), now).Some?
    ensures AttrKept(fs, Write(j, bytes), now, i, DiskStep(fs, Write(j, bytes), now).value)
  {
    LiveFits(fs, Write(j, bytes));
    WriteAttr(fs, j, bytes, now, i);
  }

  lemma ReadAttr(fs: Fs, j: nat, now: U32, i: nat)
    requires Shape(fs) && Domain(fs) && Allowed(Files(fs), Read(j)) && ValidInum(i)
    ensures AttrKept(fs, Read(j), now, i, DiskStep(fs, Read(j), now).value)
  {
    LiveFits(fs, Read(j));
  }

  lemma RemoveAttr(fs: Fs, j: nat, now: U32, i: nat)
    requires Shape(fs) && Domain(fs) && Allowed(Files(fs), Remove(j)) && ValidInum(i)
    ensures AttrKept(fs, Remove(j), now, i, DiskStep(fs, Remove(j), now).value)
  {
    LiveFits(fs, Remove(j));
  }

  lemma StepAttr(fs: Fs, op: Op, now: U32, i: nat)
    requires Shape(fs) && Domain(fs) && Allowed(Files(fs), op) && DiskStep(fs, op, now).Some? && ValidInum(i)
    ensures AttrKept(fs, op, now, i, DiskStep(fs, op, now).value)
  {
    match op {
      case Alloc(kind) => AllocAttr(fs, kind, now, i);
      case Write(j, bytes) => WriteStepAttr(fs, j, bytes, now, i);
      case Read(j) => ReadAttr(fs, j, now, i);
      case Remove(j) => RemoveAttr(fs, j, now, i);
    }
  }

  function LastAttr(a: Attributes, ops: seq<Op>, results: seq<Result>, nows: seq<U32>, i: nat): Attributes
    requires |results| == |ops| == |nows|
    decreases |ops|
  {
    if ops == [] then a
    else LastAttr(AttrNext(a, ops[0], results[0], i, nows[0]), ops[1..], results[1..], nows[1..], i)
  }

  /** After every run of the disk the attributes of each inode are what the operations on
      it, and their times, make them; operations on other inodes leave them alone. */
  lemma {:induction false} RunAttr(fs: Fs, ops: seq<Op>, nows: seq<U32>, fs': Fs, results: seq<Result>, i: nat)
    requires Shape(fs) && |nows| == |ops| && DiskRun(fs, ops, nows, fs', results) && ValidInum(i)
    ensures |results| == |ops| && Shape(fs')
    ensures GetAttributes(fs', i) == LastAttr(GetAttributes(fs, i), ops, results, nows, i)
    decreases |ops|
  {
    if ops != [] {
      StepAttr(fs, ops[0], nows[0], i);
      RunAttr(DiskStep(fs, ops[0], nows[0]).value.state, ops[1..], nows[1..], fs', results[1..], i);
    }
  }

  /** A file that was written last at `nows[k]` has that time of change. */
  lemma {:induction false} ChangedAt(a: Attributes, ops: seq<Op>, results: seq<Result>, nows: seq<U32>, i: nat, k: nat)
    requires |results| == |ops| == |nows| && k < |ops| && ops[k].Write? && ops[k].i == i
    requires forall m :: k < m < |ops| ==> !(ops[m].Write? && ops[m].i == i)
    ensures LastAttr(a, ops, results, nows, i).mtime == LastAttr(a, ops, results, nows, i).ctime == nows[k]
    decreases |ops|
  {
    var a' := AttrNext(a, ops[0], results[0], i, nows[0]);
    if k > 0 {
      ChangedAt(a', ops[1..], results[1..], nows[1..], i, k - 1);
    } else {
      TimesStay(a', ops[1..], results[1..], nows[1..], i);
    }
  }

  lemma {:induction false} TimesStay(a: Attributes, ops: seq<Op>, results: seq<Result>, nows: seq<U32>, i: nat)
    requires |results| == |ops| == |nows| && forall m :: 0 <= m < |ops| ==> !(ops[m].Write? && ops[m].i == i)
    ensures var a' := LastAttr(a, ops, results, nows, i); a'.mtime == a.mtime && a'.ctime == a.ctime
    decreases |ops|
  {
    if ops != [] {
      TimesStay(AttrNext(a, ops[0], results[0], i, nows[0]), ops[1..], results[1..], nows[1..], i);
    }
  }

  /** On a formatted disk the root is an empty directory of that time; its other times are
      what was in memory.  No other inode is in use. */
  lemma FormatAttr(root: WholeInode, now: U32, i: nat)
    requires ValidInum(i)
    ensures GetAttributes(Format(root, now), i) ==
            if i == 1 then Attributes(1, 0, now, root.mtime, root.ctime) else Attributes(0, 0, 0, 0, 0)
  {
  }

  // Padding.

  /** After a write the rest of the last block is zero. */
  lemma WritePads(fs: Fs, owner: Owners, i: nat, bytes: Bytes, now: U32, p: nat)
    requires Inv(fs, owner) && CanWrite(fs, i, bytes) && Fits(Count(fs, i))
    requires WriteFile(fs, i, bytes, now).Some?
    requires |bytes| <= p < BlockCount(|bytes|) * BLOCK_SIZE
    ensures p < MAXFILE * BLOCK_SIZE && ByteAt(WriteFile(fs, i, bytes, now).value, i, p) == 0
  {
    CountFits(|bytes|);
    var n := BlockCount(|bytes|);
    var owner' := ResizeOwned(fs, owner, i, n);
    var g := Resize(fs, fs.inodes[i], n).value;
    OwnBlocksDistinct(g.fs, owner', i, g.ino, n);
    FilledPads(g, i, bytes, now, p);
  }

  lemma FilledPads(g: Grown, i: nat, bytes: Bytes, now: U32, p: nat)
    requires Shape(g.fs) && ValidInum(i) && |bytes| <= MAXFILE * BLOCK_SIZE
    requires |bytes| <= p < BlockCount(|bytes|) * BLOCK_SIZE
    requires Fits(BlockCount(|bytes|)) && DistinctBlocks(g.fs, g.ino, BlockCount(|bytes|))
    ensures ByteAt(FinishWrite(g, i, bytes, now), i, p) == 0
  {
    var ino, n := g.ino.(size := |bytes|), BlockCount(|bytes|);
    assert forall k: nat :: k < n ==> BlockAt(g.fs, ino, k) == BlockAt(g.fs, g.ino, k);
    assert p / BLOCK_SIZE == n - 1;
    FillHits(g.fs, ino, Chunks(bytes), 0, n - 1);
    assert BlockOf(FinishWrite(g, i, bytes, now), i, n - 1) == BlockAt(g.fs, ino, n - 1);
    assert Chunk(bytes, n - 1, n)[p % BLOCK_SIZE] == 0;
  }
}
