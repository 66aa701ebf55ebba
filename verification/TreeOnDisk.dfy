/**
 The directory tree on the disk: each operation on the tree is a few operations of
 the inode manager, so that runs of the tree are runs of the disk.
 */
module TreeOnDisk {
  import opened Options
  import opened Bytes
  import opened InodeLayout
  import opened InodeSpec
  import opened InodeOwnership
  import opened InodeRefinement
  import R = InodeRuns
  import N = Namespace
  import D = Directory

  type Store = N.Store

  /** What the inode manager asks of the sizes of files. */
  ghost predicate SizesFit(fs: Store) {
    && (forall i :: i in fs ==> |fs[i].bytes| <= MAXFILE * BLOCK_SIZE)
    && forall i :: i in fs && BlockCount(|fs[i].bytes|) > NDIRECT ==>
         i != 1 && forall j :: j in fs && j != i ==> BlockCount(|fs[j].bytes|) <= NDIRECT
  }

  /** The calls that an operation on the tree makes, the read of the directory first. */
  function OpsOf(fs: Store, op: N.Op): seq<R.Op>
    requires N.Allowed(fs, op) && forall d :: N.IsDir(fs, d) ==> D.Records(fs[d].bytes)
  {
    match op
    case Make(parent, name, kind, bytes, junk) =>
      var o := N.Create(fs, parent, name, kind, bytes, junk);
      if !N.IsDir(fs, parent) then []
      else if !o.Changed? then [R.Read(parent)]
      else [R.Read(parent), R.Alloc(kind)] + FillOps(o.inum, kind, bytes) + [R.Write(parent, o.fs[parent].bytes)]
    case Unmake(parent, name, junks) =>
      var o := N.Remove(fs, parent, name, junks);
      if !N.IsDir(fs, parent) then []
      else if !o.Changed? then [R.Read(parent)]
      else [R.Read(parent), R.Remove(o.inum), R.Write(parent, o.fs[parent].bytes)]
    case Put(i, bytes) => [R.Write(i, bytes)]
  }

  /** Only a symbolic link is written when it is made. */
  function FillOps(i: nat, kind: U16, bytes: Bytes): seq<R.Op> {
    if kind == N.T_SLINK || bytes != [] then [R.Write(i, bytes)] else []
  }

  /** The calls take the map of files from one state to the other. */
  ghost predicate Takes(fs: Store, ops: seq<R.Op>, fs': Store) {
    R.AllowedRun(fs, ops) && R.MapRun(fs, ops).Some? && R.MapRun(fs, ops).value.0 == fs'
  }

  lemma TakesOne(fs: Store, op: R.Op, fs': Store)
    requires R.Allowed(fs, op) && R.MapStep(fs, op).Some? && R.MapStep(fs, op).value.state == fs'
    ensures Takes(fs, [op], fs')
  {
    assert [op][1..] == [];
  }

  lemma {:induction false} TakesBoth(fs: Store, ops: seq<R.Op>, mid: Store, ops': seq<R.Op>, fs': Store)
    requires Takes(fs, ops, mid) && Takes(mid, ops', fs')
    ensures Takes(fs, ops + ops', fs')
    decreases |ops|
  {
    if ops == [] {
      assert ops + ops' == ops';
    } else {
      var next := R.MapStep(fs, ops[0]).value.state;
      TakesBoth(next, ops[1..], mid, ops', fs');
      assert (ops + ops')[1..] == ops[1..] + ops';
    }
  }

  lemma CountMonotone(a: nat, b: nat)
    requires a <= b
    ensures BlockCount(a) <= BlockCount(b)
  {
  }

  lemma WriteTakes(fs: Store, i: nat, bytes: Bytes, fs': Store)
    requires i in fs && fs' == fs[i := File(fs[i].kind, bytes)] && SizesFit(fs')
    ensures Takes(fs, [R.Write(i, bytes)], fs')
  {
    forall j | j in fs && j != i && BlockCount(|bytes|) > NDIRECT
      ensures BlockCount(|fs[j].bytes|) <= NDIRECT
    {
      assert fs'[j] == fs[j] && fs'[i].bytes == bytes;
    }
    assert fs'[i].bytes == bytes;
    TakesOne(fs, R.Write(i, bytes), fs');
  }

  /** The new inode with its contents. */
  lemma MadeTakes(fs: Store, i: nat, kind: U16, bytes: Bytes)
    requires R.FirstFreeNumber(fs, 2) == Some(i) && 1 <= kind <= 3 && SizesFit(fs[i := File(kind, bytes)])
    ensures Takes(fs, [R.Alloc(kind)] + FillOps(i, kind, bytes), fs[i := File(kind, bytes)])
  {
    var empty := fs[i := File(kind, [])];
    TakesOne(fs, R.Alloc(kind), empty);
    if FillOps(i, kind, bytes) == [] {
      assert [R.Alloc(kind)] + [] == [R.Alloc(kind)];
    } else {
      assert empty[i := File(kind, bytes)] == fs[i := File(kind, bytes)];
      WriteTakes(empty, i, bytes, fs[i := File(kind, bytes)]);
      TakesBoth(fs, [R.Alloc(kind)], empty, [R.Write(i, bytes)], fs[i := File(kind, bytes)]);
    }
  }

  lemma ReadTakes(fs: Store, i: nat)
    requires i in fs
    ensures Takes(fs, [R.Read(i)], fs)
  {
    TakesOne(fs, R.Read(i), fs);
  }

  lemma ShorterFits(fs: Store, i: nat, bytes: Bytes)
    requires i in fs && SizesFit(fs) && |bytes| <= |fs[i].bytes|
    ensures SizesFit(fs[i := File(fs[i].kind, bytes)])
  {
    CountMonotone(|bytes|, |fs[i].bytes|);
  }

  lemma FitsBefore(fs: Store, parent: nat, dir: Bytes)
    requires parent in fs && |fs[parent].bytes| <= |dir| && SizesFit(fs[parent := File(fs[parent].kind, dir)])
    ensures SizesFit(fs)
  {
    var fs' := fs[parent := File(fs[parent].kind, dir)];
    assert fs'[parent := File(fs'[parent].kind, fs[parent].bytes)] == fs;
    ShorterFits(fs', parent, fs[parent].bytes);
  }

  /** The new inode, then its entry in the parent. */
  lemma EnteredTakes(fs: Store, parent: nat, i: nat, kind: U16, bytes: Bytes, dir: Bytes)
    requires R.FirstFreeNumber(fs, 2) == Some(i) && 1 <= kind <= 3 && parent in fs && parent != i
    requires |fs[parent].bytes| <= |dir| && SizesFit(fs[i := File(kind, bytes)][parent := File(fs[parent].kind, dir)])
    ensures Takes(fs, [R.Alloc(kind)] + FillOps(i, kind, bytes) + [R.Write(parent, dir)],
                  fs[i := File(kind, bytes)][parent := File(fs[parent].kind, dir)])
  {
    var mid := fs[i := File(kind, bytes)];
    var fs' := mid[parent := File(fs[parent].kind, dir)];
    FitsBefore(mid, parent, dir);
    MadeTakes(fs, i, kind, bytes);
    WriteTakes(mid, parent, dir, fs');
    TakesBoth(fs, [R.Alloc(kind)] + FillOps(i, kind, bytes), mid, [R.Write(parent, dir)], fs');
  }

  lemma CreatedIs(fs: Store, parent: nat, name: D.Name, kind: U16, bytes: Bytes, junk: D.Record)
    requires N.Shape(fs) && N.Create(fs, parent, name, kind, bytes, junk).Changed? && (kind == N.T_DIR ==> bytes == [])
    ensures var o := N.Create(fs, parent, name, kind, bytes, junk);
            && R.FirstFreeNumber(fs, 2) == Some(o.inum) && N.IsDir(fs, parent) && parent != o.inum && parent in o.fs
            && |fs[parent].bytes| <= |o.fs[parent].bytes|
            && o.fs == fs[o.inum := File(kind, bytes)][parent := File(fs[parent].kind, o.fs[parent].bytes)]
  {
    N.CreateEntries(fs, parent, name, kind, bytes, junk);
  }

  lemma MakeTakes(fs: Store, op: N.Op, fs': Store)
    requires op.Make? && N.Leads(fs, op, fs') && N.Shape(fs) && SizesFit(fs')
    ensures Takes(fs, OpsOf(fs, op), fs')
  {
    var o := N.Create(fs, op.parent, op.name, op.kind, op.bytes, op.junk);
    if o.Changed? {
      CreatedIs(fs, op.parent, op.name, op.kind, op.bytes, op.junk);
      var dir := o.fs[op.parent].bytes;
      EnteredTakes(fs, op.parent, o.inum, op.kind, op.bytes, dir);
      var calls := [R.Alloc(op.kind)] + FillOps(o.inum, op.kind, op.bytes) + [R.Write(op.parent, dir)];
      ReadFirst(fs, op.parent, calls, o.fs);
      assert OpsOf(fs, op) == [R.Read(op.parent)] + calls;
    } else if N.IsDir(fs, op.parent) {
      ReadTakes(fs, op.parent);
    }
  }

  lemma ReadFirst(fs: Store, i: nat, ops: seq<R.Op>, fs': Store)
    requires i in fs && Takes(fs, ops, fs')
    ensures Takes(fs, [R.Read(i)] + ops, fs')
  {
    ReadTakes(fs, i);
    TakesBoth(fs, [R.Read(i)], fs, ops, fs');
  }

  lemma UnmakeTakes(fs: Store, rank: map<nat, nat>, op: N.Op, fs': Store)
    requires op.Unmake? && N.Leads(fs, op, fs') && N.TreeOk(fs, rank) && SizesFit(fs')
    ensures Takes(fs, OpsOf(fs, op), fs')
  {
    var o := N.Remove(fs, op.parent, op.name, op.junks);
    if o.Changed? {
      N.RemoveEntries(fs, rank, op.parent, op.name, op.junks);
      var mid := fs - {o.inum};
      TakesOne(fs, R.Remove(o.inum), mid);
      WriteTakes(mid, op.parent, o.fs[op.parent].bytes, o.fs);
      var write := [R.Write(op.parent, o.fs[op.parent].bytes)];
      TakesBoth(fs, [R.Remove(o.inum)], mid, write, o.fs);
      ReadFirst(fs, op.parent, [R.Remove(o.inum)] + write, o.fs);
      assert OpsOf(fs, op) == [R.Read(op.parent)] + ([R.Remove(o.inum)] + write);
    } else if N.IsDir(fs, op.parent) {
      ReadTakes(fs, op.parent);
    }
  }

  /** One operation on the tree is what its calls do to the map of files. */
  lemma OpTakes(fs: Store, rank: map<nat, nat>, op: N.Op, fs': Store)
    requires N.Leads(fs, op, fs') && N.TreeOk(fs, rank) && SizesFit(fs')
    ensures Takes(fs, OpsOf(fs, op), fs')
  {
    match op {
      case Make(_, _, _, _, _) => MakeTakes(fs, op, fs');
      case Unmake(_, _, _) => UnmakeTakes(fs, rank, op, fs');
      case Put(i, bytes) => WriteTakes(fs, i, bytes, fs');
    }
  }

  /** The calls of each operation of a run. */
  ghost function CallsOf(trace: seq<Store>, ops: seq<N.Op>): (calls: seq<seq<R.Op>>)
    requires N.Run(trace, ops)
  {
    seq(|ops|, k requires 0 <= k < |ops| && N.Leads(trace[k], ops[k], trace[k + 1]) => OpsOf(trace[k], ops[k]))
  }

  function Flat(calls: seq<seq<R.Op>>): seq<R.Op> {
    if calls == [] then [] else Flat(calls[..|calls| - 1]) + calls[|calls| - 1]
  }

  lemma {:induction false} TakesAll(trace: seq<Store>, calls: seq<seq<R.Op>>)
    requires |trace| == |calls| + 1 && forall k :: 0 <= k < |calls| ==> Takes(trace[k], calls[k], trace[k + 1])
    ensures Takes(trace[0], Flat(calls), trace[|calls|])
    decreases |calls|
  {
    if calls != [] {
      var n := |calls| - 1;
      TakesAll(trace[..n + 1], calls[..n]);
      TakesBoth(trace[0], Flat(calls[..n]), trace[n], calls[n], trace[n + 1]);
    }
  }

  lemma OpOfRunTakes(trace: seq<Store>, ops: seq<N.Op>, k: nat)
    requires N.Run(trace, ops) && k < |ops| && SizesFit(trace[k + 1])
    ensures N.Leads(trace[k], ops[k], trace[k + 1]) && Takes(trace[k], OpsOf(trace[k], ops[k]), trace[k + 1])
  {
    assert N.Leads(trace[k], ops[k], trace[k + 1]);
    var rank := N.RunKeepsTree(trace, ops, k);
    OpTakes(trace[k], rank, ops[k], trace[k + 1]);
  }

  /** A run of the tree is the run of its calls on the map of files. */
  lemma RunTakes(trace: seq<Store>, ops: seq<N.Op>)
    requires N.Run(trace, ops) && forall k :: 0 <= k <= |ops| ==> SizesFit(trace[k])
    ensures Takes(N.EMPTY_TREE, Flat(CallsOf(trace, ops)), trace[|ops|])
  {
    var calls := CallsOf(trace, ops);
    forall k | 0 <= k < |calls|
      ensures Takes(trace[k], calls[k], trace[k + 1])
    {
      OpOfRunTakes(trace, ops, k);
    }
    TakesAll(trace, calls);
  }

  /** Every run of create, mkdir, symlink, rmdir, unlink and writes, made on a formatted
      disk by the calls of its operations, leaves the disk with exactly the files of the
      tree, each block in one place, and the tree in shape. */
  lemma TreeSurvivesOnDisk(root: WholeInode, now: U32, trace: seq<Store>, ops: seq<N.Op>, nows: seq<U32>, fs: Fs,
                           results: seq<R.Result>)
    requires N.Run(trace, ops) && forall k :: 0 <= k <= |ops| ==> SizesFit(trace[k])
    requires |nows| == |Flat(CallsOf(trace, ops))|
    requires R.DiskRun(Format(root, now), Flat(CallsOf(trace, ops)), nows, fs, results)
    ensures Shape(fs) && Domain(fs) && R.Exclusive(fs)
    ensures Files(fs) == trace[|ops|] && N.Shape(Files(fs))
    ensures forall p: seq<nat> :: N.Path(Files(fs), p) ==> p[0] != p[|p| - 1]
  {
    RunTakes(trace, ops);
    R.DiskRefinesMap(root, now, Flat(CallsOf(trace, ops)), nows, fs, results);
    N.TreeOverRuns(trace, ops, |ops|);
  }
}
