/**
 The directory tree over the files of one client (yfs_client.cc): create, mkdir,
 symlink, rmdir and unlink, and writes to files.
 */
module Namespace {
  import opened Options
  import opened Bytes
  import opened InodeLayout
  import opened InodeRefinement
  import opened InodeRuns
  import D = Directory

  const T_DIR: U16 := 1
  const T_FILE: U16 := 2
  const T_SLINK: U16 := 3
  const ROOT := 1

  type Store = map<nat, File>

  predicate IsDir(fs: Store, i: nat) {
    i in fs && fs[i].kind == T_DIR
  }

  /** What an operation comes to: the program exits on a parent that is no directory
      and when there is no free inode. */
  datatype Outcome = Changed(fs: Store, inum: nat) | Exists | NoEntry | Exits

  /** create, mkdir and symlink: a new inode with these bytes, entered in the parent. */
  function Create(fs: Store, parent: nat, name: D.Name, kind: U16, bytes: Bytes, junk: D.Record): Outcome
    requires IsDir(fs, parent) ==> D.Records(fs[parent].bytes)
  {
    if !IsDir(fs, parent) then Exits
    else
      var es := D.DecodeAll(fs[parent].bytes);
      if D.Find(es, name) < |es| then Exists
      else
        match FirstFreeNumber(fs, 2)
        case None => Exits
        case Some(i) =>
          var record := D.Encode(D.Entry(name, Number64(i)), junk);
          Changed(fs[i := File(kind, bytes)][parent := File(T_DIR, fs[parent].bytes + record)], i)
  }

  function Number64(i: nat): U64 {
    i % 0x1_0000_0000_0000_0000
  }

  /** rmdir and unlink: the first entry of that name goes, and its inode with it,
      even if that is a directory with entries. */
  function Remove(fs: Store, parent: nat, name: D.Name, junks: seq<D.Record>): Outcome
    requires IsDir(fs, parent) ==> D.Records(fs[parent].bytes)
    requires JunkFor(fs, parent, name, junks)
  {
    if !IsDir(fs, parent) then Exits
    else
      var es := D.DecodeAll(fs[parent].bytes);
      var k := D.Find(es, name);
      if k == |es| then NoEntry
      else
        var left := D.EncodeAll(D.Drop(es, k), junks);
        Changed((fs - {es[k].inum})[parent := File(T_DIR, left)], es[k].inum)
  }

  // The shape of the tree.

  predicate DirOk(bytes: Bytes) {
    D.Records(bytes) && D.DistinctNames(D.DecodeAll(bytes))
  }

  /** The entries of a live directory; nothing else has any. */
  function Entries(fs: Store, d: nat): seq<D.Entry> {
    if IsDir(fs, d) && D.Records(fs[d].bytes) then D.DecodeAll(fs[d].bytes) else []
  }

  /** Entry `k` of `d` names `i`. */
  predicate Link(fs: Store, d: nat, k: nat, i: nat) {
    k < |Entries(fs, d)| && Entries(fs, d)[k].inum == i
  }

  ghost predicate Shape(fs: Store) {
    && IsDir(fs, ROOT)
    && (forall i :: i in fs ==> ValidInum(i))
    && (forall d :: IsDir(fs, d) ==> DirOk(fs[d].bytes))
    && (forall d: nat, k: nat, i: nat :: Link(fs, d, k, i) ==> i in fs && i != ROOT)
    && (forall d: nat, k: nat, d': nat, k': nat, i: nat ::
          Link(fs, d, k, i) && Link(fs, d', k', i) ==> d == d' && k == k')
  }

  /** Every entry leads to a number of higher rank. */
  ghost predicate Ranked(fs: Store, rank: map<nat, nat>) {
    && rank.Keys == fs.Keys
    && forall d: nat, k: nat, i: nat :: Link(fs, d, k, i) && d in rank && i in rank ==> rank[d] < rank[i]
  }

  ghost predicate TreeOk(fs: Store, rank: map<nat, nat>) {
    Shape(fs) && Ranked(fs, rank)
  }

  /** A path of entries leads from its first number to its last. */
  ghost predicate Path(fs: Store, p: seq<nat>) {
    |p| >= 2 && forall j :: 0 <= j < |p| - 1 ==> Step(fs, p[j], p[j + 1])
  }

  ghost predicate Step(fs: Store, d: nat, i: nat) {
    exists k: nat :: Link(fs, d, k, i)
  }

  lemma {:induction false} RankClimbs(fs: Store, rank: map<nat, nat>, p: seq<nat>)
    requires TreeOk(fs, rank) && Path(fs, p)
    ensures p[0] in rank && p[|p| - 1] in rank && rank[p[0]] < rank[p[|p| - 1]]
    decreases |p|
  {
    assert Step(fs, p[0], p[1]);
    var k: nat :| Link(fs, p[0], k, p[1]);
    if |p| > 2 {
      RankClimbs(fs, rank, p[1..]);
    }
  }

  /** No path leads back to where it started. */
  lemma NoCycle(fs: Store, rank: map<nat, nat>, p: seq<nat>)
    requires TreeOk(fs, rank) && Path(fs, p)
    ensures p[0] != p[|p| - 1]
  {
    RankClimbs(fs, rank, p);
  }

  // Keeping it.

  lemma FreeNumber(fs: Store, i: nat)
    ensures match FirstFreeNumber(fs, i)
            case None => true
            case Some(n) => i <= n <= INODE_NUM && n !in fs
    decreases INODE_NUM + 1 - i
  {
  }

  /** The parent's bytes after a create. */
  lemma AppendedDir(bytes: Bytes, e: D.Entry, junk: D.Record)
    requires DirOk(bytes) && D.Find(D.DecodeAll(bytes), e.name) == |D.DecodeAll(bytes)|
    ensures DirOk(bytes + D.Encode(e, junk))
    ensures D.DecodeAll(bytes + D.Encode(e, junk)) == D.DecodeAll(bytes) + [e]
  {
    D.EntryRoundTrip(e, junk);
    D.AppendRecord(bytes, D.Encode(e, junk));
    D.AddBinds(D.DecodeAll(bytes), e);
  }

  /** The parent's bytes after a removal. */
  lemma ReencodedDir(es: seq<D.Entry>, k: nat, junks: seq<D.Record>)
    requires D.DistinctNames(es) && k < |es| && |junks| == |es| - 1
    ensures DirOk(D.EncodeAll(D.Drop(es, k), junks))
    ensures D.DecodeAll(D.EncodeAll(D.Drop(es, k), junks)) == D.Drop(es, k)
  {
    D.ListRoundTrip(D.Drop(es, k), junks);
    D.DropDistinct(es, k);
  }

  /** Two stores that differ in at most two places. */
  ghost predicate AlikeBut(fs: Store, fs': Store, a: nat, b: nat) {
    forall d :: d != a && d != b ==> (d in fs' <==> d in fs) && (d in fs ==> fs'[d] == fs[d])
  }

  lemma SameEntries(fs: Store, fs': Store, a: nat, b: nat)
    requires AlikeBut(fs, fs', a, b)
    ensures forall d: nat :: d != a && d != b ==> Entries(fs', d) == Entries(fs, d)
  {
  }

  /** The inode numbers that fit a store fit the inum field. */
  lemma NumberFits(i: nat)
    requires i <= INODE_NUM
    ensures Number64(i) == i
  {
  }

  /** After a create: one entry more in the parent, and an inode without entries. */
  lemma CreateEntries(fs: Store, parent: nat, name: D.Name, kind: U16, bytes: Bytes, junk: D.Record)
    requires Shape(fs) && Create(fs, parent, name, kind, bytes, junk).Changed?
    requires kind == T_DIR ==> bytes == []
    ensures var o := Create(fs, parent, name, kind, bytes, junk);
            && 2 <= o.inum <= INODE_NUM && o.inum !in fs && parent in fs && parent != o.inum
            && o.fs.Keys == fs.Keys + {o.inum} && AlikeBut(fs, o.fs, parent, o.inum)
            && Entries(o.fs, parent) == Entries(fs, parent) + [D.Entry(name, o.inum)]
            && DirOk(o.fs[parent].bytes) && IsDir(o.fs, parent)
            && o.fs[o.inum] == File(kind, bytes) && Entries(o.fs, o.inum) == []
            && D.Find(Entries(fs, parent), name) == |Entries(fs, parent)| && D.DistinctNames(Entries(fs, parent))
  {
    FreeNumber(fs, 2);
    var i := FirstFreeNumber(fs, 2).value;
    NumberFits(i);
    AppendedDir(fs[parent].bytes, D.Entry(name, i), junk);
  }

  lemma LinksAfterCreate(fs: Store, fs': Store, parent: nat, i: nat, name: D.Name)
    requires AlikeBut(fs, fs', parent, i) && i !in fs && i < 0x1_0000_0000
    requires Entries(fs', parent) == Entries(fs, parent) + [D.Entry(name, i)] && Entries(fs', i) == []
    ensures forall d: nat, k: nat, j: nat ::
              Link(fs', d, k, j) <==> Link(fs, d, k, j) || (d == parent && k == |Entries(fs, parent)| && j == i)
  {
    SameEntries(fs, fs', parent, i);
  }

  lemma ShapeAfterCreate(fs: Store, fs': Store, parent: nat, i: nat, k: nat)
    requires Shape(fs) && AlikeBut(fs, fs', parent, i) && 2 <= i <= INODE_NUM && i !in fs
    requires fs'.Keys == fs.Keys + {i} && IsDir(fs', parent) && DirOk(fs'[parent].bytes) && parent in fs && parent != i
    requires IsDir(fs', i) ==> DirOk(fs'[i].bytes)
    requires forall d: nat, m: nat, j: nat ::
               Link(fs', d, m, j) <==> Link(fs, d, m, j) || (d == parent && m == k && j == i)
    ensures Shape(fs')
  {
    assert forall d: nat, m: nat, j: nat :: Link(fs, d, m, j) ==> j in fs;
  }

  lemma RankedAfterCreate(fs: Store, rank: map<nat, nat>, fs': Store, parent: nat, i: nat, k: nat)
    requires Shape(fs) && Ranked(fs, rank) && i !in fs && parent in fs && parent != i && fs'.Keys == fs.Keys + {i}
    requires forall d: nat, m: nat, j: nat ::
               Link(fs', d, m, j) <==> Link(fs, d, m, j) || (d == parent && m == k && j == i)
    ensures Ranked(fs', rank[i := rank[parent] + 1])
  {
    var rank' := rank[i := rank[parent] + 1];
    forall d: nat, m: nat, j: nat | Link(fs', d, m, j) && d in rank' && j in rank'
      ensures rank'[d] < rank'[j]
    {
      if Link(fs, d, m, j) {
        assert d in fs && j in fs;
      }
    }
  }

  lemma CreateKeeps(fs: Store, rank: map<nat, nat>, parent: nat, name: D.Name, kind: U16, bytes: Bytes, junk: D.Record)
    requires TreeOk(fs, rank) && Create(fs, parent, name, kind, bytes, junk).Changed?
    requires kind == T_DIR ==> bytes == []
    ensures parent in rank
    ensures var o := Create(fs, parent, name, kind, bytes, junk);
            TreeOk(o.fs, rank[o.inum := rank[parent] + 1])
  {
    var o := Create(fs, parent, name, kind, bytes, junk);
    CreateEntries(fs, parent, name, kind, bytes, junk);
    LinksAfterCreate(fs, o.fs, parent, o.inum, name);
    ShapeAfterCreate(fs, o.fs, parent, o.inum, |Entries(fs, parent)|);
    RankedAfterCreate(fs, rank, o.fs, parent, o.inum, |Entries(fs, parent)|);
  }

  /** The bytes in memory for each record that a removal writes again. */
  predicate JunkFor(fs: Store, parent: nat, name: D.Name, junks: seq<D.Record>) {
    D.Find(Entries(fs, parent), name) < |Entries(fs, parent)| ==> |junks| == |Entries(fs, parent)| - 1
  }

  /** After a removal: one entry less in the parent, and its inode gone. */
  lemma RemoveEntries(fs: Store, rank: map<nat, nat>, parent: nat, name: D.Name, junks: seq<D.Record>)
    requires TreeOk(fs, rank) && JunkFor(fs, parent, name, junks) && Remove(fs, parent, name, junks).Changed?
    ensures var o := Remove(fs, parent, name, junks);
            var k := D.Find(Entries(fs, parent), name);
            && k < |Entries(fs, parent)| && Link(fs, parent, k, o.inum) && o.inum != parent && o.inum != ROOT
            && o.fs.Keys == fs.Keys - {o.inum} && AlikeBut(fs, o.fs, parent, o.inum)
            && Entries(o.fs, parent) == D.Drop(Entries(fs, parent), k)
            && IsDir(o.fs, parent) && DirOk(o.fs[parent].bytes)
  {
    var es := Entries(fs, parent);
    var k := D.Find(es, name);
    LinkedElsewhere(fs, rank, parent, k, es[k].inum);
    ReencodedDir(es, k, junks);
  }

  lemma LinkedElsewhere(fs: Store, rank: map<nat, nat>, d: nat, k: nat, i: nat)
    requires TreeOk(fs, rank) && Link(fs, d, k, i)
    ensures i in fs && i != d && i != ROOT
  {
  }

  lemma LinksAfterRemove(fs: Store, fs': Store, parent: nat, i: nat, k: nat)
    requires Shape(fs) && AlikeBut(fs, fs', parent, i) && i !in fs' && Link(fs, parent, k, i)
    requires Entries(fs', parent) == D.Drop(Entries(fs, parent), k)
    ensures forall d: nat, m: nat, j: nat :: Link(fs', d, m, j) ==>
              Link(fs, d, if d == parent && m >= k then m + 1 else m, j) && j != i
  {
    SameEntries(fs, fs', parent, i);
    var was, now := Entries(fs, parent), Entries(fs', parent);
    assert forall m :: 0 <= m < |now| ==> now[m] == if m < k then was[m] else was[m + 1];
    forall d: nat, m: nat, j: nat | Link(fs', d, m, j)
      ensures Link(fs, d, if d == parent && m >= k then m + 1 else m, j) && j != i
    {
      assert Link(fs, d, if d == parent && m >= k then m + 1 else m, j);
    }
  }

  lemma ShapeAfterRemove(fs: Store, fs': Store, parent: nat, i: nat, k: nat)
    requires Shape(fs) && AlikeBut(fs, fs', parent, i) && i != ROOT
    requires fs'.Keys == fs.Keys - {i} && IsDir(fs', parent) && DirOk(fs'[parent].bytes)
    requires forall d: nat, m: nat, j: nat :: Link(fs', d, m, j) ==>
               Link(fs, d, if d == parent && m >= k then m + 1 else m, j) && j != i
    ensures Shape(fs')
  {
    forall d: nat, m: nat, d': nat, m': nat, j: nat | Link(fs', d, m, j) && Link(fs', d', m', j)
      ensures d == d' && m == m'
    {
      assert Link(fs, d, if d == parent && m >= k then m + 1 else m, j);
      assert Link(fs, d', if d' == parent && m' >= k then m' + 1 else m', j);
    }
  }

  lemma RemoveKeeps(fs: Store, rank: map<nat, nat>, parent: nat, name: D.Name, junks: seq<D.Record>)
    requires TreeOk(fs, rank) && JunkFor(fs, parent, name, junks) && Remove(fs, parent, name, junks).Changed?
    ensures var o := Remove(fs, parent, name, junks); TreeOk(o.fs, rank - {o.inum})
  {
    var o := Remove(fs, parent, name, junks);
    var k := D.Find(Entries(fs, parent), name);
    RemoveEntries(fs, rank, parent, name, junks);
    LinksAfterRemove(fs, o.fs, parent, o.inum, k);
    ShapeAfterRemove(fs, o.fs, parent, o.inum, k);
    forall d: nat, m: nat, j: nat | Link(o.fs, d, m, j) && d in rank && j in rank
      ensures rank[d] < rank[j]
    {
      assert Link(fs, d, if d == parent && m >= k then m + 1 else m, j);
    }
  }

  /** Writing a file that is no directory changes no entry. */
  lemma WriteKeeps(fs: Store, rank: map<nat, nat>, i: nat, bytes: Bytes)
    requires TreeOk(fs, rank) && i in fs && !IsDir(fs, i)
    ensures TreeOk(fs[i := File(fs[i].kind, bytes)], rank)
  {
    var fs' := fs[i := File(fs[i].kind, bytes)];
    assert forall d :: Entries(fs', d) == Entries(fs, d);
    assert forall d: nat, k: nat, j: nat :: Link(fs', d, k, j) <==> Link(fs, d, k, j);
  }

  // Directories as maps from names to inode numbers.

  function Bound(fs: Store, d: nat): map<D.Name, U64> {
    D.Bindings(Entries(fs, d))
  }

  /** A successful create binds one new name in one directory. */
  lemma CreateBinds(fs: Store, rank: map<nat, nat>, parent: nat, name: D.Name, kind: U16, bytes: Bytes, junk: D.Record)
    requires TreeOk(fs, rank) && Create(fs, parent, name, kind, bytes, junk).Changed?
    requires kind == T_DIR ==> bytes == []
    ensures var o := Create(fs, parent, name, kind, bytes, junk);
            && name !in Bound(fs, parent) && o.inum < 0x1_0000_0000 && o.inum !in fs
            && Bound(o.fs, parent) == Bound(fs, parent)[name := o.inum]
            && forall d: nat :: d != parent ==> Bound(o.fs, d) == Bound(fs, d)
  {
    var o := Create(fs, parent, name, kind, bytes, junk);
    CreateEntries(fs, parent, name, kind, bytes, junk);
    BoundOneMore(fs, o.fs, parent, o.inum, name);
  }

  lemma BoundOneMore(fs: Store, fs': Store, parent: nat, i: nat, name: D.Name)
    requires AlikeBut(fs, fs', parent, i) && i !in fs && i < 0x1_0000_0000 && Entries(fs', i) == []
    requires D.Find(Entries(fs, parent), name) == |Entries(fs, parent)| && D.DistinctNames(Entries(fs, parent))
    requires Entries(fs', parent) == Entries(fs, parent) + [D.Entry(name, i)]
    ensures name !in Bound(fs, parent) && Bound(fs', parent) == Bound(fs, parent)[name := i]
    ensures forall d: nat :: d != parent ==> Bound(fs', d) == Bound(fs, d)
  {
    D.AddBinds(Entries(fs, parent), D.Entry(name, i));
    D.AddBinding(Entries(fs, parent), D.Entry(name, i), name);
    forall d: nat | d != parent
      ensures Bound(fs', d) == Bound(fs, d)
    {
      BoundElsewhere(fs, fs', parent, i, d);
    }
  }

  lemma BoundElsewhere(fs: Store, fs': Store, parent: nat, i: nat, d: nat)
    requires AlikeBut(fs, fs', parent, i) && i !in fs && Entries(fs', i) == [] && d != parent
    ensures Bound(fs', d) == Bound(fs, d)
  {
    assert Entries(fs', d) == Entries(fs, d);
  }

  /** A successful removal unbinds one name in one directory, and the inode it named
      is gone with all its own entries. */
  lemma RemoveUnbinds(fs: Store, rank: map<nat, nat>, parent: nat, name: D.Name, junks: seq<D.Record>)
    requires TreeOk(fs, rank) && JunkFor(fs, parent, name, junks) && Remove(fs, parent, name, junks).Changed?
    ensures var o := Remove(fs, parent, name, junks);
            && name in Bound(fs, parent) && Bound(fs, parent)[name] == o.inum && o.inum !in o.fs
            && Bound(o.fs, parent) == Bound(fs, parent) - {name}
            && forall d: nat :: d != parent && d != o.inum ==> Bound(o.fs, d) == Bound(fs, d)
  {
    var o := Remove(fs, parent, name, junks);
    RemoveEntries(fs, rank, parent, name, junks);
    D.DropUnbinds(Entries(fs, parent), D.Find(Entries(fs, parent), name));
    SameEntries(fs, o.fs, parent, o.inum);
  }

  /** When create, mkdir and symlink succeed, and what they say otherwise: the name is
      taken, the parent is no directory, or every inode number is in use. */
  lemma CreateAnswers(fs: Store, parent: nat, name: D.Name, kind: U16, bytes: Bytes, junk: D.Record)
    requires IsDir(fs, parent) ==> D.Records(fs[parent].bytes)
    ensures var o := Create(fs, parent, name, kind, bytes, junk);
            var full := forall n :: 2 <= n <= INODE_NUM ==> n in fs;
            && (o.Exists? <==> IsDir(fs, parent) && name in Bound(fs, parent))
            && (o.Exits? <==> !IsDir(fs, parent) || (name !in Bound(fs, parent) && full))
            && (o.Changed? <==> IsDir(fs, parent) && name !in Bound(fs, parent) && !full)
            && (o.Changed? ==>
                  && 2 <= o.inum <= INODE_NUM && o.inum !in fs && forall n :: 2 <= n < o.inum ==> n in fs)
  {
  }

  /** When rmdir and unlink succeed: exactly when the name is bound in a directory. */
  lemma RemoveAnswers(fs: Store, parent: nat, name: D.Name, junks: seq<D.Record>)
    requires (IsDir(fs, parent) ==> D.Records(fs[parent].bytes)) && JunkFor(fs, parent, name, junks)
    ensures var o := Remove(fs, parent, name, junks);
            && (o.Changed? <==> IsDir(fs, parent) && name in Bound(fs, parent))
            && (o.NoEntry? <==> IsDir(fs, parent) && name !in Bound(fs, parent))
            && (o.Exits? <==> !IsDir(fs, parent))
            && (o.Changed? ==> o.inum == Bound(fs, parent)[name])
  {
  }

  // Runs.

  datatype Op =
    | Make(parent: nat, name: D.Name, kind: U16, bytes: Bytes, junk: D.Record)
    | Unmake(parent: nat, name: D.Name, junks: seq<D.Record>)
    | Put(i: nat, bytes: Bytes)

  /** New directories are empty; only files that are no directories are written. */
  predicate Allowed(fs: Store, op: Op) {
    match op
    case Make(_, _, kind, bytes, _) => kind in {T_DIR, T_FILE, T_SLINK} && (kind == T_DIR ==> bytes == [])
    case Unmake(parent, name, junks) => JunkFor(fs, parent, name, junks)
    case Put(i, _) => i in fs && !IsDir(fs, i)
  }

  function Apply(fs: Store, op: Op): Store
    requires Allowed(fs, op) && forall d :: IsDir(fs, d) ==> D.Records(fs[d].bytes)
  {
    match op
    case Make(parent, name, kind, bytes, junk) =>
      var o := Create(fs, parent, name, kind, bytes, junk);
      if o.Changed? then o.fs else fs
    case Unmake(parent, name, junks) =>
      var o := Remove(fs, parent, name, junks);
      if o.Changed? then o.fs else fs
    case Put(i, bytes) => fs[i := File(fs[i].kind, bytes)]
  }

  lemma ApplyKeeps(fs: Store, rank: map<nat, nat>, op: Op) returns (rank': map<nat, nat>)
    requires TreeOk(fs, rank) && Allowed(fs, op)
    ensures TreeOk(Apply(fs, op), rank')
  {
    rank' := rank;
    match op {
      case Make(parent, name, kind, bytes, junk) =>
        var o := Create(fs, parent, name, kind, bytes, junk);
        if o.Changed? {
          CreateKeeps(fs, rank, parent, name, kind, bytes, junk);
          rank' := rank[o.inum := rank[parent] + 1];
        }
      case Unmake(parent, name, junks) =>
        var o := Remove(fs, parent, name, junks);
        if o.Changed? {
          RemoveKeeps(fs, rank, parent, name, junks);
          rank' := rank - {o.inum};
        }
      case Put(i, bytes) => WriteKeeps(fs, rank, i, bytes);
    }
  }

  const EMPTY_TREE: Store := map[ROOT := File(T_DIR, [])]

  lemma EmptyTreeOk()
    ensures TreeOk(EMPTY_TREE, map[ROOT := 0])
  {
    assert forall d: nat :: Entries(EMPTY_TREE, d) == [];
  }

  ghost predicate Leads(fs: Store, op: Op, fs': Store) {
    (forall d :: IsDir(fs, d) ==> D.Records(fs[d].bytes)) && Allowed(fs, op) && fs' == Apply(fs, op)
  }

  /** The stores that a run goes through. */
  ghost predicate Run(trace: seq<Store>, ops: seq<Op>) {
    && |trace| == |ops| + 1 && trace[0] == EMPTY_TREE
    && forall k :: 0 <= k < |ops| ==> Leads(trace[k], ops[k], trace[k + 1])
  }

  lemma {:induction false} RunKeepsTree(trace: seq<Store>, ops: seq<Op>, k: nat) returns (rank: map<nat, nat>)
    requires Run(trace, ops) && k <= |ops|
    ensures TreeOk(trace[k], rank)
  {
    if k == 0 {
      EmptyTreeOk();
      rank := map[ROOT := 0];
    } else {
      rank := RunKeepsTree(trace, ops, k - 1);
      assert Leads(trace[k - 1], ops[k - 1], trace[k]);
      rank := ApplyKeeps(trace[k - 1], rank, ops[k - 1]);
    }
  }

  /** The condition on the states of a run excludes nothing: a run can be continued
      with every operation that is allowed. */
  lemma RunExtends(trace: seq<Store>, ops: seq<Op>, op: Op)
    requires Run(trace, ops) && Allowed(trace[|ops|], op)
    ensures Shape(trace[|ops|]) && Run(trace + [Apply(trace[|ops|], op)], ops + [op])
  {
    var rank := RunKeepsTree(trace, ops, |ops|);
    var trace', ops' := trace + [Apply(trace[|ops|], op)], ops + [op];
    assert Leads(trace[|ops|], op, Apply(trace[|ops|], op));
    forall k | 0 <= k < |ops'|
      ensures Leads(trace'[k], ops'[k], trace'[k + 1])
    {
      assert k < |ops| ==> Leads(trace[k], ops[k], trace[k + 1]);
    }
  }

  /** In every state of every run: entries name live inodes, no inode has two
      entries, names in a directory are distinct, contents are whole records, and no
      path of entries leads back to where it started. */
  lemma TreeOverRuns(trace: seq<Store>, ops: seq<Op>, k: nat)
    requires Run(trace, ops) && k <= |ops|
    ensures Shape(trace[k])
    ensures forall d: nat :: IsDir(trace[k], d) ==> |trace[k][d].bytes| % D.RECORD_SIZE == 0
    ensures forall p: seq<nat> :: Path(trace[k], p) ==> p[0] != p[|p| - 1]
  {
    var rank := RunKeepsTree(trace, ops, k);
    forall d: nat | IsDir(trace[k], d)
      ensures |trace[k][d].bytes| % D.RECORD_SIZE == 0
    {
      D.WholeRecords(trace[k][d].bytes);
    }
    forall p: seq<nat> | Path(trace[k], p)
      ensures p[0] != p[|p| - 1]
    {
      NoCycle(trace[k], rank, p);
    }
  }
}
