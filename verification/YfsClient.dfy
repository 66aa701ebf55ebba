/**
 The file system client in place (yfs_client.cc), for one client: `files` is what
 it sees of the extents through its cache.  Locking is modelled elsewhere.
 */
module YfsClient {
  import opened Options
  import opened Bytes
  import opened InodeRefinement
  import InodeRuns
  import opened Namespace
  import D = Directory
  import F = FileBytes

  class Client {
    var files: Store

    constructor ()
      ensures files == EMPTY_TREE
    {
      files := EMPTY_TREE;
    }

    /** All directories hold whole records. */
    ghost predicate Readable()
      reads this
    {
      forall d :: IsDir(files, d) ==> D.Records(files[d].bytes)
    }

    /** readdir: `None` is where the program exits. */
    method Readdir(dir: nat) returns (r: Option<seq<D.Entry>>)
      requires Readable()
      ensures r == if IsDir(files, dir) then Some(Entries(files, dir)) else None
    {
      if dir !in files || files[dir].kind != T_DIR {
        return None;
      }
      var buf := files[dir].bytes;
      var n, k, list := |buf| / D.RECORD_SIZE, 0, [];
      D.WholeRecords(buf);
      while k < n
        invariant k <= n == |D.DecodeAll(buf)| && list == D.DecodeAll(buf)[..k]
      {
        D.EntryAt(buf, k);
        list := list + [D.Decode(buf[k * D.RECORD_SIZE..(k + 1) * D.RECORD_SIZE])];
        k := k + 1;
      }
      assert D.DecodeAll(buf)[..n] == D.DecodeAll(buf);
      return Some(list);
    }

    method Lookup(parent: nat, name: D.Name) returns (r: Option<Option<U64>>)
      requires Readable()
      ensures r.None? <==> !IsDir(files, parent)
      ensures r.Some? ==> r.value == if name in Bound(files, parent) then Some(Bound(files, parent)[name]) else None
    {
      var entries := Readdir(parent);
      if entries.None? {
        return None;
      }
      ghost var all := entries.value;
      var rest, k := entries.value, 0;
      while rest != []
        invariant k <= |all| && rest == all[k..]
        invariant forall j :: 0 <= j < k ==> all[j].name != name
      {
        var front := rest[0];
        rest := rest[1..];
        if front.name == name {
          D.FindIs(all, k, name);
          return Some(Some(front.inum));
        }
        k := k + 1;
      }
      D.FindIs(all, |all|, name);
      return Some(None);
    }

    /** create (a file), mkdir (a directory) and symlink (a link with its target):
        `junk` is what the record was in memory before its fields were set. */
    method Make(parent: nat, name: D.Name, kind: U16, bytes: Bytes, junk: D.Record) returns (o: Outcome)
      requires Readable()
      modifies this
      ensures o == Create(old(files), parent, name, kind, bytes, junk)
      ensures o.Exists? <==> old(IsDir(files, parent) && name in Bound(files, parent))
      ensures o.Changed? <==> old(IsDir(files, parent) && name !in Bound(files, parent))
                              && exists n :: 2 <= n <= 1024 && n !in old(files)
      ensures files == if o.Changed? then o.fs else old(files)
    {
      CreateAnswers(files, parent, name, kind, bytes, junk);
      var found := Lookup(parent, name);
      if found.None? {
        return Exits;
      }
      if found.value.Some? {
        return Exists;
      }
      var inum := FreeInode();
      if inum.None? {
        return Exits;
      }
      FreeNumber(files, 2);
      files := files[inum.value := File(kind, bytes)];
      var buf := files[parent].bytes + D.Encode(D.Entry(name, Number64(inum.value)), junk);
      files := files[parent := File(T_DIR, buf)];
      return Changed(files, inum.value);
    }

    /** What the extent server answers to create. */
    method FreeInode() returns (r: Option<nat>)
      ensures r == InodeRuns.FirstFreeNumber(files, 2)
    {
      var i := 2;
      while i <= 1024
        invariant 2 <= i <= 1025 && InodeRuns.FirstFreeNumber(files, i) == InodeRuns.FirstFreeNumber(files, 2)
      {
        if i !in files {
          return Some(i);
        }
        i := i + 1;
      }
      return None;
    }

    /** rmdir, and unlink, which calls it. */
    method Rmdir(parent: nat, name: D.Name, junks: seq<D.Record>) returns (o: Outcome)
      requires Readable() && JunkFor(files, parent, name, junks)
      modifies this
      ensures o == Remove(old(files), parent, name, junks)
      ensures o.Changed? <==> old(IsDir(files, parent) && name in Bound(files, parent))
      ensures o.NoEntry? <==> old(IsDir(files, parent) && name !in Bound(files, parent))
      ensures files == if o.Changed? then o.fs else old(files)
    {
      RemoveAnswers(files, parent, name, junks);
      var entries := Readdir(parent);
      if entries.None? {
        return Exits;
      }
      var es, k := entries.value, 0;
      while k < |es| && es[k].name != name
        invariant k <= |es| && forall j :: 0 <= j < k ==> es[j].name != name
      {
        k := k + 1;
      }
      D.FindIs(es, k, name);
      if k == |es| {
        return NoEntry;
      }
      var inum, left := es[k].inum, D.Drop(es, k);
      var buf := EncodeEntries(left, junks);
      files := files - {inum};
      files := files[parent := File(T_DIR, buf)];
      return Changed(files, inum);
    }

    method EncodeEntries(es: seq<D.Entry>, junks: seq<D.Record>) returns (buf: Bytes)
      requires |junks| == |es|
      ensures buf == D.EncodeAll(es, junks)
    {
      var k := 0;
      buf := [];
      while k < |es|
        invariant k <= |es| && buf + D.EncodeAll(es[k..], junks[k..]) == D.EncodeAll(es, junks)
      {
        var record: Bytes := D.Encode(es[k], junks[k]);
        ghost var rest := D.EncodeAll(es[k + 1..], junks[k + 1..]);
        assert es[k..][1..] == es[k + 1..] && junks[k..][1..] == junks[k + 1..];
        assert buf + (record + rest) == (buf + record) + rest;
        buf := buf + record;
        k := k + 1;
      }
      assert buf + [] == buf;
    }

    // Files.

    method ReadRange(i: nat, size: nat, off: nat) returns (r: Option<Bytes>)
      requires i in files
      ensures r == F.Read(files[i].bytes, off, size)
      ensures off < F.UINT_RANGE ==> r == Some(F.Range(files[i].bytes, off, size))
    {
      var content := files[i].bytes;
      F.ReadIff(content, off, size);
      if off % F.UINT_RANGE >= |content| {
        return Some([]);
      }
      if off > |content| {
        return None;
      }
      return Some(content[off..F.Min(off + size, |content|)]);
    }

    /** `ok` is false where `replace` throws; `written` counts a gap as well. */
    method WriteRange(i: nat, off: nat, data: Bytes) returns (ok: bool, written: nat)
      requires i in files
      modifies this
      ensures ok <==> !(off % F.UINT_RANGE <= |old(files)[i].bytes| < off)
      ensures ok ==> var was := old(files)[i];
                     files == old(files)[i := File(was.kind, F.Overwritten(was.bytes, off, data))]
      ensures !ok ==> files == old(files)
      ensures ok ==> written == |data| + if off <= |old(files)[i].bytes| then 0 else off - |old(files)[i].bytes|
    {
      var content := files[i].bytes;
      written := 0;
      F.WriteIff(content, off, data);
      if off % F.UINT_RANGE <= |content| {
        if off > |content| {
          return false, written;
        }
        content := F.Replaced(content, off, data);
        written := |data|;
      } else {
        written := |data| + off - |content|;
        content := F.Resized(content, |data| + off);
        content := F.Replaced(content, off, data);
      }
      files := files[i := File(files[i].kind, content)];
      return true, written;
    }

    method Setattr(i: nat, size: nat)
      requires i in files
      modifies this
      ensures files.Keys == old(files).Keys && files[i].kind == old(files)[i].kind && |files[i].bytes| == size
      ensures forall p :: 0 <= p < size ==>
                files[i].bytes[p] == if p < |old(files)[i].bytes| then old(files)[i].bytes[p] else 0
      ensures forall j :: j in files && j != i ==> files[j] == old(files)[j]
    {
      var buf := F.Resized(files[i].bytes, size);
      F.ResizeKeeps(files[i].bytes, size);
      files := files[i := File(files[i].kind, buf)];
    }
  }
}
