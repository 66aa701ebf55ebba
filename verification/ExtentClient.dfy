/**
 The write-back extent cache (extent_client.cc).  Timestamps come from the clock
 and are not modelled; `junk` is the attribute record of a new cache entry, whose
 fields start out unspecified.
 */
module ExtentClient {
  import opened Options
  import B = Bytes

  type ExtentId = nat
  type Bytes = B.Bytes

  const UINT_RANGE := 0x1_0000_0000

  datatype Attr = Attr(kind: nat, size: nat)

  datatype CachedFile = CachedFile(buf: Bytes, attr: Attr, bufValid: bool, attrValid: bool, dirty: bool)

  /** What the extent server holds under one id. */
  datatype Extent = Extent(kind: nat, bytes: Bytes)

  function SizeOf(b: Bytes): nat {
    |b| % UINT_RANGE
  }

  function AttrOf(e: Extent): Attr {
    Attr(e.kind, SizeOf(e.bytes))
  }

  function NewFile(junk: Attr): CachedFile {
    CachedFile([], junk, false, false, false)
  }

  function Slot(file: Option<CachedFile>, junk: Attr): CachedFile {
    if file.Some? then file.value else NewFile(junk)
  }

  /** The entry after both parts have been filled from the server. */
  function Fill(f: CachedFile, e: Extent): CachedFile {
    f.(buf := e.bytes, bufValid := true, attr := AttrOf(e), attrValid := true)
  }

  function Get(file: Option<CachedFile>, e: Extent, junk: Attr): CachedFile {
    var f := Slot(file, junk);
    if f.bufValid then f else Fill(f, e)
  }

  function GetAttr(file: Option<CachedFile>, e: Extent, junk: Attr): CachedFile {
    var f := Slot(file, junk);
    if f.attrValid then f else Fill(f, e)
  }

  function Put(file: Option<CachedFile>, buf: Bytes, junk: Attr): CachedFile {
    var f := Slot(file, junk);
    f.(dirty := true, bufValid := true, buf := buf, attr := f.attr.(size := SizeOf(buf)))
  }

  /** The first half of `sync`: nothing may be read from the entry any more. */
  function Invalidate(file: Option<CachedFile>): Option<CachedFile> {
    match file
    case None => None
    case Some(f) => Some(f.(bufValid := false, attrValid := false))
  }

  predicate Dirty(file: Option<CachedFile>) {
    file.Some? && file.value.dirty
  }

  /** The second half of `sync`: a dirty entry goes to the server. */
  function WriteBack(file: Option<CachedFile>, e: Extent): Extent {
    if Dirty(file) then e.(bytes := file.value.buf) else e
  }

  function Cleaned(file: Option<CachedFile>): Option<CachedFile> {
    if Dirty(file) then Some(file.value.(dirty := false)) else file
  }

  /**
   `put` leaves the attribute part invalid, so that a `getattr` after it refills
   the whole entry from the server.  The bytes put survive exactly when the
   attributes were valid before, or the server holds those bytes already.
   */
  lemma GetAttrKeepsPutIff(file: Option<CachedFile>, e: Extent, buf: Bytes, junk: Attr)
    ensures GetAttr(Some(Put(file, buf, junk)), e, junk).buf == buf
            <==> (file.Some? && file.value.attrValid) || e.bytes == buf
    ensures !(file.Some? && file.value.attrValid)
            ==> WriteBack(Some(GetAttr(Some(Put(file, buf, junk)), e, junk)), e) == e
  {
  }

  /** What a client does at start-up: it puts an empty root directory without having
      got it, and then looks at the attributes of the root.  If the root on the server
      has entries, the put is gone. */
  lemma StartUpPutDropped(junk: Attr)
    ensures var root := Extent(1, [0]);
            var file := GetAttr(Some(Put(None, [], junk)), root, junk);
            && file.buf == root.bytes != [] && WriteBack(Some(file), root) == root
  {
  }

  /** A hit asks nobody and changes nothing; a miss takes everything from the server; a
      put takes nothing from it, and its size is that of the bytes put. */
  lemma CacheAnswers(f: CachedFile, e: Extent, buf: Bytes, junk: Attr)
    ensures f.bufValid ==> Get(Some(f), e, junk) == f
    ensures f.attrValid ==> GetAttr(Some(f), e, junk) == f
    ensures !f.bufValid ==> Get(Some(f), e, junk).buf == e.bytes && Get(Some(f), e, junk).attr.kind == e.kind
    ensures !f.attrValid ==> GetAttr(Some(f), e, junk).buf == e.bytes && GetAttr(Some(f), e, junk).attr.kind == e.kind
    ensures !f.attrValid && |e.bytes| < UINT_RANGE ==> GetAttr(Some(f), e, junk).attr.size == |e.bytes|
    ensures |buf| < UINT_RANGE ==> Put(Some(f), buf, junk).attr.size == |buf|
    ensures Put(Some(f), buf, junk).buf == buf && Put(Some(f), buf, junk).attr.kind == f.attr.kind
    ensures Get(None, e, junk).buf == e.bytes && GetAttr(None, e, junk).attr == AttrOf(e)
  {
  }

  /** The server side as far as the cache sees it: each call is atomic. */
  class ExtentServer {
    var files: map<ExtentId, Extent>

    constructor (files: map<ExtentId, Extent>)
      ensures this.files == files
    {
      this.files := files;
    }
  }

  class Cache {
    var cache: map<ExtentId, CachedFile>
    const server: ExtentServer

    constructor (server: ExtentServer)
      ensures cache == map[] && this.server == server
    {
      cache := map[];
      this.server := server;
    }

    function Entry(id: ExtentId): Option<CachedFile>
      reads this
    {
      if id in cache then Some(cache[id]) else None
    }

    method GetFile(id: ExtentId, junk: Attr) returns (buf: Bytes)
      requires id in server.files
      modifies this
      ensures cache == old(cache)[id := Get(old(Entry(id)), server.files[id], junk)]
      ensures buf == cache[id].buf
      ensures buf == if old(id in cache && cache[id].bufValid) then old(cache[id].buf) else server.files[id].bytes
    {
      if id in cache && cache[id].bufValid {
        cache := cache[id := cache[id]];
        return cache[id].buf;
      }
      var file := if id in cache then cache[id] else NewFile(junk);
      var serverFile := server.files[id];
      file := file.(buf := serverFile.bytes, bufValid := true);
      file := file.(attr := AttrOf(serverFile), attrValid := true);
      cache := cache[id := file];
      buf := cache[id].buf;
    }

    method GetFileAttr(id: ExtentId, junk: Attr) returns (attr: Attr)
      requires id in server.files
      modifies this
      ensures cache == old(cache)[id := GetAttr(old(Entry(id)), server.files[id], junk)]
      ensures attr == cache[id].attr
      ensures old(id in cache && cache[id].attrValid) ==> attr == old(cache[id].attr)
      ensures !old(id in cache && cache[id].attrValid) ==>
                attr.kind == server.files[id].kind && attr.size == |server.files[id].bytes| % UINT_RANGE
    {
      if id in cache && cache[id].attrValid {
        cache := cache[id := cache[id]];
        return cache[id].attr;
      }
      var file := if id in cache then cache[id] else NewFile(junk);
      var serverFile := server.files[id];
      file := file.(attr := AttrOf(serverFile), attrValid := true);
      file := file.(buf := serverFile.bytes, bufValid := true);
      cache := cache[id := file];
      attr := cache[id].attr;
    }

    method PutFile(id: ExtentId, buf: Bytes, junk: Attr)
      modifies this
      ensures cache == old(cache)[id := Put(old(Entry(id)), buf, junk)]
      ensures cache[id].buf == buf && cache[id].dirty && cache[id].attr.size == |buf| % UINT_RANGE
    {
      var file := if id in cache then cache[id] else NewFile(junk);
      file := file.(dirty := true, bufValid := true, buf := buf);
      file := file.(attr := file.attr.(size := SizeOf(buf)));
      cache := cache[id := file];
    }

    method Sync(id: ExtentId)
      requires id in server.files
      modifies this, server
      ensures var f := Invalidate(old(Entry(id)));
              && Entry(id) == Cleaned(f)
              && server.files == old(server.files)[id := WriteBack(f, old(server.files[id]))]
      ensures id in cache ==> !cache[id].bufValid && !cache[id].attrValid && !cache[id].dirty
      ensures server.files[id].bytes ==
              if old(id in cache && cache[id].dirty) then old(cache[id].buf) else old(server.files[id].bytes)
      ensures forall other :: other != id ==> Entry(other) == old(Entry(other))
    {
      if id in cache {
        var file := cache[id].(bufValid := false, attrValid := false);
        if file.dirty {
          server.files := server.files[id := server.files[id].(bytes := file.buf)];
          file := file.(dirty := false);
        }
        cache := cache[id := file];
      }
    }
  }
}
