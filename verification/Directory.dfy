/**
 The contents of a directory (yfs_client.h, yfs_client.cc): records of fixed size
 in which the end of the name field and the padding hold whatever was in memory.
 */
module Directory {
  import opened Options
  import opened Bytes

  const MAX_FILENAME_LENGTH := 64

  /** `struct diy_dirent`: inum, name field, length of the name, six bytes of padding. */
  const NAME_AT := 8
  const LENGTH_AT := 72
  const PADDING_AT := 74
  const RECORD_SIZE := 80

  type Record = r: Bytes | |r| == RECORD_SIZE witness seq(RECORD_SIZE, i => 0)
  type Name = n: Bytes | |n| <= MAX_FILENAME_LENGTH witness []

  datatype Entry = Entry(name: Name, inum: U64)

  /** The record for an entry, built over the bytes that were in memory. */
  function Encode(e: Entry, junk: Record): Record {
    ToBytes(e.inum, 8)
    + e.name + junk[NAME_AT + |e.name|..LENGTH_AT]
    + ToBytes(|e.name|, 2) + junk[PADDING_AT..]
  }

  predicate Readable(r: Record) {
    U16At(r, LENGTH_AT) <= MAX_FILENAME_LENGTH
  }

  function Decode(r: Record): Entry
    requires Readable(r)
  {
    Entry(r[NAME_AT..NAME_AT + U16At(r, LENGTH_AT)], U64At(r, 0))
  }

  /** Whatever the junk was, an entry is read back as it was written. */
  lemma EntryRoundTrip(e: Entry, junk: Record)
    ensures Readable(Encode(e, junk)) && Decode(Encode(e, junk)) == e
  {
    var r := Encode(e, junk);
    assert r[0..8] == ToBytes(e.inum, 8);
    U64RoundTrip(r, 0, e.inum);
    assert r[LENGTH_AT..LENGTH_AT + 2] == ToBytes(|e.name|, 2);
    U16RoundTrip(r, LENGTH_AT, |e.name|);
    assert r[NAME_AT..NAME_AT + |e.name|] == e.name;
  }

  /** Where the fields of a record are; all other bytes are what was in memory. */
  lemma RecordLayout(e: Entry, junk: Record)
    ensures var r := Encode(e, junk);
            && U64At(r, 0) == e.inum && r[8..8 + |e.name|] == e.name && U16At(r, 72) == |e.name|
            && forall p :: 8 + |e.name| <= p < 72 || 74 <= p < 80 ==> r[p] == junk[p]
  {
    EntryRoundTrip(e, junk);
    var r := Encode(e, junk);
    assert r[NAME_AT..NAME_AT + |e.name|] == e.name;
  }

  /** Whole records only, each with a name that fits its field. */
  predicate Records(buf: Bytes)
    decreases |buf|
  {
    buf == [] || (|buf| >= RECORD_SIZE && Readable(buf[..RECORD_SIZE]) && Records(buf[RECORD_SIZE..]))
  }

  function DecodeAll(buf: Bytes): seq<Entry>
    requires Records(buf)
    decreases |buf|
  {
    if buf == [] then [] else [Decode(buf[..RECORD_SIZE])] + DecodeAll(buf[RECORD_SIZE..])
  }

  function EncodeAll(es: seq<Entry>, junks: seq<Record>): Bytes
    requires |junks| == |es|
  {
    if es == [] then [] else Encode(es[0], junks[0]) + EncodeAll(es[1..], junks[1..])
  }

  /** A list of entries is read back as it was written. */
  lemma {:induction false} ListRoundTrip(es: seq<Entry>, junks: seq<Record>)
    requires |junks| == |es|
    ensures |EncodeAll(es, junks)| == |es| * RECORD_SIZE
    ensures Records(EncodeAll(es, junks)) && DecodeAll(EncodeAll(es, junks)) == es
  {
    if es != [] {
      var r: Bytes, rest: Bytes := Encode(es[0], junks[0]), EncodeAll(es[1..], junks[1..]);
      EntryRoundTrip(es[0], junks[0]);
      ListRoundTrip(es[1..], junks[1..]);
      assert (r + rest)[..RECORD_SIZE] == r && (r + rest)[RECORD_SIZE..] == rest;
    }
  }

  /** A record appended is an entry appended. */
  lemma {:induction false} AppendRecord(buf: Bytes, r: Record)
    requires Records(buf) && Readable(r)
    ensures Records(buf + r) && DecodeAll(buf + r) == DecodeAll(buf) + [Decode(r)]
    decreases |buf|
  {
    if buf == [] {
      assert buf + r == r && r[..RECORD_SIZE] == r && r[RECORD_SIZE..] == [];
    } else {
      AppendRecord(buf[RECORD_SIZE..], r);
      assert (buf + r)[..RECORD_SIZE] == buf[..RECORD_SIZE];
      assert (buf + r)[RECORD_SIZE..] == buf[RECORD_SIZE..] + r;
    }
  }

  lemma {:induction false} WholeRecords(buf: Bytes)
    requires Records(buf)
    ensures |buf| % RECORD_SIZE == 0 && |DecodeAll(buf)| == |buf| / RECORD_SIZE
    decreases |buf|
  {
    if buf != [] {
      WholeRecords(buf[RECORD_SIZE..]);
    }
  }

  lemma RestSliced(buf: Bytes, from: nat, a: nat, b: nat)
    requires from + b <= |buf| && a <= b
    ensures buf[from..][a..b] == buf[from + a..from + b]
  {
  }

  /** Entry `k` is in the bytes from `k` times the record size on. */
  lemma {:induction false} EntryAt(buf: Bytes, k: nat)
    requires Records(buf) && k < |DecodeAll(buf)|
    ensures (k + 1) * RECORD_SIZE <= |buf|
    ensures var r := buf[k * RECORD_SIZE..(k + 1) * RECORD_SIZE]; Readable(r) && DecodeAll(buf)[k] == Decode(r)
    decreases |buf|
  {
    if k == 0 {
      assert buf[0 * RECORD_SIZE..1 * RECORD_SIZE] == buf[..RECORD_SIZE];
    } else {
      EntryAt(buf[RECORD_SIZE..], k - 1);
      RestSliced(buf, RECORD_SIZE, (k - 1) * RECORD_SIZE, k * RECORD_SIZE);
    }
  }

  // Entries as a map from names to inode numbers.

  predicate DistinctNames(es: seq<Entry>) {
    forall i, j :: 0 <= i < j < |es| ==> es[i].name != es[j].name
  }

  /** The first entry of that name, or the number of entries. */
  function Find(es: seq<Entry>, name: Name): (k: nat)
    ensures k <= |es|
    ensures k < |es| ==> es[k].name == name
    ensures forall j :: 0 <= j < k ==> es[j].name != name
  {
    if es == [] || es[0].name == name then 0 else 1 + Find(es[1..], name)
  }

  function Bindings(es: seq<Entry>): map<Name, U64> {
    map n | n in Names(es) :: es[Find(es, n)].inum
  }

  function Names(es: seq<Entry>): (s: set<Name>)
    ensures forall n :: n in s <==> Find(es, n) < |es|
  {
    NamesFound(es);
    set e | e in es :: e.name
  }

  lemma NamesFound(es: seq<Entry>)
    ensures forall n: Name :: n in (set e | e in es :: e.name) <==> Find(es, n) < |es|
  {
    forall n: Name | n in (set e | e in es :: e.name)
      ensures Find(es, n) < |es|
    {
      var k :| 0 <= k < |es| && es[k].name == n;
    }
    forall n: Name | Find(es, n) < |es|
      ensures n in (set e | e in es :: e.name)
    {
      assert es[Find(es, n)] in es;
    }
  }

  function Drop(es: seq<Entry>, k: nat): seq<Entry>
    requires k < |es|
  {
    es[..k] + es[k + 1..]
  }

  lemma FindIs(es: seq<Entry>, k: nat, n: Name)
    requires k <= |es| && (k < |es| ==> es[k].name == n) && forall j :: 0 <= j < k ==> es[j].name != n
    ensures Find(es, n) == k
  {
  }

  lemma AddFind(es: seq<Entry>, e: Entry, n: Name)
    requires Find(es, e.name) == |es|
    ensures n != e.name ==> Find(es + [e], n) == if Find(es, n) < |es| then Find(es, n) else |es| + 1
    ensures n == e.name ==> Find(es + [e], n) == |es|
  {
    var k, es' := Find(es, n), es + [e];
    assert forall j :: 0 <= j < |es| ==> es'[j] == es[j];
    if k < |es| {
      FindIs(es', k, n);
    } else {
      FindIs(es', if n == e.name then |es| else |es| + 1, n);
    }
  }

  lemma AddDistinct(es: seq<Entry>, e: Entry)
    requires DistinctNames(es) && Find(es, e.name) == |es|
    ensures DistinctNames(es + [e])
  {
  }

  lemma AddBinding(es: seq<Entry>, e: Entry, n: Name)
    requires Find(es, e.name) == |es|
    ensures n in Bindings(es + [e]) <==> n in Bindings(es) || n == e.name
    ensures n in Bindings(es + [e]) ==> Bindings(es + [e])[n] == if n == e.name then e.inum else Bindings(es)[n]
  {
    AddFind(es, e, n);
  }

  lemma SameBindings(m: map<Name, U64>, m': map<Name, U64>)
    requires forall n: Name :: n in m <==> n in m'
    requires forall n: Name :: n in m ==> m[n] == m'[n]
    ensures m == m'
  {
  }

  /** Adding an entry of a new name adds exactly one binding. */
  lemma AddBinds(es: seq<Entry>, e: Entry)
    requires DistinctNames(es) && Find(es, e.name) == |es|
    ensures DistinctNames(es + [e]) && Bindings(es + [e]) == Bindings(es)[e.name := e.inum]
  {
    AddDistinct(es, e);
    var was, now := Bindings(es), Bindings(es + [e]);
    forall n: Name
      ensures n in now <==> n in was[e.name := e.inum]
      ensures n in now ==> now[n] == was[e.name := e.inum][n]
    {
      AddBinding(es, e, n);
    }
    SameBindings(now, was[e.name := e.inum]);
  }

  lemma DropFind(es: seq<Entry>, k: nat, n: Name)
    requires DistinctNames(es) && k < |es|
    ensures var m := Find(es, n);
            Find(Drop(es, k), n) == if m < k then m else if k < m < |es| then m - 1 else |es| - 1
  {
    var m, es' := Find(es, n), Drop(es, k);
    assert forall j :: 0 <= j < |es'| ==> es'[j] == if j < k then es[j] else es[j + 1];
    if m < |es| {
      assert forall j :: 0 <= j < |es| && j != m ==> es[j].name != n;
    }
    FindIs(es', if m < k then m else if k < m < |es| then m - 1 else |es| - 1, n);
  }

  lemma DropDistinct(es: seq<Entry>, k: nat)
    requires DistinctNames(es) && k < |es|
    ensures DistinctNames(Drop(es, k))
  {
    var es' := Drop(es, k);
    assert forall j :: 0 <= j < |es'| ==> es'[j] == if j < k then es[j] else es[j + 1];
  }

  lemma DropBinding(es: seq<Entry>, k: nat, n: Name)
    requires DistinctNames(es) && k < |es|
    ensures n in Bindings(Drop(es, k)) <==> n in Bindings(es) && n != es[k].name
    ensures n in Bindings(Drop(es, k)) ==> Bindings(Drop(es, k))[n] == Bindings(es)[n]
  {
    DropFind(es, k, n);
    if n == es[k].name {
      FindIs(es, k, n);
    }
  }

  /** Dropping an entry removes exactly one binding; the others keep their order. */
  lemma DropUnbinds(es: seq<Entry>, k: nat)
    requires DistinctNames(es) && k < |es|
    ensures DistinctNames(Drop(es, k)) && Bindings(Drop(es, k)) == Bindings(es) - {es[k].name}
  {
    DropDistinct(es, k);
    var gone: Name := es[k].name;
    var now, expected := Bindings(Drop(es, k)), Bindings(es) - {gone};
    forall n: Name
      ensures n in now <==> n in expected
      ensures n in now ==> now[n] == expected[n]
    {
      DropBinding(es, k, n);
    }
    SameBindings(now, expected);
  }
}
