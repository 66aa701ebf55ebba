/** The bytes of a file under read, write and setattr (yfs_client.cc). */
module FileBytes {
  import opened Options
  import opened Bytes

  const UINT_RANGE := 0x1_0000_0000

  function Min(a: nat, b: nat): nat {
    if a <= b then a else b
  }

  function Max(a: nat, b: nat): nat {
    if a <= b then b else a
  }

  /** `std::string::resize`. */
  function Resized(b: Bytes, n: nat): Bytes {
    if n <= |b| then b[..n] else b + seq(n - |b|, i => 0)
  }

  /** `std::string::replace` of as many bytes as there are in `data`. */
  function Replaced(b: Bytes, off: nat, data: Bytes): Bytes
    requires off <= |b|
  {
    b[..off] + data + b[Min(off + |data|, |b|)..]
  }

  /** `write`: the offset is cut to 32 bits in the test but not in the calls; `None`
      is where `replace` throws. */
  function Write(b: Bytes, off: nat, data: Bytes): Option<Bytes> {
    if off % UINT_RANGE <= |b| then
      if off <= |b| then Some(Replaced(b, off, data)) else None
    else
      assert off <= |data| + off;
      Some(Replaced(Resized(b, |data| + off), off, data))
  }

  /** `read`; `None` is where `substr` throws. */
  function Read(b: Bytes, off: nat, size: nat): Option<Bytes> {
    if off % UINT_RANGE >= |b| then Some([])
    else if off <= |b| then Some(b[off..Min(off + size, |b|)])
    else None
  }

  /** New bytes inside the range, old ones elsewhere, zeros in a gap. */
  function Overwritten(b: Bytes, off: nat, data: Bytes): Bytes {
    seq(Max(|b|, off + |data|), p requires p >= 0 =>
      if off <= p < off + |data| then data[p - off] else if p < |b| then b[p] else 0)
  }

  function Range(b: Bytes, off: nat, size: nat): Bytes {
    if off >= |b| then [] else b[off..Min(off + size, |b|)]
  }

  /** `write` overwrites the range exactly unless the offset, cut to 32 bits, falls
      into the file while the offset itself lies past its end. */
  lemma WriteIff(b: Bytes, off: nat, data: Bytes)
    ensures Write(b, off, data) == Some(Overwritten(b, off, data)) <==> !(off % UINT_RANGE <= |b| < off)
    ensures Write(b, off, data) == None <==> off % UINT_RANGE <= |b| < off
    ensures off < UINT_RANGE ==> Write(b, off, data) == Some(Overwritten(b, off, data))
  {
    if !(off % UINT_RANGE <= |b| < off) {
      var w, o := Write(b, off, data).value, Overwritten(b, off, data);
      assert |w| == |o|;
      assert forall p :: 0 <= p < |o| ==> w[p] == o[p];
      assert w == o;
    }
  }

  /** An empty file and an offset of 4 GB: the test lets it through to `replace`. */
  lemma FarWriteThrows(data: Bytes)
    ensures Write([], UINT_RANGE, data) == None && |Overwritten([], UINT_RANGE, data)| == UINT_RANGE + |data|
  {
  }

  /** `read` returns the range exactly under the like condition. */
  lemma ReadIff(b: Bytes, off: nat, size: nat)
    ensures Read(b, off, size) == Some(Range(b, off, size)) <==> !(off % UINT_RANGE < |b| < off)
    ensures Read(b, off, size) == None <==> off % UINT_RANGE < |b| < off
    ensures off < UINT_RANGE ==> Read(b, off, size) == Some(Range(b, off, size))
  {
    assert off == |b| ==> b[off..Min(off + size, |b|)] == [];
  }

  /** A file of one byte and the same offset: a read past the end throws. */
  lemma FarReadThrows(size: nat)
    ensures Read([0], UINT_RANGE, size) == None && Range([0], UINT_RANGE, size) == []
  {
  }

  /** What a read of any range sees after a write. */
  lemma ReadAfterWrite(b: Bytes, off: nat, data: Bytes, at: nat, size: nat)
    requires off < UINT_RANGE && at < UINT_RANGE
    ensures Write(b, off, data).Some? && |Write(b, off, data).value| == Max(|b|, off + |data|)
    ensures var w := Write(b, off, data).value;
            && Read(w, at, size).Some?
            && |Read(w, at, size).value| == Min(size, if at <= |w| then |w| - at else 0)
            && forall p :: 0 <= p < |Read(w, at, size).value| ==>
                 Read(w, at, size).value[p] == if off <= at + p < off + |data| then data[at + p - off]
                                               else if at + p < |b| then b[at + p]
                                               else 0
  {
    WriteIff(b, off, data);
    ReadIff(Write(b, off, data).value, at, size);
  }

  lemma OverwritesCommute(b: Bytes, off: nat, data: Bytes, off': nat, data': Bytes)
    requires off + |data| <= off' || off' + |data'| <= off
    ensures Overwritten(Overwritten(b, off, data), off', data') == Overwritten(Overwritten(b, off', data'), off, data)
  {
    var w, w' := Overwritten(b, off, data), Overwritten(b, off', data');
    var x, x' := Overwritten(w, off', data'), Overwritten(w', off, data);
    assert |x| == |x'|;
    forall p | 0 <= p < |x|
      ensures x[p] == x'[p]
    {
      assert p < |w| ==> w[p] == if off <= p < off + |data| then data[p - off] else if p < |b| then b[p] else 0;
      assert p < |w'| ==> w'[p] == if off' <= p < off' + |data'| then data'[p - off'] else if p < |b| then b[p] else 0;
    }
  }

  /** Writes to disjoint ranges commute. */
  lemma DisjointWritesCommute(b: Bytes, off: nat, data: Bytes, off': nat, data': Bytes)
    requires off < UINT_RANGE && off' < UINT_RANGE
    requires off + |data| <= off' || off' + |data'| <= off
    ensures var w, w' := Write(b, off, data), Write(b, off', data');
            && w.Some? && w'.Some? && Write(w.value, off', data') == Write(w'.value, off, data)
  {
    WriteIff(b, off, data);
    WriteIff(b, off', data');
    WriteIff(Overwritten(b, off, data), off', data');
    WriteIff(Overwritten(b, off', data'), off, data);
    OverwritesCommute(b, off, data, off', data');
  }

  /** `setattr` keeps the common part and fills up with zeros; cutting down what was
      filled up gives back the file. */
  lemma ResizeKeeps(b: Bytes, n: nat)
    ensures |Resized(b, n)| == n
    ensures forall p :: 0 <= p < n ==> Resized(b, n)[p] == if p < |b| then b[p] else 0
    ensures n >= |b| ==> Resized(Resized(b, n), |b|) == b
  {
  }
}
