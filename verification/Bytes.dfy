/** Bytes and little-endian words, as the structures on disk are laid out. */
module Bytes {
  type Byte = x: int | 0 <= x < 256
  type Bytes = seq<Byte>
  type U16 = x: int | 0 <= x < 0x1_0000
  type U32 = x: int | 0 <= x < 0x1_0000_0000
  type U64 = x: int | 0 <= x < 0x1_0000_0000_0000_0000

  function Pow256(n: nat): nat {
    if n == 0 then 1 else 256 * Pow256(n - 1)
  }

  function ToBytes(v: nat, n: nat): (b: Bytes)
    ensures |b| == n
  {
    if n == 0 then [] else [v % 256] + ToBytes(v / 256, n - 1)
  }

  function FromBytes(b: Bytes): (v: nat)
    ensures v < Pow256(|b|)
  {
    if b == [] then 0 else b[0] + 256 * FromBytes(b[1..])
  }

  lemma {:induction false} WordRoundTrip(v: nat, n: nat)
    requires v < Pow256(n)
    ensures FromBytes(ToBytes(v, n)) == v
  {
    if n > 0 {
      WordRoundTrip(v / 256, n - 1);
      assert ToBytes(v, n)[1..] == ToBytes(v / 256, n - 1);
    }
  }

  lemma WordRanges()
    ensures Pow256(2) == 0x1_0000 && Pow256(4) == 0x1_0000_0000 && Pow256(8) == 0x1_0000_0000_0000_0000
  {
    assert Pow256(1) == 256;
    assert Pow256(2) == 0x1_0000;
    assert Pow256(3) == 0x100_0000;
    assert Pow256(4) == 0x1_0000_0000;
    assert Pow256(5) == 0x100_0000_0000;
    assert Pow256(6) == 0x1_0000_0000_0000;
    assert Pow256(7) == 0x100_0000_0000_0000;
  }

  lemma {:induction false} ZeroWord(b: Bytes)
    requires forall k :: 0 <= k < |b| ==> b[k] == 0
    ensures FromBytes(b) == 0
  {
    if b != [] {
      ZeroWord(b[1..]);
    }
  }

  function U16At(b: Bytes, at: nat): U16
    requires at + 2 <= |b|
  {
    WordRanges();
    FromBytes(b[at..at + 2])
  }

  function U32At(b: Bytes, at: nat): U32
    requires at + 4 <= |b|
  {
    WordRanges();
    FromBytes(b[at..at + 4])
  }

  function U64At(b: Bytes, at: nat): U64
    requires at + 8 <= |b|
  {
    WordRanges();
    FromBytes(b[at..at + 8])
  }

  /** The lowest byte comes first. */
  lemma LittleEndian(b: Bytes)
    ensures |b| == 2 ==> FromBytes(b) == b[0] as int + 0x100 * b[1] as int
    ensures |b| == 4 ==>
              FromBytes(b) == b[0] as int + 0x100 * b[1] as int + 0x1_0000 * b[2] as int + 0x100_0000 * b[3] as int
    ensures |b| == 8 ==> FromBytes(b) == FromBytes(b[..4]) + 0x1_0000_0000 * FromBytes(b[4..])
  {
    if |b| == 2 || |b| == 4 {
      FirstBytes(b);
      assert b[|b|..] == [];
    } else if |b| == 8 {
      FirstBytes(b);
      FirstBytes(b[..4]);
      assert b[..4][4..] == [];
    }
  }

  /** A word by its lowest two bytes, and by its lowest four. */
  lemma FirstBytes(b: Bytes)
    ensures |b| >= 2 ==> FromBytes(b) == b[0] as int + 0x100 * b[1] as int + 0x1_0000 * FromBytes(b[2..])
    ensures |b| >= 4 ==>
              FromBytes(b) == b[0] as int + 0x100 * b[1] as int + 0x1_0000 * b[2] as int + 0x100_0000 * b[3] as int
                              + 0x1_0000_0000 * FromBytes(b[4..])
  {
    if |b| >= 2 {
      assert b[1..][1..] == b[2..];
    }
    if |b| >= 4 {
      assert b[2..][1..] == b[3..] && b[3..][1..] == b[4..];
    }
  }

  lemma U16RoundTrip(b: Bytes, at: nat, v: U16)
    requires at + 2 <= |b| && b[at..at + 2] == ToBytes(v, 2)
    ensures U16At(b, at) == v
  {
    WordRanges();
    WordRoundTrip(v, 2);
  }

  lemma U32RoundTrip(b: Bytes, at: nat, v: U32)
    requires at + 4 <= |b| && b[at..at + 4] == ToBytes(v, 4)
    ensures U32At(b, at) == v
  {
    WordRanges();
    WordRoundTrip(v, 4);
  }

  lemma U64RoundTrip(b: Bytes, at: nat, v: U64)
    requires at + 8 <= |b| && b[at..at + 8] == ToBytes(v, 8)
    ensures U64At(b, at) == v
  {
    WordRanges();
    WordRoundTrip(v, 8);
  }

  /** An array of 32-bit words. */
  function Words(ws: seq<U32>): (b: Bytes)
    ensures |b| == 4 * |ws|
  {
    if ws == [] then [] else ToBytes(ws[0], 4) + Words(ws[1..])
  }

  lemma {:induction false} WordsAt(ws: seq<U32>, i: nat)
    requires i < |ws|
    ensures Words(ws)[4 * i..4 * i + 4] == ToBytes(ws[i], 4)
  {
    if i == 0 {
      assert Words(ws)[0..4] == ToBytes(ws[0], 4);
    } else {
      WordsAt(ws[1..], i - 1);
      assert Words(ws)[4 * i..4 * i + 4] == Words(ws[1..])[4 * (i - 1)..4 * (i - 1) + 4];
    }
  }
}
