/** Byte strings and the big-endian u32 that the file formats use for lengths and counters. */
module Bytes {

  type byte = b: int | 0 <= b < 256
  type bytes = seq<byte>

  const TWO_32: nat := 0x1_0000_0000

  datatype Option<+T> = None | Some(value: T)

  function Be16(n: nat): (r: bytes)
    requires n < 0x1_0000
    ensures |r| == 2
  {
    [n / 0x100, n % 0x100]
  }

  function FromBe16(b: bytes): (n: nat)
    requires |b| == 2
    ensures n < 0x1_0000
  {
    (b[0] as int) * 0x100 + b[1] as int
  }

  lemma Be16Bijection(n: nat, b: bytes)
    requires n < 0x1_0000 && |b| == 2
    ensures FromBe16(Be16(n)) == n
    ensures Be16(FromBe16(b)) == b
  {
  }

  function Be32(n: nat): (r: bytes)
    requires n < TWO_32
    ensures |r| == 4
  {
    Be16(n / 0x1_0000) + Be16(n % 0x1_0000)
  }

  function FromBe32(b: bytes): (n: nat)
    requires |b| == 4
    ensures n < TWO_32
  {
    FromBe16(b[..2]) * 0x1_0000 + FromBe16(b[2..])
  }

  lemma Be32Decodes(n: nat)
    requires n < TWO_32
    ensures FromBe32(Be32(n)) == n
  {
    var hi, lo := Be16(n / 0x1_0000), Be16(n % 0x1_0000);
    assert (hi + lo)[..2] == hi && (hi + lo)[2..] == lo;
    Be16Bijection(n / 0x1_0000, hi);
    Be16Bijection(n % 0x1_0000, lo);
  }

  lemma Be32Encodes(b: bytes)
    requires |b| == 4
    ensures Be32(FromBe32(b)) == b
  {
    Be16Bijection(0, b[..2]);
    Be16Bijection(0, b[2..]);
    var hi, lo := FromBe16(b[..2]), FromBe16(b[2..]);
    assert FromBe32(b) / 0x1_0000 == hi && FromBe32(b) % 0x1_0000 == lo;
    assert b[..2] + b[2..] == b;
  }

  /** The u32 encoding is a bijection between the numbers below 2^32 and the four-byte strings. */
  lemma Be32Bijection(n: nat, b: bytes)
    requires n < TWO_32 && |b| == 4
    ensures FromBe32(Be32(n)) == n
    ensures Be32(FromBe32(b)) == b
  {
    Be32Decodes(n);
    Be32Encodes(b);
  }

  /** The chunks of a file put back together. */
  function Concat(chunks: seq<bytes>): bytes
  {
    if chunks == [] then [] else chunks[0] + Concat(chunks[1..])
  }

  lemma {:induction false} ConcatAppend(a: seq<bytes>, b: seq<bytes>)
    ensures Concat(a + b) == Concat(a) + Concat(b)
  {
    if a == [] {
      assert a + b == b && Concat([]) == [];
    } else {
      ConcatAppend(a[1..], b);
      assert (a + b)[0] == a[0] && (a + b)[1..] == a[1..] + b;
      assert a[0] + (Concat(a[1..]) + Concat(b)) == (a[0] + Concat(a[1..])) + Concat(b);
    }
  }
}
