/** Bytes, big-endian integers, and a few facts about sequences of byte strings. */
module ByteStrings {
  newtype byte = x: int | 0 <= x < 256

  type Bytes = seq<byte>

  /** The number with `width` big-endian digits in base 256 that the bytes spell. */
  function FromBigEndian(bytes: Bytes): (value: nat)
  {
    if bytes == [] then 0
    else FromBigEndian(bytes[..|bytes| - 1]) * 256 + bytes[|bytes| - 1] as nat
  }

  /** `u32::to_be_bytes` and `u64::to_be_bytes` for width 4 and 8: the low `width` bytes. */
  function ToBigEndian(value: nat, width: nat): (bytes: Bytes)
    ensures |bytes| == width
  {
    if width == 0 then []
    else ToBigEndian(value / 256, width - 1) + [(value % 256) as byte]
  }

  function Pow256(width: nat): (p: nat)
    ensures p > 0
  {
    if width == 0 then 1 else 256 * Pow256(width - 1)
  }

  /** Encoding then decoding gives the number back exactly when it fits the width. */
  lemma {:induction false} BigEndianRoundTrip(value: nat, width: nat)
    ensures FromBigEndian(ToBigEndian(value, width)) == value <==> value < Pow256(width)
  {
    if width == 0 {
    } else {
      var high := ToBigEndian(value / 256, width - 1);
      BigEndianRoundTrip(value / 256, width - 1);
      assert ToBigEndian(value, width)[..width - 1] == high;
    }
  }

  /** Decoding then encoding at the same width gives the bytes back. */
  lemma {:induction false} BigEndianInverse(bytes: Bytes)
    ensures FromBigEndian(bytes) < Pow256(|bytes|)
    ensures ToBigEndian(FromBigEndian(bytes), |bytes|) == bytes
  {
    if bytes == [] {
    } else {
      var high, last := bytes[..|bytes| - 1], bytes[|bytes| - 1];
      BigEndianInverse(high);
      assert high + [last] == bytes;
    }
  }

  lemma Pow256At()
    ensures Pow256(4) == 0x1_0000_0000
    ensures Pow256(8) == 0x1_0000_0000_0000_0000
  {
    assert Pow256(4) == 256 * Pow256(3) && Pow256(3) == 256 * Pow256(2);
    assert Pow256(8) == 256 * Pow256(7) && Pow256(7) == 256 * Pow256(6) && Pow256(6) == 256 * Pow256(5);
  }

  /** Concatenation is associative and can be cancelled on the left. */
  lemma Associative(a: Bytes, b: Bytes, c: Bytes)
    ensures (a + b) + c == a + (b + c)
  {
  }

  lemma CancelFront(front: Bytes, left: Bytes, right: Bytes)
    requires front + left == front + right
    ensures left == right
  {
    assert left == (front + left)[|front|..];
    assert right == (front + right)[|front|..];
  }

  lemma Regroup(a: Bytes, b: Bytes, c: Bytes, d: Bytes)
    ensures a + b + c + d == a + (b + (c + d))
  {
    Associative(a + b, c, d);
    Associative(a, b, c + d);
  }
}
