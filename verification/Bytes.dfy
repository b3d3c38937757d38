/** Bytes and little-endian integers. */
module Bytes {
  type Byte = x: int | 0 <= x < 256

  function LittleEndian(bytes: seq<Byte>): nat {
    if bytes == [] then 0 else bytes[0] + 256 * LittleEndian(bytes[1..])
  }

  /** One past the largest integer of `width` bytes. */
  function Limit(width: nat): nat { if width == 0 then 1 else 256 * Limit(width - 1) }

  function Encoded(n: nat, width: nat): (bytes: seq<Byte>)
    ensures |bytes| == width
  {
    if width == 0 then [] else [n % 256] + Encoded(n / 256, width - 1)
  }

  lemma {:induction false} DecodesEncoded(n: nat, width: nat)
    requires n < Limit(width)
    ensures LittleEndian(Encoded(n, width)) == n
  {
    if width > 0 {
      assert n / 256 < Limit(width - 1);
      DecodesEncoded(n / 256, width - 1);
      assert Encoded(n, width)[1..] == Encoded(n / 256, width - 1);
    }
  }

  lemma {:induction false} DecodedWithin(bytes: seq<Byte>)
    ensures LittleEndian(bytes) < Limit(|bytes|)
  {
    if bytes != [] {
      DecodedWithin(bytes[1..]);
    }
  }

  lemma {:induction false} EncodesDecoded(bytes: seq<Byte>)
    ensures Encoded(LittleEndian(bytes), |bytes|) == bytes
  {
    if bytes != [] {
      EncodesDecoded(bytes[1..]);
      assert bytes == [bytes[0]] + bytes[1..];
    }
  }

  /** The first byte is the least significant one. */
  lemma LeastByteFirst(a: Byte, b: Byte, c: Byte, d: Byte)
    ensures LittleEndian([a, b]) == a + 0x100 * b
    ensures LittleEndian([a, b, c, d]) == a + 0x100 * b + 0x1_0000 * c + 0x100_0000 * d
  {
    FirstByte(b, []);
    FirstByte(a, [b]);
    FirstByte(d, []);
    FirstByte(c, [d]);
    FirstByte(b, [c, d]);
    FirstByte(a, [b, c, d]);
  }

  lemma FirstByte(a: Byte, rest: seq<Byte>)
    ensures LittleEndian([a] + rest) == a + 256 * LittleEndian(rest)
  {
    assert ([a] + rest)[1..] == rest;
  }

  lemma Middle(pre: seq<Byte>, x: seq<Byte>, post: seq<Byte>)
    ensures (pre + x + post)[|pre|..|pre| + |x|] == x
  {
  }

  lemma SliceOfSlice(s: seq<Byte>, a: nat, b: nat, c: nat, d: nat)
    requires a <= b <= |s| && c <= d <= b - a
    ensures s[a..b][c..d] == s[a + c..a + d]
  {
    forall i | 0 <= i < d - c ensures s[a..b][c..d][i] == s[a + c..a + d][i] {
      assert s[a..b][c + i] == s[a + (c + i)];
    }
  }

  lemma Regroup(a: seq<Byte>, b: seq<Byte>, c: seq<Byte>, d: seq<Byte>)
    ensures a + (b + c) + d == a + b + (c + d)
    ensures (a + b) + c + d == a + b + (c + d)
  {
  }
}
