/** Bytes in memory, and the little-endian 16- and 32-bit fields the structures are made of. */
module Bytes {
  newtype Byte = b: int | 0 <= b < 0x100

  /** A WCHAR. */
  type Wchar = n: int | 0 <= n < 0x1_0000

  const SIZEOF_WCHAR: nat := 2
  const U16_RANGE: nat := 0x1_0000
  const U32_RANGE: nat := 0x1_0000_0000

  /** The number of values of a field of `width` bytes. */
  function Range(width: nat): (n: nat)
    ensures n > 0
  {
    if width == 0 then 1 else 0x100 * Range(width - 1)
  }

  function Encode(n: nat, width: nat): (s: seq<Byte>)
    ensures |s| == width
  {
    if width == 0 then [] else [(n % 0x100) as Byte] + Encode(n / 0x100, width - 1)
  }

  function Read(s: seq<Byte>, offset: nat, width: nat): (n: nat)
    requires offset + width <= |s|
    ensures n < Range(width)
    decreases width
  {
    if width == 0 then 0 else (s[offset] as int) + 0x100 * Read(s, offset + 1, width - 1)
  }

  lemma {:induction false} ReadEncoded(s: seq<Byte>, offset: nat, n: nat, width: nat)
    requires n < Range(width) && At(s, offset, Encode(n, width))
    ensures Read(s, offset, width) == n
    decreases width
  {
    if width > 0 {
      AtPart(s, offset, [(n % 0x100) as Byte], Encode(n / 0x100, width - 1));
      assert s[offset] == s[offset..offset + 1][0];
      ReadEncoded(s, offset + 1, n / 0x100, width - 1);
    }
  }

  /** A field is read the same wherever the bytes around it come from. */
  lemma {:induction false} SameField(s: seq<Byte>, p: nat, t: seq<Byte>, q: nat, width: nat)
    requires p + width <= |s| && At(t, q, s[p..p + width])
    ensures Read(s, p, width) == Read(t, q, width)
    decreases width
  {
    if width > 0 {
      assert s[p..p + width] == [s[p]] + s[p + 1..p + width];
      AtPart(t, q, [s[p]], s[p + 1..p + width]);
      assert t[q] == t[q..q + 1][0];
      SameField(s, p + 1, t, q + 1, width - 1);
    }
  }

  lemma Ranges()
    ensures Range(2) == U16_RANGE && Range(4) == U32_RANGE
  {
    assert Range(1) == 0x100;
    assert Range(2) == 0x1_0000;
    assert Range(3) == 0x100_0000;
  }

  function EncodeU16(n: nat): (s: seq<Byte>)
    requires n < U16_RANGE
    ensures |s| == 2
  {
    Encode(n, 2)
  }

  function EncodeU32(n: nat): (s: seq<Byte>)
    requires n < U32_RANGE
    ensures |s| == 4
  {
    Encode(n, 4)
  }

  function ReadU16(s: seq<Byte>, offset: nat): (n: nat)
    requires offset + 2 <= |s|
    ensures n < U16_RANGE
  {
    Ranges();
    Read(s, offset, 2)
  }

  function ReadU32(s: seq<Byte>, offset: nat): (n: nat)
    requires offset + 4 <= |s|
    ensures n < U32_RANGE
  {
    Ranges();
    Read(s, offset, 4)
  }

  lemma ReadEncodedU16(s: seq<Byte>, offset: nat, n: nat)
    requires n < U16_RANGE && At(s, offset, EncodeU16(n))
    ensures ReadU16(s, offset) == n
  {
    Ranges();
    ReadEncoded(s, offset, n, 2);
  }

  lemma ReadEncodedU32(s: seq<Byte>, offset: nat, n: nat)
    requires n < U32_RANGE && At(s, offset, EncodeU32(n))
    ensures ReadU32(s, offset) == n
  {
    Ranges();
    ReadEncoded(s, offset, n, 4);
  }

  /** The bytes `s` are found at `position`. */
  predicate At(bytes: seq<Byte>, position: nat, s: seq<Byte>) {
    position + |s| <= |bytes| && bytes[position..position + |s|] == s
  }

  lemma AtPart(bytes: seq<Byte>, position: nat, a: seq<Byte>, b: seq<Byte>)
    requires At(bytes, position, a + b)
    ensures At(bytes, position, a) && At(bytes, position + |a|, b)
  {
    var f := bytes[position..position + |a + b|];
    assert bytes[position..position + |a|] == f[..|a|] && bytes[position + |a|..position + |a| + |b|] == f[|a|..];
  }

  lemma Assoc(a: seq<Byte>, b: seq<Byte>, c: seq<Byte>)
    ensures a + (b + c) == (a + b) + c
  {
  }

  function EncodeWide(s: seq<Wchar>): (r: seq<Byte>)
    ensures |r| == SIZEOF_WCHAR * |s|
  {
    if s == [] then [] else EncodeU16(s[0]) + EncodeWide(s[1..])
  }

  function Concat(parts: seq<seq<Byte>>): (s: seq<Byte>) {
    if parts == [] then [] else parts[0] + Concat(parts[1..])
  }

  lemma ConcatThree(a: seq<Byte>, b: seq<Byte>, c: seq<Byte>)
    ensures Concat([a, b, c]) == a + b + c
  {
    assert Concat([c]) == c && Concat([b, c]) == b + Concat([c]);
  }

  lemma ConcatFour(a: seq<Byte>, b: seq<Byte>, c: seq<Byte>, d: seq<Byte>)
    ensures Concat([a, b, c, d]) == a + b + c + d
  {
    assert Concat([d]) == d && Concat([c, d]) == c + Concat([d]);
    assert Concat([b, c, d]) == b + Concat([c, d]);
  }

  function Zeros(n: nat): (s: seq<Byte>)
    ensures |s| == n
  {
    seq(n, _ => 0)
  }

  /** `s` with `t` written over it at `offset`. */
  function Overwrite(s: seq<Byte>, offset: nat, t: seq<Byte>): (r: seq<Byte>)
    requires offset + |t| <= |s|
    ensures |r| == |s| && r[offset..offset + |t|] == t
    ensures r[..offset] == s[..offset] && r[offset + |t|..] == s[offset + |t|..]
  {
    s[..offset] + t + s[offset + |t|..]
  }

  /** RtlCopyMemory into the middle of a buffer. */
  method CopyMemory(a: array<Byte>, offset: nat, t: seq<Byte>)
    requires offset + |t| <= a.Length
    modifies a
    ensures a[..] == Overwrite(old(a[..]), offset, t)
  {
    forall i | offset <= i < offset + |t| {
      a[i] := t[i - offset];
    }
  }
}
