/** The fixed-size header a pack file opens with, pointing at the descriptor that ends it. */
module Pack {
  import opened Bytes

  const MAGIC: Bytes := [0x4D, 0x4F, 0x4F, 0x4E, 0x50, 0x41, 0x43, 0x4B]
  const VERSION := 1
  const HEADER_LEN := 32

  /** `width` bytes, least significant first; a value too wide loses its top bits. */
  function LittleEndian(value: nat, width: nat): (r: Bytes)
    ensures |r| == width
  {
    if width == 0 then [] else [(value % 256) as byte] + LittleEndian(value / 256, width - 1)
  }

  function FromLittleEndian(s: Bytes): nat {
    if s == [] then 0 else s[0] as nat + 256 * FromLittleEndian(s[1..])
  }

  function Pow256(n: nat): (r: nat)
    ensures r > 0
  {
    if n == 0 then 1 else 256 * Pow256(n - 1)
  }

  lemma {:induction false} LittleEndianRoundTrip(value: nat, width: nat)
    requires value < Pow256(width)
    ensures FromLittleEndian(LittleEndian(value, width)) == value
  {
    if width > 0 {
      LittleEndianRoundTrip(value / 256, width - 1);
      var r := LittleEndian(value, width);
      assert r[0] as nat == value % 256 && r[1..] == LittleEndian(value / 256, width - 1);
    }
  }

  /** `b` is the digit worth 256 to the `i`: what is left below it is worth less, above it more. */
  ghost predicate IsDigit(value: nat, i: nat, b: nat, low: nat, high: nat) {
    b < 256 && low < Pow256(i) && value == low + Pow256(i) * (b + 256 * high)
  }

  /** A value has one digit there. */
  lemma DigitIsOne(value: nat, i: nat, b: nat, low: nat, high: nat, c: nat, below: nat, above: nat)
    requires IsDigit(value, i, b, low, high) && IsDigit(value, i, c, below, above)
    ensures b == c
  {
    SameQuotient(Pow256(i), low, b + 256 * high, below, c + 256 * above);
    DigitsAgree(b, high, c, above);
  }

  lemma SameQuotient(p: nat, low: nat, m: nat, below: nat, n: nat)
    requires low < p && below < p && low + p * m == below + p * n
    ensures m == n
  {
    if m < n {
      MoreByOne(p, m, n);
    } else if n < m {
      MoreByOne(p, n, m);
    }
  }

  lemma {:induction false} MoreByOne(p: nat, m: nat, n: nat)
    requires m < n
    ensures p * n >= p * m + p
  {
    assert p * n == p * (n - 1) + p;
    if m + 1 < n {
      MoreByOne(p, m, n - 1);
    }
  }

  /** Least significant first: byte `i` is the digit worth 256 to the `i`. */
  lemma {:induction false} LittleEndianAt(value: nat, width: nat, i: nat) returns (low: nat, high: nat)
    requires i < width
    ensures IsDigit(value, i, LittleEndian(value, width)[i] as nat, low, high)
  {
    if i == 0 {
      low, high := 0, value / 256;
    } else {
      low, high := LittleEndianAt(value / 256, width - 1, i - 1);
      var m := LittleEndian(value, width)[i] as nat + 256 * high;
      assert 256 * (Pow256(i - 1) * m) == Pow256(i) * m;
      low := value % 256 + 256 * low;
    }
  }

  lemma DigitsAgree(d: nat, x: nat, e: nat, y: nat)
    requires d < 256 && e < 256 && d + 256 * x == e + 256 * y
    ensures d == e && x == y
  {
  }

  lemma {:induction false} FromLittleEndianInjective(a: Bytes, b: Bytes)
    requires |a| == |b| && FromLittleEndian(a) == FromLittleEndian(b)
    ensures a == b
  {
    if a != [] {
      var x, y := FromLittleEndian(a[1..]), FromLittleEndian(b[1..]);
      DigitsAgree(a[0] as nat, x, b[0] as nat, y);
      FromLittleEndianInjective(a[1..], b[1..]);
      assert a == [a[0]] + a[1..] && b == [b[0]] + b[1..];
    }
  }

  lemma Pow256OfEight()
    ensures Pow256(8) == 0x1_0000_0000_0000_0000
    ensures Pow256(4) == 0x1_0000_0000
  {
    assert Pow256(4) == 256 * (256 * (256 * (256 * Pow256(0))));
    assert Pow256(8) == 256 * (256 * (256 * (256 * Pow256(4))));
  }

  const U64_LIMIT := 0x1_0000_0000_0000_0000

  /** Whatever is written after it, reading the file back finds the span it was built for. */
  method EncodeHeader(offset: nat, length: nat) returns (header: Bytes)
    ensures header == Header(offset, length) && |header| == HEADER_LEN
    ensures offset < U64_LIMIT && length < U64_LIMIT ==>
              forall rest :: DecodeHeader(header + rest) == Some((offset, length))
  {
    header := MAGIC;
    header := header + LittleEndian(VERSION, 4);
    header := header + LittleEndian(0, 4);
    header := header + LittleEndian(offset, 8);
    header := header + LittleEndian(length, 8);
    if offset < U64_LIMIT && length < U64_LIMIT {
      forall rest
        ensures DecodeHeader(header + rest) == Some((offset, length))
      {
        HeaderRoundTrip(offset, length, rest);
      }
    }
  }

  function Header(offset: nat, length: nat): (r: Bytes)
    ensures |r| == HEADER_LEN
  {
    MAGIC + LittleEndian(VERSION, 4) + LittleEndian(0, 4) + LittleEndian(offset, 8) + LittleEndian(length, 8)
  }

  function DecodeHeader(bytes: Bytes): Option<(nat, nat)> {
    if |bytes| < HEADER_LEN || bytes[..8] != MAGIC then None
    else if FromLittleEndian(bytes[8..12]) != VERSION then None
    else Some((FromLittleEndian(bytes[16..24]), FromLittleEndian(bytes[24..32])))
  }

  lemma HeaderFields(offset: nat, length: nat, rest: Bytes)
    ensures
      var file := Header(offset, length) + rest;
      && file[..8] == MAGIC
      && file[8..12] == LittleEndian(VERSION, 4) && file[12..16] == LittleEndian(0, 4)
      && file[16..24] == LittleEndian(offset, 8) && file[24..32] == LittleEndian(length, 8)
  {
    var a, b, c := MAGIC, LittleEndian(VERSION, 4), LittleEndian(0, 4);
    var d, e := LittleEndian(offset, 8), LittleEndian(length, 8);
    FiveParts(a, b, c, d, e, rest);
  }

  /** The header byte by byte: the magic, the version, and both numbers of the span least significant byte first. */
  lemma HeaderBytes(offset: nat, length: nat, i: nat) returns (low: nat, high: nat, below: nat, above: nat)
    requires i < 8
    ensures IsDigit(offset, i, Header(offset, length)[16 + i] as nat, low, high)
    ensures IsDigit(length, i, Header(offset, length)[24 + i] as nat, below, above)
    ensures Header(offset, length)[..12] == MAGIC + [1, 0, 0, 0]
  {
    HeaderFields(offset, length, []);
    var header := Header(offset, length);
    assert header + [] == header;
    assert header[16..24][i] == header[16 + i] && header[24..32][i] == header[24 + i];
    assert LittleEndian(VERSION, 4) == [1] + LittleEndian(0, 3) == [1, 0, 0, 0];
    assert header[..12] == header[..8] + header[8..12];
    hide *;
    low, high := LittleEndianAt(offset, 8, i);
    below, above := LittleEndianAt(length, 8, i);
  }

  lemma FiveParts(a: Bytes, b: Bytes, c: Bytes, d: Bytes, e: Bytes, rest: Bytes)
    requires |a| == 8 && |b| == 4 && |c| == 4 && |d| == 8 && |e| == 8
    ensures
      var file := a + b + c + d + e + rest;
      && file[..8] == a && file[8..12] == b && file[12..16] == c && file[16..24] == d && file[24..32] == e
  {
  }

  /** Whatever follows it in the file, a header gives back the span it was built for. */
  lemma HeaderRoundTrip(offset: nat, length: nat, rest: Bytes)
    requires offset < U64_LIMIT && length < U64_LIMIT
    ensures DecodeHeader(Header(offset, length) + rest) == Some((offset, length))
  {
    HeaderFields(offset, length, rest);
    Pow256OfEight();
    LittleEndianRoundTrip(VERSION, 4);
    LittleEndianRoundTrip(offset, 8);
    LittleEndianRoundTrip(length, 8);
  }

  /** Nothing else is taken for a pack: only the reserved word of an accepted header is free. */
  lemma DecodeAcceptsOnlyHeaders(bytes: Bytes)
    requires DecodeHeader(bytes).Some?
    ensures
      var (offset, length) := DecodeHeader(bytes).value;
      && offset < U64_LIMIT && length < U64_LIMIT
      && bytes[..12] == Header(offset, length)[..12]
      && bytes[16..32] == Header(offset, length)[16..]
  {
    var (offset, length) := DecodeHeader(bytes).value;
    assert FromLittleEndian(bytes[8..12]) == VERSION && |Header(offset, length)| == HEADER_LEN == 32;
    assert FromLittleEndian(bytes[16..24]) == offset && FromLittleEndian(bytes[24..32]) == length;
    hide *;
    Pow256OfEight();
    FromLittleEndianBound(bytes[16..24]);
    FromLittleEndianBound(bytes[24..32]);
    HeaderFields(offset, length, []);
    assert Header(offset, length) + [] == Header(offset, length);
    LittleEndianRoundTrip(VERSION, 4);
    LittleEndianRoundTrip(offset, 8);
    LittleEndianRoundTrip(length, 8);
    FromLittleEndianInjective(bytes[8..12], LittleEndian(VERSION, 4));
    FromLittleEndianInjective(bytes[16..24], LittleEndian(offset, 8));
    FromLittleEndianInjective(bytes[24..32], LittleEndian(length, 8));
    assert bytes[..12] == bytes[..8] + bytes[8..12];
    assert bytes[16..32] == bytes[16..24] + bytes[24..32];
  }

  lemma {:induction false} FromLittleEndianBound(s: Bytes)
    ensures FromLittleEndian(s) < Pow256(|s|)
  {
    if s != [] {
      FromLittleEndianBound(s[1..]);
    }
  }
}
