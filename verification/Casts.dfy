/** The chunked loops of the 16-bit casts over whole buffers, least significant byte first. */
module Casts {
  import opened Bytes
  import opened Float16

  const CAST_CHUNK := 16384

  function ByteOf(value: nat, k: nat): byte {
    match k
    case 0 => (value % 256) as byte
    case 1 => (value / 256 % 256) as byte
    case 2 => (value / 65536 % 256) as byte
    case _ => (value / 16777216 % 256) as byte
  }

  function Two(bits: nat): Bytes {
    [ByteOf(bits, 0), ByteOf(bits, 1)]
  }

  function Four(bits: nat): Bytes {
    [ByteOf(bits, 0), ByteOf(bits, 1), ByteOf(bits, 2), ByteOf(bits, 3)]
  }

  function FromTwo(s: Bytes): (v: nat)
    requires |s| == 2
    ensures v < U16
  {
    s[0] as nat + 256 * s[1] as nat
  }

  function FromFour(s: Bytes): (v: nat)
    requires |s| == 4
    ensures v < U32
  {
    s[0] as nat + 256 * s[1] as nat + 65536 * s[2] as nat + 16777216 * s[3] as nat
  }

  lemma FromTwoOfTwo(bits: nat)
    requires bits < U16
    ensures FromTwo(Two(bits)) == bits
  {
  }

  lemma FromFourOfFour(bits: nat)
    requires bits < U32
    ensures FromFour(Four(bits)) == bits
  {
    var low, high := bits % 65536, bits / 65536;
    assert high % 256 == bits / 65536 % 256 && high / 256 % 256 == bits / 16777216 % 256;
    assert low % 256 == bits % 256 && low / 256 == bits / 256 % 256;
    assert low == low % 256 + 256 * (low / 256) && high == high % 256 + 256 * (high / 256 % 256);
  }

  method StoreTwo(out: array<byte>, at: nat, bits: nat)
    requires at + 2 <= out.Length
    modifies out
    ensures out[..at + 2] == old(out[..at]) + Two(bits)
  {
    ghost var done := out[..at];
    out[at], out[at + 1] := ByteOf(bits, 0), ByteOf(bits, 1);
    hide ByteOf;
    assert out[..at + 2] == done + Two(bits);
  }

  method StoreFour(out: array<byte>, at: nat, bits: nat)
    requires at + 4 <= out.Length
    modifies out
    ensures out[..at + 4] == old(out[..at]) + Four(bits)
  {
    hide ByteOf;
    ghost var done := out[..at];
    out[at], out[at + 1], out[at + 2], out[at + 3] :=
      ByteOf(bits, 0), ByteOf(bits, 1), ByteOf(bits, 2), ByteOf(bits, 3);
    assert out[..at + 4] == done + Four(bits);
  }

  function U16At(s: Bytes, i: nat): (v: nat)
    requires 2 * i + 2 <= |s|
    ensures v < U16
  {
    FromTwo(s[2 * i..2 * i + 2])
  }

  function U32At(s: Bytes, i: nat): (v: nat)
    requires 4 * i + 4 <= |s|
    ensures v < U32
  {
    FromFour(s[4 * i..4 * i + 4])
  }

  /** The first `n` elements of `data`, each narrowed. */
  function Narrowed(h: Half, data: Bytes, n: nat): (r: Bytes)
    requires 4 * n <= |data|
    ensures |r| == 2 * n
  {
    if n == 0 then [] else Narrowed(h, data, n - 1) + Two(Narrow(h, U32At(data, n - 1)))
  }

  /** The first `n` elements of `data`, each widened. */
  function Widened(h: Half, data: Bytes, n: nat): (r: Bytes)
    requires 2 * n <= |data|
    ensures |r| == 4 * n
  {
    if n == 0 then [] else Widened(h, data, n - 1) + Four(Widen(h, U16At(data, n - 1)))
  }

  method NarrowBuffer(h: Half, data: Bytes) returns (r: Result<Bytes>)
    ensures r == if |data| % 4 != 0 then Err(Config) else Ok(Narrowed(h, data, |data| / 4))
  {
    if |data| % 4 != 0 {
      return Err(Config);
    }
    hide Narrowed;
    var count := |data| / 4;
    var out := new byte[2 * count];
    var first := 0;
    EmptyPrefix(h, data);
    while first < count
      invariant 0 <= first <= count
      invariant out[..2 * first] == Narrowed(h, data, first)
    {
      var len := Min(CAST_CHUNK, count - first);
      NarrowChunk(h, data, first, len, out);
      first := first + len;
    }
    assert out[..] == out[..2 * count];
    return Ok(out[..]);
  }

  lemma EmptyPrefix(h: Half, data: Bytes)
    ensures Narrowed(h, data, 0) == [] && Widened(h, data, 0) == []
  {
  }

  method NarrowChunk(h: Half, data: Bytes, first: nat, len: nat, out: array<byte>)
    requires 4 * (first + len) <= |data| && 2 * (first + len) <= out.Length
    requires out[..2 * first] == Narrowed(h, data, first)
    modifies out
    ensures out[..2 * (first + len)] == Narrowed(h, data, first + len)
  {
    hide Narrow, Two, U32At;
    var i := 0;
    while i < len
      invariant 0 <= i <= len
      invariant out[..2 * (first + i)] == Narrowed(h, data, first + i)
    {
      var bits := Narrow(h, U32At(data, first + i));
      StoreTwo(out, 2 * (first + i), bits);
      i := i + 1;
    }
  }

  method WidenBuffer(h: Half, data: Bytes) returns (r: Result<Bytes>)
    ensures r == if |data| % 2 != 0 then Err(Config) else Ok(Widened(h, data, |data| / 2))
  {
    if |data| % 2 != 0 {
      return Err(Config);
    }
    hide Widened;
    var count := |data| / 2;
    var out := new byte[4 * count];
    var first := 0;
    EmptyPrefix(h, data);
    while first < count
      invariant 0 <= first <= count
      invariant out[..4 * first] == Widened(h, data, first)
    {
      var len := Min(CAST_CHUNK, count - first);
      WidenChunk(h, data, first, len, out);
      first := first + len;
    }
    assert out[..] == out[..4 * count];
    return Ok(out[..]);
  }

  method WidenChunk(h: Half, data: Bytes, first: nat, len: nat, out: array<byte>)
    requires 2 * (first + len) <= |data| && 4 * (first + len) <= out.Length
    requires out[..4 * first] == Widened(h, data, first)
    modifies out
    ensures out[..4 * (first + len)] == Widened(h, data, first + len)
  {
    hide Widen, Four, U16At;
    var i := 0;
    while i < len
      invariant 0 <= i <= len
      invariant out[..4 * (first + i)] == Widened(h, data, first + i)
    {
      var bits := Widen(h, U16At(data, first + i));
      StoreFour(out, 4 * (first + i), bits);
      i := i + 1;
    }
  }

  /** Each element of the narrowed buffer is the narrowed element, whatever chunk it fell in. */
  lemma {:induction false} NarrowedAt(h: Half, data: Bytes, n: nat, i: nat)
    requires 4 * n <= |data| && i < n
    ensures U16At(Narrowed(h, data, n), i) == Narrow(h, U32At(data, i))
  {
    var last := Narrow(h, U32At(data, n - 1));
    assert Narrowed(h, data, n) == Narrowed(h, data, n - 1) + Two(last);
    hide Narrowed, Narrow;
    var prefix := Narrowed(h, data, n - 1);
    if i < n - 1 {
      NarrowedAt(h, data, n - 1, i);
      assert (prefix + Two(last))[2 * i..2 * i + 2] == prefix[2 * i..2 * i + 2];
    } else {
      FromTwoOfTwo(last);
      assert (prefix + Two(last))[2 * i..2 * i + 2] == Two(last);
    }
  }

  lemma {:induction false} WidenedAt(h: Half, data: Bytes, n: nat, i: nat)
    requires 2 * n <= |data| && i < n
    ensures U32At(Widened(h, data, n), i) == Widen(h, U16At(data, i))
  {
    var last := Widen(h, U16At(data, n - 1));
    assert Widened(h, data, n) == Widened(h, data, n - 1) + Four(last);
    hide Widened, Widen;
    var prefix := Widened(h, data, n - 1);
    if i < n - 1 {
      WidenedAt(h, data, n - 1, i);
      assert (prefix + Four(last))[4 * i..4 * i + 4] == prefix[4 * i..4 * i + 4];
    } else {
      FromFourOfFour(last);
      assert (prefix + Four(last))[4 * i..4 * i + 4] == Four(last);
    }
  }

  /** A buffer is what its 16-bit elements are. */
  lemma SameElements(a: Bytes, b: Bytes)
    requires |a| == |b| && |a| % 2 == 0
    requires forall i :: 0 <= i < |a| / 2 ==> U16At(a, i) == U16At(b, i)
    ensures a == b
  {
    forall j | 0 <= j < |a|
      ensures a[j] == b[j]
    {
      var i := j / 2;
      assert U16At(a, i) == U16At(b, i);
      assert a[2 * i..2 * i + 2][0] == a[2 * i] && a[2 * i..2 * i + 2][1] == a[2 * i + 1];
      assert b[2 * i..2 * i + 2][0] == b[2 * i] && b[2 * i..2 * i + 2][1] == b[2 * i + 1];
      assert j == 2 * i || j == 2 * i + 1;
    }
  }

  /** A buffer survives the trip through fp32 and back exactly when each of its patterns does. */
  lemma BufferRoundTrip(h: Half, data: Bytes)
    requires |data| % 2 == 0
    ensures
      var count := |data| / 2;
      Narrowed(h, Widened(h, data, count), count) == data <==>
      forall i :: 0 <= i < count ==> Narrow(h, Widen(h, U16At(data, i))) == U16At(data, i)
  {
    hide Narrowed, Widened, Narrow, Widen, U16At, U32At;
    var count := |data| / 2;
    var wide := Widened(h, data, count);
    var back := Narrowed(h, wide, count);
    forall i | 0 <= i < count
      ensures U16At(back, i) == Narrow(h, Widen(h, U16At(data, i)))
    {
      WidenedAt(h, data, count, i);
      NarrowedAt(h, wide, count, i);
    }
    if forall i :: 0 <= i < count ==> U16At(back, i) == U16At(data, i) {
      SameElements(back, data);
    }
  }
}
