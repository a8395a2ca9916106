/** XOR deltas between two buffers of the same length. */
module Delta {
  import opened Bytes

  /** Tensors smaller than this are never delta-encoded. */
  const DELTA_MIN_SIZE := 4096
  const SCAN_CHUNK := 1048576

  function Power2(n: nat): (p: nat)
    ensures p > 0
  {
    if n == 0 then 1 else 2 * Power2(n - 1)
  }

  /** Exclusive or of the lowest `n` bits. */
  function XorBits(a: nat, b: nat, n: nat): (x: nat)
    ensures x < Power2(n)
  {
    if n == 0 then 0 else (if a % 2 == b % 2 then 0 else 1) + 2 * XorBits(a / 2, b / 2, n - 1)
  }

  lemma HalfXor(a: nat, b: nat, n: nat)
    requires n > 0
    ensures XorBits(a, b, n) / 2 == XorBits(a / 2, b / 2, n - 1)
    ensures XorBits(a, b, n) % 2 == if a % 2 == b % 2 then 0 else 1
  {
  }

  lemma {:induction false} XorBitsCancels(a: nat, b: nat, n: nat)
    requires a < Power2(n) && b < Power2(n)
    ensures XorBits(a, XorBits(a, b, n), n) == b
    ensures XorBits(a, b, n) == 0 <==> a == b
  {
    if n > 0 {
      var x := XorBits(a, b, n);
      var y := XorBits(a, x, n);
      HalfXor(a, b, n);
      HalfXor(a, x, n);
      XorBitsCancels(a / 2, b / 2, n - 1);
      SameHalves(y, b);
      SameHalves(x, 0);
      SameHalves(a, b);
    }
  }

  lemma SameHalves(x: nat, y: nat)
    ensures x == y <==> x / 2 == y / 2 && x % 2 == y % 2
  {
  }

  lemma {:induction false} XorBitsCommutes(a: nat, b: nat, n: nat)
    ensures XorBits(a, b, n) == XorBits(b, a, n)
  {
    if n > 0 {
      XorBitsCommutes(a / 2, b / 2, n - 1);
    }
  }

  lemma ByteRange()
    ensures Power2(8) == 256
  {
    assert Power2(4) == 16;
  }

  function XorByte(a: byte, b: byte): byte {
    ByteRange();
    XorBits(a as nat, b as nat, 8) as byte
  }

  function Xor(a: Bytes, b: Bytes): (r: Bytes)
    requires |a| == |b|
    ensures |r| == |a|
  {
    seq(|a|, i requires 0 <= i < |a| => XorByte(a[i], b[i]))
  }

  function DeltaOf(base: Bytes, target: Bytes): (r: Option<Bytes>)
    ensures r.Some? <==> |base| == |target| && DELTA_MIN_SIZE <= |base| && base != target
  {
    if |base| != |target| || |base| < DELTA_MIN_SIZE || base == target then None else Some(Xor(base, target))
  }

  function Applied(base: Bytes, delta: Bytes): Result<Bytes> {
    if |base| != |delta| then Err(Error.Delta) else Ok(Xor(base, delta))
  }

  /** What the next save computes against a base, the base turns back into what was saved. */
  lemma ApplyUndoesCompute(base: Bytes, target: Bytes)
    requires DeltaOf(base, target).Some?
    ensures Applied(base, DeltaOf(base, target).value) == Ok(target)
    ensures Applied(target, DeltaOf(base, target).value) == Ok(base)
  {
    var x := Xor(base, target);
    assert Xor(base, x) == target by {
      forall i | 0 <= i < |target| ensures Xor(base, x)[i] == target[i] {
        XorCancels(base[i], target[i]);
      }
    }
    assert Xor(target, x) == base by {
      forall i | 0 <= i < |base| ensures Xor(target, x)[i] == base[i] {
        XorCancels(base[i], target[i]);
      }
    }
  }

  lemma XorCancels(a: byte, b: byte)
    ensures XorByte(a, XorByte(a, b)) == b && XorByte(b, XorByte(a, b)) == a
    ensures XorByte(a, b) == 0 <==> a == b
  {
    ByteRange();
    XorBitsCancels(a as nat, b as nat, 8);
    XorBitsCancels(b as nat, a as nat, 8);
    XorBitsCommutes(a as nat, b as nat, 8);
  }

  /** A delta has no zero-free reading: it is all zeros exactly for equal buffers. */
  lemma DeltaZeroOnlyForEqual(base: Bytes, target: Bytes)
    requires |base| == |target|
    ensures Xor(base, target) == Zeros(|base|) <==> base == target
  {
    forall i | 0 <= i < |base|
      ensures Xor(base, target)[i] == 0 <==> base[i] == target[i]
    {
      XorCancels(base[i], target[i]);
    }
    if Xor(base, target) == Zeros(|base|) {
      assert forall i :: 0 <= i < |base| ==> Xor(base, target)[i] == 0;
    }
  }

  method XorBytes(base: Bytes, target: Bytes) returns (r: Bytes)
    requires |base| == |target|
    ensures r == Xor(base, target)
  {
    var out := new byte[|base|];
    var start := 0;
    while start < |base|
      invariant 0 <= start <= |base|
      invariant forall j :: 0 <= j < start ==> out[j] == XorByte(base[j], target[j])
    {
      var len := Min(SCAN_CHUNK, |base| - start);
      var i := 0;
      while i < len
        invariant 0 <= i <= len
        invariant forall j :: 0 <= j < start + i ==> out[j] == XorByte(base[j], target[j])
      {
        out[start + i] := XorByte(base[start + i], target[start + i]);
        i := i + 1;
      }
      start := start + len;
    }
    return out[..];
  }

  method BuffersEqual(base: Bytes, target: Bytes) returns (equal: bool)
    ensures equal <==> base == target
  {
    if |base| != |target| {
      return false;
    }
    var start := 0;
    while start < |base|
      invariant 0 <= start <= |base|
      invariant base[..start] == target[..start]
    {
      var len := Min(SCAN_CHUNK, |base| - start);
      if base[start..start + len] != target[start..start + len] {
        return false;
      }
      assert base[..start + len] == base[..start] + base[start..start + len];
      assert target[..start + len] == target[..start] + target[start..start + len];
      start := start + len;
    }
    assert base[..start] == base && target[..start] == target;
    return true;
  }

  method ComputeDelta(base: Bytes, target: Bytes) returns (r: Option<Bytes>)
    ensures r == DeltaOf(base, target)
  {
    if |base| != |target| || |base| < DELTA_MIN_SIZE {
      return None;
    }
    var equal := BuffersEqual(base, target);
    if equal {
      return None;
    }
    var delta := XorBytes(base, target);
    return Some(delta);
  }

  method ApplyDelta(base: Bytes, delta: Bytes) returns (r: Result<Bytes>)
    ensures r == Applied(base, delta)
  {
    if |base| != |delta| {
      return Err(Error.Delta);
    }
    var target := XorBytes(base, delta);
    return Ok(target);
  }
}
