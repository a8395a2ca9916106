/**
 The byte-plane transpose applied to XOR deltas: byte 0 of every element, then byte 1
 of every element, and so on. A trailing partial element is copied through.
 */
module Shuffle {
  import opened Bytes

  const UNSHUFFLE_BLOCK := 8192

  predicate Transposes(len: nat, itemsize: nat) {
    itemsize > 1 && len / itemsize > 0
  }

  /** Which input byte lands at output position `j`. */
  function ShuffleSource(len: nat, itemsize: nat, j: nat): (i: nat)
    requires j < len
    ensures i < len
  {
    if Transposes(len, itemsize) && j < len / itemsize * itemsize then
      var count := len / itemsize;
      PlaneIndexBound(count, itemsize, j);
      j % count * itemsize + j / count
    else
      j
  }

  function UnshuffleSource(len: nat, itemsize: nat, j: nat): (i: nat)
    requires j < len
    ensures i < len
  {
    if Transposes(len, itemsize) && j < len / itemsize * itemsize then
      var count := len / itemsize;
      PlaneIndexBound(itemsize, count, j);
      j % itemsize * count + j / itemsize
    else
      j
  }

  function Shuffled(data: Bytes, itemsize: nat): (r: Bytes)
    ensures |r| == |data|
  {
    seq(|data|, j requires 0 <= j < |data| => data[ShuffleSource(|data|, itemsize, j)])
  }

  function Unshuffled(data: Bytes, itemsize: nat): (r: Bytes)
    ensures |r| == |data|
  {
    seq(|data|, j requires 0 <= j < |data| => data[UnshuffleSource(|data|, itemsize, j)])
  }

  lemma MulLess(a: int, b: int, c: int)
    requires a < b && 0 <= c
    ensures a * c + c <= b * c
  {
    assert (a + 1) * c <= b * c;
  }

  lemma DivModOf(q: int, r: int, d: int)
    requires 0 <= r < d
    ensures (q * d + r) / d == q && (q * d + r) % d == r
  {
    var x := q * d + r;
    assert x == x / d * d + x % d;
    if x / d < q {
      MulLess(x / d, q, d);
    } else if x / d > q {
      MulLess(q, x / d, d);
    }
  }

  lemma PlaneIndexBound(count: nat, itemsize: nat, j: nat)
    requires count > 0 && itemsize > 0 && j < count * itemsize
    ensures j / count < itemsize
    ensures 0 <= j % count * itemsize + j / count < count * itemsize
  {
    assert j == j / count * count + j % count;
    if j / count > itemsize {
      MulLess(itemsize, j / count, count);
    }
    MulLess(j % count, count, itemsize);
  }

  /** Byte `plane` of element `i` lies in plane `plane` of the transpose, and back. */
  lemma SourceOfByte(len: nat, itemsize: nat, count: nat, plane: nat, i: nat)
    requires Transposes(len, itemsize) && count == len / itemsize
    requires plane < itemsize && i < count
    ensures 0 <= i * itemsize + plane < len && 0 <= plane * count + i < len
    ensures ShuffleSource(len, itemsize, plane * count + i) == i * itemsize + plane
    ensures UnshuffleSource(len, itemsize, i * itemsize + plane) == plane * count + i
  {
    DivModOf(plane, i, count);
    DivModOf(i, plane, itemsize);
    MulLess(i, count, itemsize);
    MulLess(plane, itemsize, count);
  }

  /** Where a byte of the transposed part is, as an element and a plane of it. */
  lemma Parts(count: nat, itemsize: nat, j: nat) returns (plane: nat, i: nat)
    requires count > 0 && itemsize > 0 && j < count * itemsize
    ensures plane < itemsize && i < count && j == plane * count + i
  {
    PlaneIndexBound(count, itemsize, j);
    plane, i := j / count, j % count;
  }

  /** The two index maps undo each other, in either order. */
  lemma SourcesInverse(len: nat, itemsize: nat, j: nat)
    requires j < len
    ensures ShuffleSource(len, itemsize, UnshuffleSource(len, itemsize, j)) == j
    ensures UnshuffleSource(len, itemsize, ShuffleSource(len, itemsize, j)) == j
  {
    if Transposes(len, itemsize) && j < len / itemsize * itemsize {
      var count := len / itemsize;
      var plane, i := Parts(count, itemsize, j);
      var element, byte := Parts(itemsize, count, j);
      hide *;
      SourceOfByte(len, itemsize, count, plane, i);
      SourceOfByte(len, itemsize, count, byte, element);
    }
  }

  lemma UnshuffleShuffle(data: Bytes, itemsize: nat)
    ensures Unshuffled(Shuffled(data, itemsize), itemsize) == data
  {
    forall j | 0 <= j < |data|
      ensures Unshuffled(Shuffled(data, itemsize), itemsize)[j] == data[j]
    {
      SourcesInverse(|data|, itemsize, j);
    }
  }

  /** Reading `s` through pairwise distinct indices covering it keeps its multiset. */
  lemma {:induction false} ReindexKeepsMultiset(s: Bytes, p: seq<nat>)
    requires |p| == |s|
    requires forall i :: 0 <= i < |p| ==> p[i] < |s|
    requires forall i, j :: 0 <= i < j < |p| ==> p[i] != p[j]
    ensures multiset(seq(|p|, i requires 0 <= i < |p| => s[p[i]])) == multiset(s)
  {
    var t := seq(|p|, i requires 0 <= i < |p| => s[p[i]]);
    if |s| > 0 {
      var last := |s| - 1;
      var k := p[last];
      var s' := s[..k] + s[k + 1..];
      var p' := seq(last, i requires 0 <= i < last => if p[i] < k then p[i] else (p[i] - 1) as nat);
      ReindexKeepsMultiset(s', p');
      var t' := seq(|p'|, i requires 0 <= i < |p'| => s'[p'[i]]);
      assert t == t' + [s[k]];
      assert s == s[..k] + [s[k]] + s[k + 1..];
    }
  }

  /** `shuffle` only moves bytes: none is lost, none invented. */
  lemma ShufflePermutes(data: Bytes, itemsize: nat)
    ensures multiset(Shuffled(data, itemsize)) == multiset(data)
  {
    var p: seq<nat> := seq(|data|, j requires 0 <= j < |data| => ShuffleSource(|data|, itemsize, j));
    forall i, j | 0 <= i < j < |p|
      ensures p[i] != p[j]
    {
      SourcesInverse(|data|, itemsize, i);
      SourcesInverse(|data|, itemsize, j);
    }
    ReindexKeepsMultiset(data, p);
    assert Shuffled(data, itemsize) == seq(|p|, i requires 0 <= i < |p| => data[p[i]]);
  }

  lemma ShuffledAt(data: Bytes, itemsize: nat, plane: nat, i: nat)
    requires Transposes(|data|, itemsize)
    requires plane < itemsize && i < |data| / itemsize
    ensures 0 <= i * itemsize + plane < |data|
    ensures 0 <= plane * (|data| / itemsize) + i < |data|
    ensures Shuffled(data, itemsize)[plane * (|data| / itemsize) + i] == data[i * itemsize + plane]
  {
    SourceOfByte(|data|, itemsize, |data| / itemsize, plane, i);
    hide ShuffleSource;
  }

  lemma UnshuffledAt(data: Bytes, itemsize: nat, plane: nat, i: nat)
    requires Transposes(|data|, itemsize)
    requires plane < itemsize && i < |data| / itemsize
    ensures 0 <= i * itemsize + plane < |data|
    ensures 0 <= plane * (|data| / itemsize) + i < |data|
    ensures Unshuffled(data, itemsize)[i * itemsize + plane] == data[plane * (|data| / itemsize) + i]
  {
    SourceOfByte(|data|, itemsize, |data| / itemsize, plane, i);
    hide UnshuffleSource;
  }

  lemma TailUntouched(data: Bytes, itemsize: nat)
    requires Transposes(|data|, itemsize)
    ensures |data| / itemsize * itemsize <= |data|
    ensures Shuffled(data, itemsize)[|data| / itemsize * itemsize..] == data[|data| / itemsize * itemsize..]
    ensures Unshuffled(data, itemsize)[|data| / itemsize * itemsize..] == data[|data| / itemsize * itemsize..]
  {
    TailSources(|data|, itemsize, |data| / itemsize * itemsize);
    hide ShuffleSource, UnshuffleSource;
  }

  lemma TailSources(len: nat, itemsize: nat, n: nat)
    requires Transposes(len, itemsize) && n == len / itemsize * itemsize
    ensures n <= len
    ensures forall j :: n <= j < len ==> ShuffleSource(len, itemsize, j) == j && UnshuffleSource(len, itemsize, j) == j
  {
  }

  /** `out` agrees with `want` before `at` and from `n` on. */
  ghost predicate Filled(out: array<byte>, want: Bytes, at: nat, n: nat)
    requires out.Length == |want|
    reads out
  {
    forall j :: 0 <= j < |want| && (j < at || n <= j) ==> out[j] == want[j]
  }

  lemma AllFilled(out: array<byte>, want: Bytes, at: nat, n: nat)
    requires out.Length == |want| && n <= at && Filled(out, want, at, n)
    ensures out[..] == want
  {
  }

  lemma InitiallyFilled(out: array<byte>, data: Bytes, want: Bytes, n: nat)
    requires out.Length == |data| == |want| && n <= |data|
    requires out[n..] == data[n..] == want[n..]
    ensures Filled(out, want, 0, n)
  {
    forall j | n <= j < |want|
      ensures out[j] == want[j]
    {
      assert out[j] == out[n..][j - n] && want[j] == want[n..][j - n];
    }
  }

  method ShuffleBytes(data: Bytes, itemsize: nat) returns (r: Bytes)
    ensures r == Shuffled(data, itemsize)
  {
    if itemsize <= 1 || |data| / itemsize == 0 {
      return data;
    }
    r := WritePlanes(data, itemsize);
  }

  method WritePlanes(data: Bytes, itemsize: nat) returns (r: Bytes)
    requires Transposes(|data|, itemsize)
    ensures r == Shuffled(data, itemsize)
  {
    var count := |data| / itemsize;
    ghost var n := count * itemsize;
    var out := new byte[|data|];
    ghost var want := Shuffled(data, itemsize);
    TailUntouched(data, itemsize);
    forall j | count * itemsize <= j < |data| {
      out[j] := data[j];
    }
    InitiallyFilled(out, data, want, n);
    var plane, at := 0, 0;
    while plane < itemsize
      invariant 0 <= plane <= itemsize
      invariant at == plane * count
      invariant Filled(out, want, at, n)
    {
      at := WritePlane(data, itemsize, plane, out);
      plane := plane + 1;
    }
    AllFilled(out, want, at, n);
    return out[..];
  }

  method WritePlane(data: Bytes, itemsize: nat, plane: nat, out: array<byte>) returns (at: nat)
    requires Transposes(|data|, itemsize) && plane < itemsize && out.Length == |data|
    requires Filled(out, Shuffled(data, itemsize), plane * (|data| / itemsize), |data| / itemsize * itemsize)
    modifies out
    ensures at == (plane + 1) * (|data| / itemsize)
    ensures Filled(out, Shuffled(data, itemsize), at, |data| / itemsize * itemsize)
  {
    var count := |data| / itemsize;
    ghost var n := count * itemsize;
    ghost var want := Shuffled(data, itemsize);
    var i := 0;
    at := plane * count;
    while i < count
      invariant 0 <= i <= count
      invariant at == plane * count + i
      invariant Filled(out, want, at, n)
    {
      ShuffledAt(data, itemsize, plane, i);
      out[at] := data[i * itemsize + plane];
      i, at := i + 1, at + 1;
    }
  }

  method UnshuffleBytes(data: Bytes, itemsize: nat) returns (r: Bytes)
    ensures r == Unshuffled(data, itemsize)
  {
    if itemsize <= 1 || |data| / itemsize == 0 {
      return data;
    }
    r := WriteBlocks(data, itemsize);
  }

  method WriteBlocks(data: Bytes, itemsize: nat) returns (r: Bytes)
    requires Transposes(|data|, itemsize)
    ensures r == Unshuffled(data, itemsize)
  {
    var count := |data| / itemsize;
    ghost var n := count * itemsize;
    var out := new byte[|data|];
    ghost var want := Unshuffled(data, itemsize);
    TailUntouched(data, itemsize);
    forall j | count * itemsize <= j < |data| {
      out[j] := data[j];
    }
    InitiallyFilled(out, data, want, n);
    var first, at := 0, 0;
    while first < count
      invariant 0 <= first <= count
      invariant at == first * itemsize
      invariant Filled(out, want, at, n)
    {
      var size := Min(UNSHUFFLE_BLOCK, count - first);
      var i := 0;
      while i < size
        invariant 0 <= i <= size
        invariant at == (first + i) * itemsize
        invariant Filled(out, want, at, n)
      {
        at := WriteElement(data, itemsize, first + i, out);
        i := i + 1;
      }
      first := first + size;
    }
    AllFilled(out, want, at, n);
    return out[..];
  }

  method WriteElement(data: Bytes, itemsize: nat, i: nat, out: array<byte>) returns (at: nat)
    requires Transposes(|data|, itemsize) && i < |data| / itemsize && out.Length == |data|
    requires Filled(out, Unshuffled(data, itemsize), i * itemsize, |data| / itemsize * itemsize)
    modifies out
    ensures at == (i + 1) * itemsize
    ensures Filled(out, Unshuffled(data, itemsize), at, |data| / itemsize * itemsize)
  {
    var count := |data| / itemsize;
    ghost var n := count * itemsize;
    ghost var want := Unshuffled(data, itemsize);
    var plane := 0;
    at := i * itemsize;
    while plane < itemsize
      invariant 0 <= plane <= itemsize
      invariant at == i * itemsize + plane
      invariant Filled(out, want, at, n)
    {
      UnshuffledAt(data, itemsize, plane, i);
      out[at] := data[plane * count + i];
      plane, at := plane + 1, at + 1;
    }
  }

  /** Byte width of an element; a dtype this table does not know is left untransposed. */
  function ElementSize(dtype: string): nat {
    match dtype
    case "complex128" => 16
    case "float64" | "int64" | "uint64" | "complex64" => 8
    case "float32" | "int32" | "uint32" | "complex32" => 4
    case "float16" | "bfloat16" | "int16" | "uint16" => 2
    case _ => 1
  }
}
