/** Byte buffers, and the failure-carrying values the other modules share. */
module Bytes {
  newtype byte = x: int | 0 <= x < 256
  type Bytes = seq<byte>

  datatype Option<+T> = None | Some(value: T)

  datatype Error =
    | NotFound
    | Storage
    | Integrity
    | Delta
    | Compression
    | Config

  datatype Result<+T> = Ok(value: T) | Err(error: Error) {
    predicate IsFailure() {
      Err?
    }

    function PropagateFailure<U>(): Result<U>
      requires Err?
    {
      Err(error)
    }

    function Extract(): T
      requires Ok?
    {
      value
    }
  }

  function Zeros(n: nat): Bytes {
    seq(n, _ => 0)
  }

  /** What precedes the trailing zeros a page-padded file ends with. */
  function TrimZeros(s: Bytes): (r: Bytes)
    ensures r <= s
    ensures |r| > 0 ==> r[|r| - 1] != 0
    ensures forall i :: |r| <= i < |s| ==> s[i] == 0
  {
    if |s| > 0 && s[|s| - 1] == 0 then TrimZeros(s[..|s| - 1]) else s
  }

  lemma {:induction false} TrimPadded(s: Bytes, pad: nat)
    requires |s| > 0 && s[|s| - 1] != 0
    ensures TrimZeros(s + Zeros(pad)) == s
  {
    if pad == 0 {
      assert s + Zeros(pad) == s;
    } else {
      assert (s + Zeros(pad))[..|s| + pad - 1] == s + Zeros(pad - 1);
      TrimPadded(s, pad - 1);
    }
  }

  function Min(a: nat, b: nat): nat {
    if a <= b then a else b
  }

  /** The bytes of `s` from `offset`, at most `len` of them: a read past the end is cut short. */
  function Slice(s: Bytes, offset: nat, len: nat): (r: Bytes)
    ensures |r| <= len
    ensures offset + len <= |s| ==> r == s[offset..offset + len]
  {
    var start := Min(offset, |s|);
    s[start..Min(start + len, |s|)]
  }

  function Concat(parts: seq<Bytes>): Bytes {
    if parts == [] then [] else parts[0] + Concat(parts[1..])
  }

  lemma {:induction false} ConcatAppend(a: seq<Bytes>, b: seq<Bytes>)
    ensures Concat(a + b) == Concat(a) + Concat(b)
  {
    if a == [] {
      assert a + b == b;
    } else {
      ConcatAppend(a[1..], b);
      assert (a + b)[1..] == a[1..] + b;
    }
  }
}
