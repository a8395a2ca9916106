/**
 Compression of whole buffers: one zstd frame up to `PARALLEL_CHUNK` bytes, a run of
 concatenated frames above it, decoded back through the layout the frame headers give.
 */
module Compression {
  import opened Bytes

  const PARALLEL_CHUNK := 4194304

  datatype Algo = Store | ZstdLevel(level: int)

  /** Decoding does not look at the level, only at whether the bytes are zstd at all. */
  predicate SameKind(a: Algo, b: Algo) {
    a.Store? <==> b.Store?
  }

  /** The zstd library, as far as this code sees it. */
  datatype Zstd = Zstd(
    frame: (Bytes, int) -> Bytes,
    frameSize: Bytes -> Option<nat>,
    contentSize: Bytes -> Option<nat>,
    decodeFrame: Bytes -> Option<Bytes>,
    decodeStream: Bytes -> Option<Bytes>
  )

  /** One frame is decoded by itself whatever follows it (section 3.1 of RFC 8878). */
  ghost predicate Lossless(z: Zstd) {
    && (forall d: Bytes, l: int :: |z.frame(d, l)| > 0)
    && (forall d: Bytes, l: int, rest: Bytes :: z.frameSize(z.frame(d, l) + rest) == Some(|z.frame(d, l)|))
    && (forall d: Bytes, l: int :: z.contentSize(z.frame(d, l)) == Some(|d|))
    && (forall d: Bytes, l: int :: z.decodeFrame(z.frame(d, l)) == Some(d))
  }

  datatype Frame = Frame(offset: nat, size: nat, content: nat)

  function Chunks(data: Bytes): (cs: seq<Bytes>)
    ensures Concat(cs) == data
  {
    if data == [] then []
    else if |data| <= PARALLEL_CHUNK then assert Concat([data]) == data; [data]
    else
      var rest := Chunks(data[PARALLEL_CHUNK..]);
      assert [data[..PARALLEL_CHUNK]] + rest != [] && ([data[..PARALLEL_CHUNK]] + rest)[1..] == rest;
      [data[..PARALLEL_CHUNK]] + rest
  }

  /** Every chunk but the last is a whole one, none is empty, and there are no more than it takes. */
  lemma {:induction false} ChunkSizes(data: Bytes)
    ensures forall i :: 0 <= i < |Chunks(data)| ==> 0 < |Chunks(data)[i]| <= PARALLEL_CHUNK
    ensures forall i :: 0 <= i < |Chunks(data)| - 1 ==> |Chunks(data)[i]| == PARALLEL_CHUNK
  {
    if |data| > PARALLEL_CHUNK {
      ChunkSizes(data[PARALLEL_CHUNK..]);
    }
  }

  function FramesOf(z: Zstd, chunks: seq<Bytes>, level: int): (fs: seq<Bytes>)
    ensures |fs| == |chunks|
    ensures forall i :: 0 <= i < |fs| ==> fs[i] == z.frame(chunks[i], level)
  {
    seq(|chunks|, i requires 0 <= i < |chunks| => z.frame(chunks[i], level))
  }

  function Compressed(z: Zstd, data: Bytes, algo: Algo): Bytes {
    match algo
    case Store => data
    case ZstdLevel(level) =>
      if |data| <= PARALLEL_CHUNK then z.frame(data, level)
      else Concat(FramesOf(z, Chunks(data), level))
  }

  /** Where each frame of `data[off..]` lies, or None when a header does not say. */
  function LayoutFrom(z: Zstd, data: Bytes, off: nat): Option<seq<Frame>>
    requires off <= |data|
    decreases |data| - off
  {
    if off == |data| then Some([])
    else
      match z.frameSize(data[off..])
      case None => None
      case Some(size) =>
        if size == 0 || size > |data| - off then None
        else
          match z.contentSize(data[off..off + size])
          case None => None
          case Some(content) =>
            match LayoutFrom(z, data, off + size)
            case None => None
            case Some(rest) => Some([Frame(off, size, content)] + rest)
  }

  predicate Within(data: Bytes, fs: seq<Frame>) {
    forall i :: 0 <= i < |fs| ==> fs[i].offset + fs[i].size <= |data|
  }

  function DecodeOne(z: Zstd, data: Bytes, f: Frame): Result<Bytes>
    requires f.offset + f.size <= |data|
  {
    if f.content == 0 then Ok([])
    else
      match z.decodeFrame(data[f.offset..f.offset + f.size])
      case Some(d) => if |d| == f.content then Ok(d) else Err(Error.Compression)
      case None => Err(Error.Compression)
  }

  function DecodeAll(z: Zstd, data: Bytes, fs: seq<Frame>): Result<Bytes>
    requires Within(data, fs)
  {
    if fs == [] then Ok([])
    else
      var head :- DecodeOne(z, data, fs[0]);
      var rest :- DecodeAll(z, data, fs[1..]);
      Ok(head + rest)
  }

  lemma {:induction false} LayoutWithin(z: Zstd, data: Bytes, off: nat)
    requires off <= |data| && LayoutFrom(z, data, off).Some?
    ensures Within(data, LayoutFrom(z, data, off).value)
    decreases |data| - off
  {
    if off < |data| {
      LayoutWithin(z, data, off + z.frameSize(data[off..]).value);
    }
  }

  function Decompressed(z: Zstd, data: Bytes, algo: Algo): Result<Bytes> {
    match algo
    case Store => Ok(data)
    case ZstdLevel(_) =>
      if data == [] then Ok([])
      else
        match LayoutFrom(z, data, 0)
        case Some(fs) =>
          LayoutWithin(z, data, 0);
          DecodeAll(z, data, fs)
        case None =>
          match z.decodeStream(data)
          case Some(d) => Ok(d)
          case None => Err(Error.Compression)
  }

  /** Layout entry `f` of `data` is the frame of `chunk`, with its content size. */
  ghost predicate Frames(z: Zstd, data: Bytes, f: Frame, chunk: Bytes, level: int) {
    && f.offset + f.size <= |data|
    && data[f.offset..f.offset + f.size] == z.frame(chunk, level)
    && f.content == |chunk|
  }

  lemma FirstFrame(z: Zstd, chunk: Bytes, level: int, prefix: Bytes, tail: Bytes)
    requires Lossless(z)
    ensures
      var head := z.frame(chunk, level);
      var data := prefix + (head + tail);
      var f := Frame(|prefix|, |head|, |chunk|);
      && |head| > 0 && data == (prefix + head) + tail
      && Frames(z, data, f, chunk, level)
      && z.frameSize(data[|prefix|..]) == Some(|head|)
      && z.contentSize(data[|prefix|..|prefix| + |head|]) == Some(|chunk|)
      && DecodeOne(z, data, f) == Ok(chunk)
  {
    var head := z.frame(chunk, level);
    var data := prefix + (head + tail);
    assert data == (prefix + head) + tail;
    assert data[|prefix|..] == head + tail;
    assert data[|prefix|..|prefix| + |head|] == head;
  }

  lemma LayoutStep(z: Zstd, data: Bytes, off: nat, f: Frame)
    requires off < |data| && f.offset == off && 0 < f.size && off + f.size <= |data|
    requires z.frameSize(data[off..]) == Some(f.size)
    requires z.contentSize(data[off..off + f.size]) == Some(f.content)
    requires LayoutFrom(z, data, off + f.size).Some?
    ensures
      var layout := LayoutFrom(z, data, off);
      layout.Some? && layout.value != [] && layout.value[0] == f
      && layout.value[1..] == LayoutFrom(z, data, off + f.size).value
  {
  }

  /** The layout read back from `off` on is exactly the frames of `chunks`, and decodes to them. */
  ghost predicate Recovers(z: Zstd, data: Bytes, off: nat, chunks: seq<Bytes>, level: int)
    requires off <= |data|
  {
    var layout := LayoutFrom(z, data, off);
    && layout.Some? && |layout.value| == |chunks| && Within(data, layout.value)
    && (forall i :: 0 <= i < |chunks| ==> Frames(z, data, layout.value[i], chunks[i], level))
    && DecodeAll(z, data, layout.value) == Ok(Concat(chunks))
  }

  lemma RecoversOneMore(z: Zstd, data: Bytes, off: nat, f: Frame, chunks: seq<Bytes>, level: int)
    requires chunks != [] && off < |data| && f.offset == off && 0 < f.size && off + f.size <= |data|
    requires z.frameSize(data[off..]) == Some(f.size)
    requires z.contentSize(data[off..off + f.size]) == Some(f.content)
    requires Frames(z, data, f, chunks[0], level) && DecodeOne(z, data, f) == Ok(chunks[0])
    requires Recovers(z, data, off + f.size, chunks[1..], level)
    ensures Recovers(z, data, off, chunks, level)
  {
    LayoutStep(z, data, off, f);
    hide LayoutFrom, Frames, DecodeOne;
    var layout := LayoutFrom(z, data, off).value;
    forall i | 0 <= i < |chunks|
      ensures Frames(z, data, layout[i], chunks[i], level)
    {
      if i > 0 {
        assert layout[i] == layout[1..][i - 1] && chunks[i] == chunks[1..][i - 1];
      }
    }
  }

  lemma {:induction false} LayoutRecoversFrames(z: Zstd, chunks: seq<Bytes>, level: int, prefix: Bytes)
    requires Lossless(z)
    ensures Recovers(z, prefix + Concat(FramesOf(z, chunks, level)), |prefix|, chunks, level)
    decreases |chunks|
  {
    var frames := FramesOf(z, chunks, level);
    var data := prefix + Concat(frames);
    if chunks != [] {
      var head := z.frame(chunks[0], level);
      assert frames[1..] == FramesOf(z, chunks[1..], level);
      var tail := Concat(frames[1..]);
      assert data == prefix + (head + tail);
      hide *;
      FirstFrame(z, chunks[0], level, prefix, tail);
      LayoutRecoversFrames(z, chunks[1..], level, prefix + head);
      assert |prefix + head| == |prefix| + |head|;
      RecoversOneMore(z, data, |prefix|, Frame(|prefix|, |head|, |chunks[0]|), chunks, level);
    }
  }

  /** `decompress` undoes `compress`, at every length and whatever level either side was set to. */
  lemma DecompressUndoesCompress(z: Zstd, data: Bytes, algo: Algo, reader: Algo)
    requires Lossless(z) && SameKind(algo, reader)
    ensures Decompressed(z, Compressed(z, data, algo), reader) == Ok(data)
  {
    if algo.ZstdLevel? {
      var chunks := if |data| <= PARALLEL_CHUNK then [data] else Chunks(data);
      LayoutRecoversFrames(z, chunks, algo.level, []);
      assert Concat(chunks) == data;
      var frames := FramesOf(z, chunks, algo.level);
      assert [] + Concat(frames) == Concat(frames);
      assert frames[0] == z.frame(chunks[0], algo.level);
      assert Compressed(z, data, algo) == Concat(frames);
    }
  }

  method Compress(z: Zstd, data: Bytes, algo: Algo) returns (out: Bytes)
    ensures out == Compressed(z, data, algo)
  {
    match algo {
      case Store => return data;
      case ZstdLevel(level) =>
        if |data| <= PARALLEL_CHUNK {
          return z.frame(data, level);
        }
        out := [];
        var rest := data;
        while rest != []
          invariant out + Concat(FramesOf(z, Chunks(rest), level)) == Concat(FramesOf(z, Chunks(data), level))
          decreases |rest|
        {
          var len := Min(PARALLEL_CHUNK, |rest|);
          assert Chunks(rest)[0] == rest[..len] && Chunks(rest)[1..] == Chunks(rest[len..]);
          assert FramesOf(z, Chunks(rest), level)[1..] == FramesOf(z, Chunks(rest[len..]), level);
          out := out + z.frame(rest[..len], level);
          rest := rest[len..];
        }
    }
  }

  function After(frames: seq<Frame>, rest: Option<seq<Frame>>): Option<seq<Frame>> {
    match rest
    case None => None
    case Some(more) => Some(frames + more)
  }

  function AfterBytes(done: Bytes, rest: Result<Bytes>): Result<Bytes> {
    match rest
    case Err(e) => Err(e)
    case Ok(more) => Ok(done + more)
  }

  method FrameLayout(z: Zstd, data: Bytes) returns (r: Option<seq<Frame>>)
    ensures r == LayoutFrom(z, data, 0)
  {
    var frames: seq<Frame>, off := [], 0;
    assert LayoutFrom(z, data, 0).Some? ==> [] + LayoutFrom(z, data, 0).value == LayoutFrom(z, data, 0).value;
    while off < |data|
      invariant 0 <= off <= |data|
      invariant LayoutFrom(z, data, 0) == After(frames, LayoutFrom(z, data, off))
    {
      var size := z.frameSize(data[off..]);
      if size.None? || size.value == 0 || size.value > |data| - off {
        return None;
      }
      var content := z.contentSize(data[off..off + size.value]);
      if content.None? {
        return None;
      }
      var f := Frame(off, size.value, content.value);
      ghost var rest := LayoutFrom(z, data, off + size.value);
      assert rest.Some? ==> frames + ([f] + rest.value) == (frames + [f]) + rest.value;
      frames := frames + [f];
      off := off + size.value;
    }
    assert frames + [] == frames;
    return Some(frames);
  }

  function Total(fs: seq<Frame>): nat {
    if fs == [] then 0 else fs[0].content + Total(fs[1..])
  }

  method Decompress(z: Zstd, data: Bytes, algo: Algo) returns (r: Result<Bytes>)
    ensures r == Decompressed(z, data, algo)
  {
    match algo {
      case Store => return Ok(data);
      case ZstdLevel(_) =>
        if data == [] {
          return Ok([]);
        }
        var layout := FrameLayout(z, data);
        if layout.Some? {
          LayoutWithin(z, data, 0);
          r := DecompressFrames(z, data, layout.value);
          return;
        }
        var stream := z.decodeStream(data);
        return if stream.Some? then Ok(stream.value) else Err(Error.Compression);
    }
  }

  lemma DecodeStep(z: Zstd, data: Bytes, fs: seq<Frame>, i: nat, done: Bytes)
    requires Within(data, fs) && i < |fs|
    ensures match DecodeOne(z, data, fs[i])
            case Err(e) => DecodeAll(z, data, fs[i..]) == Err(e)
            case Ok(d) =>
              AfterBytes(done, DecodeAll(z, data, fs[i..])) == AfterBytes(done + d, DecodeAll(z, data, fs[i + 1..]))
    ensures Total(fs[i..]) == fs[i].content + Total(fs[i + 1..])
  {
    assert fs[i..][1..] == fs[i + 1..];
    if DecodeOne(z, data, fs[i]).Ok? && DecodeAll(z, data, fs[i + 1..]).Ok? {
      var d, rest := DecodeOne(z, data, fs[i]).value, DecodeAll(z, data, fs[i + 1..]).value;
      assert done + (d + rest) == (done + d) + rest;
    }
  }

  method CopyInto(out: array<byte>, at: nat, d: Bytes)
    requires at + |d| <= out.Length
    modifies out
    ensures out[..at + |d|] == old(out[..at]) + d
  {
    forall j | 0 <= j < |d| {
      out[at + j] := d[j];
    }
  }

  /** Fills one slice of the output per frame; the slices partition it in frame order. */
  method DecompressFrames(z: Zstd, data: Bytes, fs: seq<Frame>) returns (r: Result<Bytes>)
    requires Within(data, fs)
    ensures r == DecodeAll(z, data, fs)
  {
    var out := new byte[Total(fs)];
    var at, i := 0, 0;
    ghost var want := DecodeAll(z, data, fs);
    assert fs[0..] == fs;
    assert want.Ok? ==> [] + want.value == want.value;
    while i < |fs|
      invariant 0 <= i <= |fs|
      invariant 0 <= at && at + Total(fs[i..]) == out.Length
      invariant want == AfterBytes(out[..at], DecodeAll(z, data, fs[i..]))
    {
      DecodeStep(z, data, fs, i, out[..at]);
      var decoded := DecodeOne(z, data, fs[i]);
      if decoded.Err? {
        return Err(decoded.error);
      }
      CopyInto(out, at, decoded.value);
      at, i := at + |decoded.value|, i + 1;
    }
    assert out[..at] == out[..] && out[..] + [] == out[..];
    return Ok(out[..]);
  }
}
