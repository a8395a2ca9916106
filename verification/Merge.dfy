/** Folding a full and the deltas against it into one new full. */
module Merge {
  import opened Bytes
  import opened Compression
  import opened Manifest
  import opened Env
  import opened Tensor
  import opened Shard
  import opened Layout
  import opened Load
  import Delta
  import PackFile = Pack

  // ── Reading the inputs ───────────────────────────────────────────

  function CompressedData(files: Files, e: TensorEntry, s: Snapshot, rank: nat): Result<Bytes> {
    if e.filename.Some? then
      var data :- Get(files, e.filename.value);
      Ok(Truncated(data, e.compressedSize))
    else if rank in s.ranks && s.ranks[rank].packFile.Some? then
      var data :- GetRange(files, s.ranks[rank].packFile.value, e.offset, e.compressedSize);
      if |data| == e.compressedSize then Ok(data) else Err(NotFound)
    else Err(NotFound)
  }

  function FullData(env: Env, files: Files, e: TensorEntry, s: Snapshot, rank: nat, algo: Algo): Result<Bytes> {
    if e.storage != Full then Err(Error.Delta)
    else
      var compressed :- CompressedData(files, e, s, rank);
      Decompressed(env.zstd, compressed, algo)
  }

  /** The base's bytes for a name, following at most `fuel` aliases. */
  function BaseData(
      env: Env, files: Files, base: Snapshot, rank: nat, name: string, algo: Algo, fuel: nat): Result<Bytes>
    decreases fuel
  {
    if rank !in base.ranks then Err(NotFound)
    else if fuel == 0 then Err(Error.Delta)
    else
      match FirstNamed(base.ranks[rank].tensors, name)
      case None => Err(NotFound)
      case Some(e) =>
        if e.storage != Alias then FullData(env, files, e, base, rank, algo)
        else if e.aliasOf.None? then Err(NotFound)
        else BaseData(env, files, base, rank, e.aliasOf.value, algo, fuel - 1)
  }

  method BaseTensorData(
      env: Env, files: Files, base: Snapshot, rank: nat, name: string, algo: Algo) returns (r: Result<Bytes>)
    ensures r == BaseData(env, files, base, rank, name, algo, HOPS)
  {
    if rank !in base.ranks {
      return Err(NotFound);
    }
    var current := name;
    for hop := 0 to HOPS
      invariant BaseData(env, files, base, rank, name, algo, HOPS)
                == BaseData(env, files, base, rank, current, algo, HOPS - hop)
    {
      var e := FirstNamed(base.ranks[rank].tensors, current);
      if e.None? {
        return Err(NotFound);
      }
      if e.value.storage != Alias {
        return FullData(env, files, e.value, base, rank, algo);
      }
      if e.value.aliasOf.None? {
        return Err(NotFound);
      }
      current := e.value.aliasOf.value;
    }
    return Err(Error.Delta);
  }

  /** What an entry that carries bytes stands for at this point of the history. */
  function CurrentData(
      env: Env, files: Files, base: Snapshot, source: Snapshot, rank: nat, e: TensorEntry, algo: Algo): Result<Bytes>
    requires e.storage != Alias
  {
    match e.storage
    case Full => FullData(env, files, e, source, rank, algo)
    case Skipped => BaseData(env, files, base, rank, e.name, algo, HOPS)
    case DeltaXor =>
      var baseRaw :- BaseData(env, files, base, rank, e.name, algo, HOPS);
      var compressed :- CompressedData(files, e, source, rank);
      var delta :- Decompressed(env.zstd, compressed, algo);
      Delta.Applied(baseRaw, Restored(e, delta))
  }

  /** The tensor kept as a full one again. */
  function FullAgain(env: Env, e: TensorEntry, data: Bytes, algo: Algo): Processed {
    var compressed := Compressed(env.zstd, data, algo);
    Processed(
      e.(storage := Full, aliasOf := None, filename := None, offset := 0, compressedSize := |compressed|,
         rawSize := |data|, hashRaw := env.hash(data), hashCompressed := Some(env.hash(compressed)), shuffled := false),
      Some(compressed))
  }

  /** An entry of the merged full: aliases are carried over, everything else becomes full. */
  function MergedEntry(
      env: Env, files: Files, base: Snapshot, source: Snapshot, rank: nat, e: TensorEntry,
      algo: Algo): Result<Processed> {
    if e.storage == Alias then Ok(Processed(e, None))
    else
      var data :- CurrentData(env, files, base, source, rank, e, algo);
      Ok(FullAgain(env, e, data, algo))
  }

  function MergedEntries(
      env: Env, files: Files, base: Snapshot, source: Snapshot, rank: nat, es: seq<TensorEntry>,
      algo: Algo): (r: Result<seq<Processed>>)
    ensures r.Ok? ==> |r.value| == |es|
    ensures r.Ok? ==> forall k ::
              0 <= k < |es| ==> MergedEntry(env, files, base, source, rank, es[k], algo) == Ok(r.value[k])
  {
    if es == [] then Ok([])
    else
      var last := |es| - 1;
      var done :- MergedEntries(env, files, base, source, rank, es[..last], algo);
      var p :- MergedEntry(env, files, base, source, rank, es[last], algo);
      Ok(done + [p])
  }

  // ── The merged full stands for the newest delta ──────────────────

  /** Every blob of the shard decodes under the merger's algorithm as it does under its own. */
  predicate DecodesAlike(env: Env, sh: Shard, algo: Algo) {
    forall e :: e in sh.entries && BlobIn(sh, e).Some? ==>
      Decompressed(env.zstd, BlobIn(sh, e).value, algo) == Decompressed(env.zstd, BlobIn(sh, e).value, sh.algo)
  }

  /** So it does when the two are of one kind, whatever their levels. */
  lemma SameKindDecodesAlike(env: Env, sh: Shard, algo: Algo)
    requires SameKind(algo, sh.algo)
    ensures DecodesAlike(env, sh, algo)
  {
    hide BlobIn;
    forall e | e in sh.entries && BlobIn(sh, e).Some?
      ensures Decompressed(env.zstd, BlobIn(sh, e).value, algo) == Decompressed(env.zstd, BlobIn(sh, e).value, sh.algo)
    {
      SameKindDecodes(env.zstd, BlobIn(sh, e).value, algo, sh.algo);
    }
  }

  lemma SameKindDecodes(z: Zstd, data: Bytes, a: Algo, b: Algo)
    requires SameKind(a, b)
    ensures Decompressed(z, data, a) == Decompressed(z, data, b)
  {
  }

  function ShardOf(s: Snapshot, rank: nat, pack: Bytes): Shard
    requires rank in s.ranks
  {
    Shard(s.ranks[rank].tensors, pack, s.compression)
  }

  /** A snapshot's rank, its pack on storage, and what it holds; the merger can decode it. */
  ghost predicate Kept(
      env: Env, files: Files, s: Snapshot, rank: nat, pack: Bytes, base: map<string, Bytes>, contents: Contents,
      algo: Algo) {
    Stored(env, files, s, rank, pack, base, contents) && DecodesAlike(env, ShardOf(s, rank, pack), algo)
  }

  lemma BlobRead(files: Files, s: Snapshot, rank: nat, pack: Bytes, e: TensorEntry)
    requires rank in s.ranks && s.ranks[rank].packFile.Some? && s.ranks[rank].packFile.value in files
    requires Holds(files[s.ranks[rank].packFile.value], pack) && e.filename.None?
    requires BlobIn(ShardOf(s, rank, pack), e).Some?
    ensures CompressedData(files, e, s, rank) == Ok(BlobIn(ShardOf(s, rank, pack), e).value)
  {
    SliceOfPadded(files[s.ranks[rank].packFile.value], pack, e.offset, e.compressedSize);
  }

  /** Every entry is read back and kept in full, whatever form the delta had it in. */
  lemma FullAgainKeeps(env: Env, e: TensorEntry, data: Bytes, contents: Contents, algo: Algo)
    requires Lawful(env) && e.name in contents && contents[e.name] == HeldAs(e, data)
    ensures forall ps :: Keeps(env, algo, ps, FullAgain(env, e, data, algo), map[], contents)
  {
    DecompressUndoesCompress(env.zstd, data, algo, algo);
    hide Compressed, Decompressed, Lawful;
  }

  // ── One rank of the merged snapshot ──────────────────────────────

  predicate HasRank(base: Snapshot, last: Snapshot, rank: nat) {
    rank in last.ranks || rank in base.ranks
  }

  /** The newest delta decides which tensors exist; a rank it lacks is carried over from the base. */
  function SourceOf(base: Snapshot, last: Snapshot, rank: nat): Snapshot
    requires HasRank(base, last, rank)
  {
    if rank in last.ranks then last else base
  }

  function MergedRankEntry(id: Id, rank: nat, ps: seq<Processed>): RankEntry {
    var es := Placed(ps);
    var aliases := CountOf(es, {Alias});
    RankEntry(rank, es, Some(Path.Pack(id, rank)), |BlobsTo(ps, |ps|)|, TotalRaw(es), aliases, 0,
              if aliases <= |es| then |es| - aliases else 0)
  }

  function MergedWritten(env: Env, ps: seq<Processed>, ctx: Context, algo: Algo, rank: nat, worldSize: nat): Written {
    var entry := MergedRankEntry(ctx.id, rank, ps);
    Written(entry, PackOf(env, ps, DescriptorOf(ctx, algo, worldSize, entry)))
  }

  function MergedRank(
      env: Env, files: Files, base: Snapshot, last: Snapshot, rank: nat, ctx: Context, algo: Algo,
      worldSize: nat): Result<Written>
    requires HasRank(base, last, rank)
  {
    var source := SourceOf(base, last, rank);
    var ps :- MergedEntries(env, files, base, source, rank, source.ranks[rank].tensors, algo);
    Ok(MergedWritten(env, ps, ctx, algo, rank, worldSize))
  }

  lemma {:induction false} MergedEntriesOk(
      env: Env, files: Files, base: Snapshot, source: Snapshot, rank: nat, es: seq<TensorEntry>, algo: Algo)
    requires forall e :: e in es ==> MergedEntry(env, files, base, source, rank, e, algo).Ok?
    ensures MergedEntries(env, files, base, source, rank, es, algo).Ok?
  {
    hide MergedEntry;
    if es != [] {
      MergedEntriesOk(env, files, base, source, rank, es[..|es| - 1], algo);
    }
  }

  lemma AliasKeeps(
      env: Env, source: Snapshot, pack: Bytes, base: map<string, Bytes>, contents: Contents, rank: nat,
      ps: seq<Processed>, k: nat, algo: Algo)
    requires rank in source.ranks && ShardHolds(env, ShardOf(source, rank, pack), base, contents)
    requires |ps| == |source.ranks[rank].tensors| && k < |ps|
    requires forall j :: 0 <= j < |ps| ==>
               var e := source.ranks[rank].tensors[j];
               ps[j].entry.name == e.name && (ps[j].entry.storage == Alias <==> e.storage == Alias)
    requires source.ranks[rank].tensors[k].storage == Alias && ps[k] == Processed(source.ranks[rank].tensors[k], None)
    ensures Keeps(env, algo, ps, ps[k], map[], contents)
  {
    var sh := ShardOf(source, rank, pack);
    HoldsAt(env, sh, base, contents, k);
    var t := Target(env, sh, base, contents, k);
    hide ShardHolds;
    assert SharesWith(ps, ps[k].entry, contents);
  }

  lemma SameNames(es: seq<TensorEntry>, fs: seq<TensorEntry>)
    requires |es| == |fs| && forall k :: 0 <= k < |es| ==> es[k].name == fs[k].name
    ensures NamesOf(es) == NamesOf(fs)
    ensures DistinctNames(es) ==> DistinctNames(fs)
  {
    forall n
      ensures n in NamesOf(es) <==> n in NamesOf(fs)
    {
      if n in NamesOf(es) {
        var e :| e in es && e.name == n;
        var k :| 0 <= k < |es| && es[k] == e;
        assert fs[k] in fs;
      }
      if n in NamesOf(fs) {
        var e :| e in fs && e.name == n;
        var k :| 0 <= k < |fs| && fs[k] == e;
        assert es[k] in es;
      }
    }
  }

  /** What the merge loop has accumulated for the entries `ps`. */
  ghost predicate Accumulated(
      ps: seq<Processed>, merged: seq<TensorEntry>, blobs: Bytes, offset: nat, totalRaw: nat, aliases: nat)
  {
    && merged == Placed(ps)
    && blobs == BlobsTo(ps, |ps|) && offset == OffsetOf(ps, |ps|)
    && totalRaw == TotalRaw(merged) && aliases == CountOf(merged, {Alias}) && aliases <= |ps|
  }

  lemma AccumulatesOne(
      ps: seq<Processed>, merged: seq<TensorEntry>, blobs: Bytes, offset: nat, totalRaw: nat, aliases: nat,
      p: Processed)
    requires Accumulated(ps, merged, blobs, offset, totalRaw, aliases)
    ensures
      var e := if p.data.Some? then p.entry.(offset := offset) else p.entry;
      Accumulated(ps + [p], merged + [e], blobs + BlobOf(p), offset + |BlobOf(p)|, totalRaw + e.rawSize,
                  aliases + if e.storage == Alias then 1 else 0)
  {
    var more := ps + [p];
    var e := if p.data.Some? then p.entry.(offset := offset) else p.entry;
    BlobsOfPrefix(ps, more, |ps|);
    PlacedOfPrefix(ps, more);
    assert Placed(more) == Placed(ps) + [e];
    assert (merged + [e])[..|merged|] == merged;
  }

  lemma MergedEntriesStep(
      env: Env, files: Files, base: Snapshot, source: Snapshot, rank: nat, es: seq<TensorEntry>, i: nat,
      ps: seq<Processed>, p: Processed, algo: Algo)
    requires i < |es| && MergedEntries(env, files, base, source, rank, es[..i], algo) == Ok(ps)
    requires MergedEntry(env, files, base, source, rank, es[i], algo) == Ok(p)
    ensures MergedEntries(env, files, base, source, rank, es[..i + 1], algo) == Ok(ps + [p])
  {
    hide MergedEntry;
    assert es[..i + 1][..i] == es[..i];
  }

  lemma NothingMerged(
      env: Env, files: Files, base: Snapshot, source: Snapshot, rank: nat, es: seq<TensorEntry>, algo: Algo)
    ensures es[..|es|] == es && MergedEntries(env, files, base, source, rank, es[..0], algo) == Ok([])
    ensures Accumulated([], [], [], PackFile.HEADER_LEN, 0, 0)
  {
    assert es[..0] == [];
  }

  /** The merge loop: reads, recompresses and places one tensor after another. */
  method MergeEntries(
      env: Env, files: Files, base: Snapshot, source: Snapshot, rank: nat, es: seq<TensorEntry>, algo: Algo)
    returns (failed: Option<Error>, merged: seq<TensorEntry>, blobs: Bytes, offset: nat, totalRaw: nat, aliases: nat)
    ensures match MergedEntries(env, files, base, source, rank, es, algo)
            case Err(e) => failed == Some(e)
            case Ok(all) => failed.None? && Accumulated(all, merged, blobs, offset, totalRaw, aliases)
  {
    hide Accumulated, MergedEntries, MergedEntry, BlobOf;
    failed, merged, blobs, offset, totalRaw, aliases := None, [], [], PackFile.HEADER_LEN, 0, 0;
    ghost var ps: seq<Processed> := [];
    NothingMerged(env, files, base, source, rank, es, algo);
    for i := 0 to |es|
      invariant failed.None? && MergedEntries(env, files, base, source, rank, es[..i], algo) == Ok(ps)
      invariant Accumulated(ps, merged, blobs, offset, totalRaw, aliases)
    {
      var p := MergedEntry(env, files, base, source, rank, es[i], algo);
      if p.Err? {
        MergeFails(env, files, base, source, rank, es, i, |es|, algo);
        failed := Some(p.error);
        return;
      }
      MergedEntriesStep(env, files, base, source, rank, es, i, ps, p.value, algo);
      AccumulatesOne(ps, merged, blobs, offset, totalRaw, aliases, p.value);
      var e := p.value.entry;
      if p.value.data.Some? {
        e := e.(offset := offset);
      }
      blobs, offset := blobs + BlobOf(p.value), offset + |BlobOf(p.value)|;
      merged, totalRaw := merged + [e], totalRaw + e.rawSize;
      aliases := aliases + if e.storage == Alias then 1 else 0;
      ps := ps + [p.value];
    }
  }

  method MergeRank(
      env: Env, files: Files, base: Snapshot, last: Snapshot, rank: nat, ctx: Context, algo: Algo, worldSize: nat)
    returns (r: Result<Written>)
    requires HasRank(base, last, rank)
    ensures r == MergedRank(env, files, base, last, rank, ctx, algo, worldSize)
  {
    hide MergedEntries, Accumulated, MergedWritten;
    var source := SourceOf(base, last, rank);
    var failed, merged, blobs, offset, totalRaw, aliases :=
      MergeEntries(env, files, base, source, rank, source.ranks[rank].tensors, algo);
    if failed.Some? {
      return Err(failed.value);
    }
    ghost var ps := MergedEntries(env, files, base, source, rank, source.ranks[rank].tensors, algo).value;
    r := FinishRank(env, ps, merged, blobs, offset, totalRaw, aliases, rank, ctx, algo, worldSize);
  }

  method FinishRank(
      env: Env, ghost ps: seq<Processed>, merged: seq<TensorEntry>, blobs: Bytes, offset: nat, totalRaw: nat,
      aliases: nat,
      rank: nat, ctx: Context, algo: Algo, worldSize: nat)
    returns (r: Result<Written>)
    requires Accumulated(ps, merged, blobs, offset, totalRaw, aliases)
    ensures r == Ok(MergedWritten(env, ps, ctx, algo, rank, worldSize))
  {
    var entry :=
      RankEntry(rank, merged, Some(Path.Pack(ctx.id, rank)), |blobs|, totalRaw, aliases, 0, |merged| - aliases);
    var described := env.descriptorJson(DescriptorOf(ctx, algo, worldSize, entry));
    var header := PackFile.EncodeHeader(offset, |described|);
    return Ok(Written(entry, header + blobs + described));
  }

  lemma {:induction false} BlobsOfPrefix(ps: seq<Processed>, more: seq<Processed>, n: nat)
    requires ps <= more && n <= |ps|
    ensures BlobsTo(ps, n) == BlobsTo(more, n)
  {
    if n > 0 {
      BlobsOfPrefix(ps, more, n - 1);
    }
  }

  lemma PlacedOfPrefix(ps: seq<Processed>, more: seq<Processed>)
    requires ps <= more
    ensures forall k :: 0 <= k < |ps| ==> PlacedEntry(ps, k) == PlacedEntry(more, k)
  {
    forall k | 0 <= k < |ps|
      ensures PlacedEntry(ps, k) == PlacedEntry(more, k)
    {
      BlobsOfPrefix(ps, more, k);
    }
  }

  lemma {:induction false} MergeFails(
      env: Env, files: Files, base: Snapshot, source: Snapshot, rank: nat, es: seq<TensorEntry>, i: nat, n: nat,
      algo: Algo)
    requires i < n <= |es| && MergedEntries(env, files, base, source, rank, es[..i], algo).Ok?
    requires MergedEntry(env, files, base, source, rank, es[i], algo).Err?
    ensures MergedEntries(env, files, base, source, rank, es[..n], algo)
            == Err(MergedEntry(env, files, base, source, rank, es[i], algo).error)
    decreases n
  {
    hide MergedEntry;
    assert es[..n][..n - 1] == es[..n - 1];
    if i + 1 < n {
      MergeFails(env, files, base, source, rank, es, i, n - 1, algo);
    }
  }

  // ── Reads that succeed do not depend on what else is there ───────

  ghost predicate Extends(files: Files, more: Files) {
    forall p :: p in files ==> p in more && more[p] == files[p]
  }

  lemma FullDataExtends(env: Env, files: Files, more: Files, e: TensorEntry, s: Snapshot, rank: nat, algo: Algo)
    requires Extends(files, more)
    ensures CompressedData(files, e, s, rank).Ok? ==>
              CompressedData(more, e, s, rank) == CompressedData(files, e, s, rank)
    ensures FullData(env, files, e, s, rank, algo).Ok? ==>
              FullData(env, more, e, s, rank, algo) == FullData(env, files, e, s, rank, algo)
  {
    hide Decompressed;
  }

  lemma {:induction false} BaseDataExtends(
      env: Env, files: Files, more: Files, base: Snapshot, rank: nat, name: string, algo: Algo, fuel: nat)
    requires Extends(files, more) && BaseData(env, files, base, rank, name, algo, fuel).Ok?
    ensures BaseData(env, more, base, rank, name, algo, fuel) == BaseData(env, files, base, rank, name, algo, fuel)
    decreases fuel
  {
    hide FullData, FirstNamed, Extends;
    var e := FirstNamed(base.ranks[rank].tensors, name).value;
    if e.storage == Alias {
      BaseDataExtends(env, files, more, base, rank, e.aliasOf.value, algo, fuel - 1);
    } else {
      FullDataExtends(env, files, more, e, base, rank, algo);
    }
  }

  lemma MergedEntryExtends(
      env: Env, files: Files, more: Files, base: Snapshot, source: Snapshot, rank: nat, e: TensorEntry, algo: Algo)
    requires Extends(files, more) && MergedEntry(env, files, base, source, rank, e, algo).Ok?
    ensures MergedEntry(env, more, base, source, rank, e, algo) == MergedEntry(env, files, base, source, rank, e, algo)
  {
    hide Extends, FullData, CompressedData, BaseData, Decompressed, Compressed;
    FullDataExtends(env, files, more, e, source, rank, algo);
    if e.storage in {Skipped, DeltaXor} {
      BaseDataExtends(env, files, more, base, rank, e.name, algo, HOPS);
    }
  }

  lemma {:induction false} MergedEntriesExtend(
      env: Env, files: Files, more: Files, base: Snapshot, source: Snapshot, rank: nat, es: seq<TensorEntry>,
      algo: Algo)
    requires Extends(files, more) && MergedEntries(env, files, base, source, rank, es, algo).Ok?
    ensures MergedEntries(env, more, base, source, rank, es, algo)
            == MergedEntries(env, files, base, source, rank, es, algo)
  {
    hide MergedEntry, Extends;
    if es != [] {
      MergedEntriesExtend(env, files, more, base, source, rank, es[..|es| - 1], algo);
      MergedEntryExtends(env, files, more, base, source, rank, es[|es| - 1], algo);
    }
  }

  /** A merge that succeeds on `files` gives the same on anything that holds more. */
  lemma MergedRankExtends(
      env: Env, files: Files, more: Files, base: Snapshot, last: Snapshot, rank: nat, ctx: Context, algo: Algo,
      worldSize: nat)
    requires HasRank(base, last, rank) && Extends(files, more)
    requires MergedRank(env, files, base, last, rank, ctx, algo, worldSize).Ok?
    ensures MergedRank(env, more, base, last, rank, ctx, algo, worldSize)
            == MergedRank(env, files, base, last, rank, ctx, algo, worldSize)
  {
    hide MergedEntries, MergedWritten, Extends;
    var source := SourceOf(base, last, rank);
    MergedEntriesExtend(env, files, more, base, source, rank, source.ranks[rank].tensors, algo);
  }
}
