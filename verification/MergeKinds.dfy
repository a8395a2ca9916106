/** What a merger makes of packs that were written with another algorithm than its own. */
module MergeKinds {
  import opened Bytes
  import opened Compression
  import opened Manifest
  import opened Env
  import opened Tensor
  import opened Shard
  import opened Layout
  import opened Merge
  import Delta
  import Load

  // ── Right exactly when every entry is read right ─────────────────

  /** The merged rank is written, and stands for `contents`. */
  ghost predicate MergedRight(
      env: Env, files: Files, base: Snapshot, last: Snapshot, rank: nat, ctx: Context, algo: Algo, worldSize: nat,
      contents: Contents)
    requires HasRank(base, last, rank)
  {
    var w := MergedRank(env, files, base, last, rank, ctx, algo, worldSize);
    w.Ok? && ShardHolds(env, Shard(w.value.entry.tensors, w.value.pack, algo), map[], contents)
  }

  /** What the merger takes the entry to stand for is what it stands for. */
  predicate ReadRight(
      env: Env, files: Files, base: Snapshot, source: Snapshot, rank: nat, e: TensorEntry, algo: Algo,
      contents: Contents) {
    e.storage != Alias ==>
      e.name in contents && CurrentData(env, files, base, source, rank, e, algo) == Ok(contents[e.name].raw)
  }

  lemma MergedEntryIs(
      env: Env, files: Files, base: Snapshot, source: Snapshot, rank: nat, e: TensorEntry, algo: Algo)
    requires e.storage != Alias
    ensures
      var data, p := CurrentData(env, files, base, source, rank, e, algo),
                     MergedEntry(env, files, base, source, rank, e, algo);
      p == match data case Err(error) => Err(error) case Ok(bytes) => Ok(FullAgain(env, e, bytes, algo))
  {
    hide CurrentData, FullAgain;
  }

  lemma StoredHash(env: Env, algo: Algo, e: TensorEntry, blob: Option<Bytes>, raw: Bytes, data: Bytes)
    requires Lawful(env) && Stores(env, algo, e, blob, map[], raw) && e.hashRaw == env.hash(data)
    ensures data == raw
  {
    hide Decompressed;
  }

  /** A merged full that is right read every entry right: a wrong reading would show in its hash. */
  lemma RightMergeReads(
      env: Env, files: Files, base: Snapshot, last: Snapshot, rank: nat, ctx: Context, algo: Algo, worldSize: nat,
      contents: Contents, k: nat)
    requires Lawful(env) && HasRank(base, last, rank) && k < |SourceOf(base, last, rank).ranks[rank].tensors|
    requires MergedRight(env, files, base, last, rank, ctx, algo, worldSize, contents)
    ensures
      var source := SourceOf(base, last, rank);
      ReadRight(env, files, base, source, rank, source.ranks[rank].tensors[k], algo, contents)
  {
    hide ShardHolds, MergedEntry, CurrentData, PackOf, Lawful, Stores, BlobIn;
    var source := SourceOf(base, last, rank);
    var es := source.ranks[rank].tensors;
    if es[k].storage != Alias {
      var ps := MergedEntries(env, files, base, source, rank, es, algo).value;
      var w := MergedRank(env, files, base, last, rank, ctx, algo, worldSize).value;
      assert w.entry.tensors == Placed(ps) && |ps| == |es|;
      var sh := Shard(w.entry.tensors, w.pack, algo);
      HoldsAt(env, sh, map[], contents, k);
      MergedEntryIs(env, files, base, source, rank, es[k], algo);
      assert sh.entries[k] == PlacedEntry(ps, k)
             && MergedEntry(env, files, base, source, rank, es[k], algo) == Ok(ps[k]);
      var data := CurrentData(env, files, base, source, rank, es[k], algo).value;
      assert ps[k] == FullAgain(env, es[k], data, algo);
      StoredHash(env, algo, sh.entries[k], BlobIn(sh, sh.entries[k]), contents[es[k].name].raw, data);
    }
  }

  /** One entry that was read right is kept right. */
  lemma ReadRightKeeps(
      env: Env, files: Files, base: Snapshot, source: Snapshot, rank: nat, pack: Bytes, against: map<string, Bytes>,
      contents: Contents, e: TensorEntry, algo: Algo)
    requires Lawful(env) && Load.Stored(env, files, source, rank, pack, against, contents)
    requires e in source.ranks[rank].tensors && ReadRight(env, files, base, source, rank, e, algo, contents)
    ensures
      var p := MergedEntry(env, files, base, source, rank, e, algo);
      && p.Ok? && p.value.entry.name == e.name
      && (p.value.entry.storage == Alias <==> e.storage == Alias)
      && (e.storage == Alias ==> p.value == Processed(e, None))
      && (e.storage != Alias ==> forall ps :: Keeps(env, algo, ps, p.value, map[], contents))
  {
    if e.storage != Alias {
      MergedEntryIs(env, files, base, source, rank, e, algo);
      HeldIs(env, files, source, rank, pack, against, contents, e);
      hide CurrentData, Lawful, Load.Stored, MergedEntry;
      FullAgainKeeps(env, e, contents[e.name].raw, contents, algo);
    }
  }

  lemma HeldIs(
      env: Env, files: Files, source: Snapshot, rank: nat, pack: Bytes, against: map<string, Bytes>, contents: Contents,
      e: TensorEntry)
    requires Load.Stored(env, files, source, rank, pack, against, contents) && e in source.ranks[rank].tensors
    ensures rank in source.ranks && e.name in contents && HeldAs(e, contents[e.name].raw) == contents[e.name]
    ensures HoldsEntry(env, ShardOf(source, rank, pack), e, against, contents)
  {
    assert HoldsEntry(env, ShardOf(source, rank, pack), e, against, contents);
    hide Holds, DistinctNames, NamesOf, Stores, PointsAt;
  }

  lemma AllReadRightKeep(
      env: Env, files: Files, base: Snapshot, source: Snapshot, rank: nat, pack: Bytes, against: map<string, Bytes>,
      contents: Contents, algo: Algo)
    requires Lawful(env) && Load.Stored(env, files, source, rank, pack, against, contents)
    requires forall e ::
               e in source.ranks[rank].tensors ==> ReadRight(env, files, base, source, rank, e, algo, contents)
    ensures
      var es := source.ranks[rank].tensors;
      var ps := MergedEntries(env, files, base, source, rank, es, algo);
      && ps.Ok? && |ps.value| == |es|
      && DistinctNames(EntriesOf(ps.value)) && contents.Keys == NamesOf(EntriesOf(ps.value))
      && forall p :: p in ps.value ==> Keeps(env, algo, ps.value, p, map[], contents)
  {
    var es := source.ranks[rank].tensors;
    assert ShardHolds(env, ShardOf(source, rank, pack), against, contents);
    assert DistinctNames(es) && contents.Keys == NamesOf(es);
    hide *;
    forall k | 0 <= k < |es|
      ensures
        var p := MergedEntry(env, files, base, source, rank, es[k], algo);
        && p.Ok? && p.value.entry.name == es[k].name
        && (p.value.entry.storage == Alias <==> es[k].storage == Alias)
        && (es[k].storage == Alias ==> p.value == Processed(es[k], None))
        && (es[k].storage != Alias ==> forall ps :: Keeps(env, algo, ps, p.value, map[], contents))
    {
      ReadRightKeeps(env, files, base, source, rank, pack, against, contents, es[k], algo);
    }
    MergedEntriesOk(env, files, base, source, rank, es, algo);
    var ps := MergedEntries(env, files, base, source, rank, es, algo).value;
    SameNames(es, EntriesOf(ps));
    forall p | p in ps
      ensures Keeps(env, algo, ps, p, map[], contents)
    {
      var k :| 0 <= k < |ps| && ps[k] == p;
      if es[k].storage == Alias {
        AliasKeeps(env, source, pack, against, contents, rank, ps, k, algo);
      }
    }
  }

  /** The merged full is right exactly when the merger takes every entry of its source for what it stands for. */
  lemma RightIffReadRight(
      env: Env, files: Files, base: Snapshot, last: Snapshot, pack: Bytes, against: map<string, Bytes>,
      contents: Contents,
      rank: nat, ctx: Context, algo: Algo, worldSize: nat)
    requires Lawful(env) && HasRank(base, last, rank)
    requires Load.Stored(env, files, SourceOf(base, last, rank), rank, pack, against, contents)
    ensures
      var source := SourceOf(base, last, rank);
      MergedRight(env, files, base, last, rank, ctx, algo, worldSize, contents) <==>
      forall e :: e in source.ranks[rank].tensors ==> ReadRight(env, files, base, source, rank, e, algo, contents)
  {
    hide Load.Stored, MergedRight, ReadRight, Lawful;
    var source := SourceOf(base, last, rank);
    var es := source.ranks[rank].tensors;
    if MergedRight(env, files, base, last, rank, ctx, algo, worldSize, contents) {
      forall e | e in es
        ensures ReadRight(env, files, base, source, rank, e, algo, contents)
      {
        var k :| 0 <= k < |es| && es[k] == e;
        RightMergeReads(env, files, base, last, rank, ctx, algo, worldSize, contents, k);
      }
    }
    if forall e :: e in es ==> ReadRight(env, files, base, source, rank, e, algo, contents) {
      AllReadRightKeep(env, files, base, source, rank, pack, against, contents, algo);
      MergedFrom(env, files, base, last, rank, ctx, algo, worldSize, contents);
    }
  }

  lemma MergedFrom(
      env: Env, files: Files, base: Snapshot, last: Snapshot, rank: nat, ctx: Context, algo: Algo, worldSize: nat,
      contents: Contents)
    requires HasRank(base, last, rank)
    requires
      var source := SourceOf(base, last, rank);
      var ps := MergedEntries(env, files, base, source, rank, source.ranks[rank].tensors, algo);
      && ps.Ok? && DistinctNames(EntriesOf(ps.value)) && contents.Keys == NamesOf(EntriesOf(ps.value))
      && forall p :: p in ps.value ==> Keeps(env, algo, ps.value, p, map[], contents)
    ensures MergedRight(env, files, base, last, rank, ctx, algo, worldSize, contents)
  {
    var source := SourceOf(base, last, rank);
    var ps := MergedEntries(env, files, base, source, rank, source.ranks[rank].tensors, algo);
    var entry := MergedRankEntry(ctx.id, rank, ps.value);
    hide MergedEntries, Keeps, PackOf, Placed, ShardHolds;
    PlacedHolds(env, ps.value, DescriptorOf(ctx, algo, worldSize, entry), algo, map[], contents);
  }

  lemma RankIsThere(
      env: Env, files: Files, s: Snapshot, rank: nat, pack: Bytes, against: map<string, Bytes>, contents: Contents)
    requires Load.Stored(env, files, s, rank, pack, against, contents)
    ensures rank in s.ranks && ShardHolds(env, ShardOf(s, rank, pack), against, contents)
  {
    hide ShardHolds, Holds;
  }

  // ── The same, said of the blobs ──────────────────────────────────

  /** The entry of the base that carries the bytes of `n`: its own, or the one its alias names. */
  function Carrier(es: seq<TensorEntry>, n: string): Option<TensorEntry> {
    match Load.FirstNamed(es, n)
    case None => None
    case Some(e) => if e.storage == Alias && e.aliasOf.Some? then Load.FirstNamed(es, e.aliasOf.value) else Some(e)
  }

  /** The blob an entry kept against the base is read with, if it is there. */
  function CarrierBlob(base: Snapshot, rank: nat, pack: Bytes, n: string): Option<Bytes> {
    if rank !in base.ranks then None
    else
      match Carrier(base.ranks[rank].tensors, n)
      case None => None
      case Some(e) => BlobIn(ShardOf(base, rank, pack), e)
  }

  /** The blob decodes, under the merger's algorithm, to `raw`. */
  predicate DecodesTo(env: Env, algo: Algo, blob: Option<Bytes>, raw: Bytes) {
    blob.Some? && Decompressed(env.zstd, blob.value, algo) == Ok(raw)
  }

  /** The blobs an entry is read from give its bytes under the merger's algorithm. */
  predicate DecodesRight(env: Env, algo: Algo, e: TensorEntry, own: Option<Bytes>, carrier: Option<Bytes>, raw: Bytes) {
    match e.storage
    case Alias => true
    case Full => DecodesTo(env, algo, own, raw)
    case Skipped => DecodesTo(env, algo, carrier, raw)
    case DeltaXor =>
      && own.Some? && carrier.Some?
      && var xor, from := Decompressed(env.zstd, own.value, algo), Decompressed(env.zstd, carrier.value, algo);
         xor.Ok? && from.Ok? && Delta.Applied(from.value, Restored(e, xor.value)) == Ok(raw)
  }

  /** A base that has the rank has it on storage; one that has not holds nothing of it. */
  ghost predicate BaseStored(env: Env, files: Files, base: Snapshot, rank: nat, pack: Bytes, contents: Contents) {
    if rank in base.ranks then Load.Stored(env, files, base, rank, pack, map[], contents) else contents == map[]
  }

  lemma FullIsDecoded(
      env: Env, files: Files, s: Snapshot, rank: nat, pack: Bytes, base: map<string, Bytes>, contents: Contents,
      e: TensorEntry, algo: Algo)
    requires Load.Stored(env, files, s, rank, pack, base, contents) && e in s.ranks[rank].tensors && e.storage == Full
    ensures e.name in contents && BlobIn(ShardOf(s, rank, pack), e).Some?
    ensures
      var blob := BlobIn(ShardOf(s, rank, pack), e).value;
      && FullData(env, files, e, s, rank, algo) == Decompressed(env.zstd, blob, algo)
      && Decompressed(env.zstd, blob, s.compression) == Ok(contents[e.name].raw)
  {
    assert HoldsEntry(env, ShardOf(s, rank, pack), e, base, contents);
    BlobRead(files, s, rank, pack, e);
    hide Decompressed, CompressedData, Holds, DistinctNames, NamesOf;
  }

  /** The carrier is a full entry that stands for the same. */
  lemma CarrierIs(env: Env, sh: Shard, contents: Contents, n: string) returns (k: nat, e: TensorEntry)
    requires ShardHolds(env, sh, map[], contents) && n in contents
    ensures k < |sh.entries| && Load.FirstNamed(sh.entries, n) == Some(sh.entries[k])
    ensures e in sh.entries && e.storage == Full && Load.FirstNamed(sh.entries, e.name) == Some(e)
    ensures sh.entries[k] == e || (sh.entries[k].storage == Alias && sh.entries[k].aliasOf == Some(e.name))
    ensures Carrier(sh.entries, n) == Some(e) && e.name in contents && contents[e.name] == contents[n]
  {
    var t;
    k, t := Holder(env, sh, map[], contents, n);
    e := sh.entries[t];
    FullsAndAliases(env, sh, contents, e);
    Load.FirstIsAt(sh.entries, k);
    Load.FirstIsAt(sh.entries, t);
    hide ShardHolds, HoldsEntry, Load.FirstNamed;
  }

  /** Reading a name in the base comes down to decoding its carrier's blob, whatever the algorithm. */
  lemma BaseIsDecoded(
      env: Env, files: Files, base: Snapshot, rank: nat, pack: Bytes, contents: Contents, n: string, algo: Algo)
    requires BaseStored(env, files, base, rank, pack, contents) && n in contents
    ensures CarrierBlob(base, rank, pack, n).Some?
    ensures BaseData(env, files, base, rank, n, algo, HOPS)
            == Decompressed(env.zstd, CarrierBlob(base, rank, pack, n).value, algo)
  {
    hide HoldsEntry, ShardHolds, Load.FirstNamed, FullData, Load.Stored, Decompressed, BlobIn, Carrier;
    RankIsThere(env, files, base, rank, pack, map[], contents);
    var k, e := CarrierIs(env, ShardOf(base, rank, pack), contents, n);
    FullIsDecoded(env, files, base, rank, pack, map[], contents, e, algo);
    assert BaseData(env, files, base, rank, e.name, algo, HOPS - 1) == FullData(env, files, e, base, rank, algo);
  }

  lemma FullsAndAliases(env: Env, sh: Shard, contents: Contents, e: TensorEntry)
    requires ShardHolds(env, sh, map[], contents) && e in sh.entries && e.storage != Alias
    ensures e.storage == Full && DistinctNames(sh.entries)
  {
    assert HoldsEntry(env, sh, e, map[], contents);
  }

  /** What an entry of the newest delta is read as, in terms of its own blob and its carrier's. */
  lemma EntryIsDecoded(
      env: Env, files: Files, base: Snapshot, basePack: Bytes, baseContents: Contents,
      last: Snapshot, pack: Bytes, contents: Contents, rank: nat, e: TensorEntry, algo: Algo)
    requires BaseStored(env, files, base, rank, basePack, baseContents)
    requires Load.Stored(env, files, last, rank, pack, Raws(baseContents), contents) && e in last.ranks[rank].tensors
    ensures e.name in contents
    ensures ReadRight(env, files, base, last, rank, e, algo, contents) <==>
            DecodesRight(env, algo, e, BlobIn(ShardOf(last, rank, pack), e), CarrierBlob(base, rank, basePack, e.name),
                         contents[e.name].raw)
  {
    hide Load.Stored, BaseStored, HoldsEntry, BlobIn, CompressedData, Decompressed, BaseData, CarrierBlob,
      Delta.Applied,
      Raws;
    HeldIs(env, files, last, rank, pack, Raws(baseContents), contents, e);
    EntryNeeds(env, last, rank, pack, baseContents, contents, e);
    if e.storage in {Full, DeltaXor} {
      OwnBlobIsRead(env, files, last, rank, pack, Raws(baseContents), contents, e);
    }
    if e.storage in {Skipped, DeltaXor} {
      BaseIsDecoded(env, files, base, rank, basePack, baseContents, e.name, algo);
    }
  }

  lemma EntryNeeds(
      env: Env, last: Snapshot, rank: nat, pack: Bytes, baseContents: Contents, contents: Contents, e: TensorEntry)
    requires rank in last.ranks && HoldsEntry(env, ShardOf(last, rank, pack), e, Raws(baseContents), contents)
    ensures e.storage in {Full, DeltaXor} ==> BlobIn(ShardOf(last, rank, pack), e).Some? && e.filename.None?
    ensures e.storage in {Skipped, DeltaXor} ==> e.name in baseContents
  {
    hide Decompressed, PointsAt;
  }

  lemma OwnBlobIsRead(
      env: Env, files: Files, last: Snapshot, rank: nat, pack: Bytes, against: map<string, Bytes>, contents: Contents,
      e: TensorEntry)
    requires Load.Stored(env, files, last, rank, pack, against, contents) && e.filename.None?
    requires BlobIn(ShardOf(last, rank, pack), e).Some?
    ensures CompressedData(files, e, last, rank) == Ok(BlobIn(ShardOf(last, rank, pack), e).value)
  {
    BlobRead(files, last, rank, pack, e);
    hide ShardHolds, Holds, BlobIn, CompressedData;
  }

  /**
   A merge of a rank the newest delta has comes out right, under whatever algorithm, exactly when
   that algorithm gives each entry's bytes from the blobs it is read from: a full entry's own, a
   skipped one's carrier in the base, a delta's both.
   */
  lemma MergedDeltaIsRightIff(
      env: Env, files: Files, base: Snapshot, basePack: Bytes, baseContents: Contents,
      last: Snapshot, pack: Bytes, contents: Contents, rank: nat, ctx: Context, algo: Algo, worldSize: nat)
    requires Lawful(env) && BaseStored(env, files, base, rank, basePack, baseContents)
    requires Load.Stored(env, files, last, rank, pack, Raws(baseContents), contents)
    ensures rank in last.ranks && forall e :: e in last.ranks[rank].tensors ==> e.name in contents
    ensures
      MergedRight(env, files, base, last, rank, ctx, algo, worldSize, contents) <==>
      forall e :: e in last.ranks[rank].tensors ==>
        DecodesRight(env, algo, e, BlobIn(ShardOf(last, rank, pack), e), CarrierBlob(base, rank, basePack, e.name),
                     contents[e.name].raw)
  {
    assert rank in last.ranks;
    hide Load.Stored, BaseStored, MergedRight, ReadRight, DecodesRight, BlobIn, CarrierBlob, Lawful;
    RightIffReadRight(env, files, base, last, pack, Raws(baseContents), contents, rank, ctx, algo, worldSize);
    forall e | e in last.ranks[rank].tensors
      ensures e.name in contents
      ensures ReadRight(env, files, base, last, rank, e, algo, contents) <==>
              DecodesRight(env, algo, e, BlobIn(ShardOf(last, rank, pack), e),
                           CarrierBlob(base, rank, basePack, e.name),
                           contents[e.name].raw)
    {
      EntryIsDecoded(env, files, base, basePack, baseContents, last, pack, contents, rank, e, algo);
    }
  }

  /** So the merge of what its algorithm decodes as it was written stands for what the newest delta did. */
  lemma MergedRankHolds(
      env: Env, files: Files, base: Snapshot, basePack: Bytes, baseContents: Contents,
      last: Snapshot, pack: Bytes, contents: Contents, rank: nat, ctx: Context, algo: Algo, worldSize: nat)
    requires Lawful(env)
    requires Kept(env, files, base, rank, basePack, map[], baseContents, algo)
    requires Kept(env, files, last, rank, pack, Raws(baseContents), contents, algo)
    ensures
      var w := MergedRank(env, files, base, last, rank, ctx, algo, worldSize);
      w.Ok? && ShardHolds(env, Shard(w.value.entry.tensors, w.value.pack, algo), map[], contents)
  {
    hide Load.Stored, DecodesRight, BlobIn, CarrierBlob, Lawful, Load.FirstNamed, DecodesAlike, MergedRank, ShardHolds;
    RankIsThere(env, files, base, rank, basePack, map[], baseContents);
    RankIsThere(env, files, last, rank, pack, Raws(baseContents), contents);
    MergedDeltaIsRightIff(env, files, base, basePack, baseContents, last, pack, contents, rank, ctx, algo, worldSize);
    forall e | e in last.ranks[rank].tensors
      ensures DecodesRight(env, algo, e, BlobIn(ShardOf(last, rank, pack), e),
                           CarrierBlob(base, rank, basePack, e.name),
                           contents[e.name].raw)
    {
      EntryIsDecodedAlike(env, files, base, basePack, baseContents, last, pack, contents, rank, e, algo);
    }
  }

  /** As it does whenever both packs were written with the merger's kind of algorithm, at whatever levels. */
  lemma SameKindMergesRight(
      env: Env, files: Files, base: Snapshot, basePack: Bytes, baseContents: Contents,
      last: Snapshot, pack: Bytes, contents: Contents, rank: nat, ctx: Context, algo: Algo, worldSize: nat)
    requires Lawful(env)
    requires Load.Stored(env, files, base, rank, basePack, map[], baseContents)
    requires Load.Stored(env, files, last, rank, pack, Raws(baseContents), contents)
    requires SameKind(algo, base.compression) && SameKind(algo, last.compression)
    ensures rank in last.ranks && MergedRight(env, files, base, last, rank, ctx, algo, worldSize, contents)
  {
    hide Load.Stored, MergedRank, ShardHolds, SameKind, Lawful, DecodesAlike;
    RankIsThere(env, files, base, rank, basePack, map[], baseContents);
    RankIsThere(env, files, last, rank, pack, Raws(baseContents), contents);
    SameKindDecodesAlike(env, ShardOf(base, rank, basePack), algo);
    SameKindDecodesAlike(env, ShardOf(last, rank, pack), algo);
    MergedRankHolds(env, files, base, basePack, baseContents, last, pack, contents, rank, ctx, algo, worldSize);
  }

  lemma EntryIsDecodedAlike(
      env: Env, files: Files, base: Snapshot, basePack: Bytes, baseContents: Contents,
      last: Snapshot, pack: Bytes, contents: Contents, rank: nat, e: TensorEntry, algo: Algo)
    requires Kept(env, files, base, rank, basePack, map[], baseContents, algo)
    requires Kept(env, files, last, rank, pack, Raws(baseContents), contents, algo) && e in last.ranks[rank].tensors
    ensures e.name in contents
    ensures DecodesRight(env, algo, e, BlobIn(ShardOf(last, rank, pack), e), CarrierBlob(base, rank, basePack, e.name),
                         contents[e.name].raw)
  {
    hide Load.Stored, BlobIn, Decompressed, CarrierBlob, Delta.Applied, PointsAt;
    HeldIs(env, files, last, rank, pack, Raws(baseContents), contents, e);
    EntryNeeds(env, last, rank, pack, baseContents, contents, e);
    if e.storage in {Skipped, DeltaXor} {
      CarrierDecodes(env, files, base, rank, basePack, baseContents, e.name, algo);
    }
  }

  /** The carrier's blob decodes to what the base holds under the name. */
  lemma CarrierDecodes(
      env: Env, files: Files, base: Snapshot, rank: nat, pack: Bytes, contents: Contents, n: string, algo: Algo)
    requires Kept(env, files, base, rank, pack, map[], contents, algo) && n in contents
    ensures DecodesTo(env, algo, CarrierBlob(base, rank, pack, n), contents[n].raw)
  {
    hide HoldsEntry, ShardHolds, Load.FirstNamed, FullData, Load.Stored, Decompressed, BlobIn, Carrier;
    RankIsThere(env, files, base, rank, pack, map[], contents);
    var k, e := CarrierIs(env, ShardOf(base, rank, pack), contents, n);
    FullIsDecoded(env, files, base, rank, pack, map[], contents, e, base.compression);
  }

  // ── A rank only the base has ─────────────────────────────────────

  /** It is carried over right exactly when the merger decodes each of its blobs as it was written. */
  lemma CarriedRankIsRightIff(
      env: Env, files: Files, base: Snapshot, pack: Bytes, contents: Contents,
      last: Snapshot, rank: nat, ctx: Context, algo: Algo, worldSize: nat)
    requires Lawful(env) && rank !in last.ranks && Load.Stored(env, files, base, rank, pack, map[], contents)
    ensures rank in base.ranks
    ensures MergedRight(env, files, base, last, rank, ctx, algo, worldSize, contents) <==>
            DecodesAlike(env, ShardOf(base, rank, pack), algo)
  {
    hide Load.Stored, MergedRight, ReadRight, Decompressed, Lawful, BlobIn;
    assert rank in base.ranks by {
      RankIsThere(env, files, base, rank, pack, map[], contents);
    }
    RightIffReadRight(env, files, base, last, pack, map[], contents, rank, ctx, algo, worldSize);
    forall e | e in base.ranks[rank].tensors
      ensures ReadRight(env, files, base, base, rank, e, algo, contents) <==>
              (BlobIn(ShardOf(base, rank, pack), e).Some? ==>
                 Decompressed(env.zstd, BlobIn(ShardOf(base, rank, pack), e).value, algo)
                 == Decompressed(env.zstd, BlobIn(ShardOf(base, rank, pack), e).value, base.compression))
    {
      CarriedEntry(env, files, base, pack, contents, rank, e, algo);
    }
  }

  lemma CarriedEntry(
      env: Env, files: Files, base: Snapshot, pack: Bytes, contents: Contents, rank: nat, e: TensorEntry, algo: Algo)
    requires Load.Stored(env, files, base, rank, pack, map[], contents) && e in base.ranks[rank].tensors
    ensures
      var blob := BlobIn(ShardOf(base, rank, pack), e);
      ReadRight(env, files, base, base, rank, e, algo, contents) <==>
      (blob.Some? ==> Decompressed(env.zstd, blob.value, algo) == Decompressed(env.zstd, blob.value, base.compression))
  {
    hide Load.Stored, Decompressed, FullData, ShardHolds;
    RankIsThere(env, files, base, rank, pack, map[], contents);
    if e.storage != Alias {
      FullsAndAliases(env, ShardOf(base, rank, pack), contents, e);
      FullIsDecoded(env, files, base, rank, pack, map[], contents, e, algo);
    }
  }

  /** So a rank its algorithm decodes as it was written is carried over unchanged in meaning. */
  lemma MergedRankOfBase(
      env: Env, files: Files, base: Snapshot, pack: Bytes, contents: Contents,
      last: Snapshot, rank: nat, ctx: Context, algo: Algo, worldSize: nat)
    requires Lawful(env) && rank !in last.ranks && Kept(env, files, base, rank, pack, map[], contents, algo)
    ensures rank in base.ranks
    ensures
      var w := MergedRank(env, files, base, last, rank, ctx, algo, worldSize);
      w.Ok? && ShardHolds(env, Shard(w.value.entry.tensors, w.value.pack, algo), map[], contents)
  {
    hide Load.Stored, MergedRank, ShardHolds, Lawful, DecodesAlike;
    CarriedRankIsRightIff(env, files, base, pack, contents, last, rank, ctx, algo, worldSize);
  }

  // ── A merger that stores ─────────────────────────────────────────

  /**
   A merger set to store, given a rank of which a compressing writer kept one tensor in full, takes
   the frames for the bytes: it succeeds, hashes them afresh, and every check a load makes passes.
   */
  lemma StoringMergerKeepsFrames(
      env: Env, files: Files, base: Snapshot, last: Snapshot, pack: Bytes, against: map<string, Bytes>,
      contents: Contents, rank: nat, ctx: Context, worldSize: nat, e: TensorEntry)
    requires Lawful(env) && HasRank(base, last, rank)
    requires
      var source := SourceOf(base, last, rank);
      Load.Stored(env, files, source, rank, pack, against, contents) && source.ranks[rank].tensors == [e]
    requires e.storage == Full
    ensures e.name in contents && BlobIn(ShardOf(SourceOf(base, last, rank), rank, pack), e).Some?
    ensures
      var frames := BlobIn(ShardOf(SourceOf(base, last, rank), rank, pack), e).value;
      && MergedRight(env, files, base, last, rank, ctx, Store, worldSize, map[e.name := HeldAs(e, frames)])
      && (MergedRight(env, files, base, last, rank, ctx, Store, worldSize, contents)
          <==> frames == contents[e.name].raw)
  {
    var source := SourceOf(base, last, rank);
    hide Load.Stored, MergedRight, Lawful, BlobIn, FullData, CurrentData, MergedEntries, Keeps, SourceOf;
    assert e in source.ranks[rank].tensors;
    FullIsDecoded(env, files, source, rank, pack, against, contents, e, Store);
    var frames := BlobIn(ShardOf(source, rank, pack), e).value;
    StoredReadsFrames(env, files, base, source, rank, e, frames);
    KeptAsRead(env, files, base, last, rank, ctx, Store, worldSize, e, frames);
    RightIffReadRight(env, files, base, last, pack, against, contents, rank, ctx, Store, worldSize);
    assert ReadRight(env, files, base, source, rank, e, Store, contents) <==> frames == contents[e.name].raw;
  }

  lemma StoredReadsFrames(
      env: Env, files: Files, base: Snapshot, source: Snapshot, rank: nat, e: TensorEntry, frames: Bytes)
    requires e.storage == Full && FullData(env, files, e, source, rank, Store) == Decompressed(env.zstd, frames, Store)
    ensures CurrentData(env, files, base, source, rank, e, Store) == Ok(frames)
    ensures MergedEntry(env, files, base, source, rank, e, Store) == Ok(FullAgain(env, e, frames, Store))
  {
    hide FullData, FullAgain;
  }

  /** A merge of one tensor holds what it read for it, whatever that was, hashed afresh. */
  lemma KeptAsRead(
      env: Env, files: Files, base: Snapshot, last: Snapshot, rank: nat, ctx: Context, algo: Algo, worldSize: nat,
      e: TensorEntry, data: Bytes)
    requires Lawful(env) && HasRank(base, last, rank) && SourceOf(base, last, rank).ranks[rank].tensors == [e]
    requires MergedEntry(env, files, base, SourceOf(base, last, rank), rank, e, algo)
             == Ok(FullAgain(env, e, data, algo))
    ensures MergedRight(env, files, base, last, rank, ctx, algo, worldSize, map[e.name := HeldAs(e, data)])
  {
    hide MergedEntries, MergedEntry, Keeps, Lawful, MergedRight, DistinctNames, NamesOf;
    var source, p, held :=
        SourceOf(base, last, rank), FullAgain(env, e, data, algo), map[e.name := HeldAs(e, data)];
    FullAgainKeeps(env, e, data, held, algo);
    OneMerged(env, files, base, source, rank, e, p, algo);
    NamesOfOne(p);
    assert MergedEntries(env, files, base, source, rank, source.ranks[rank].tensors, algo) == Ok([p]);
    MergedFrom(env, files, base, last, rank, ctx, algo, worldSize, held);
  }

  lemma OneMerged(
      env: Env, files: Files, base: Snapshot, source: Snapshot, rank: nat, e: TensorEntry, p: Processed, algo: Algo)
    requires MergedEntry(env, files, base, source, rank, e, algo) == Ok(p)
    ensures MergedEntries(env, files, base, source, rank, [e], algo) == Ok([p])
  {
    hide MergedEntry;
    assert [e][0] == e && [e][..0] == [] && [] + [p] == [p];
    assert MergedEntries(env, files, base, source, rank, [e][..0], algo) == Ok([]);
  }

  lemma NamesOfOne(p: Processed)
    ensures DistinctNames(EntriesOf([p])) && NamesOf(EntriesOf([p])) == {p.entry.name}
  {
    assert EntriesOf([p]) == [p.entry];
    assert p.entry in [p.entry] && p.entry.name in NamesOf([p.entry]);
    assert NamesOf([p.entry]) == {p.entry.name};
    assert EntriesOf([p])[0] == p.entry;
  }

  /**
   Frames are told apart by where they end, so of two tensors, one a beginning of the other, one is
   not its own frame.
   */
  lemma FramesDiffer(z: Zstd, data: Bytes, more: Bytes, level: int)
    requires Lossless(z) && more != [] && |data + more| <= PARALLEL_CHUNK
    ensures Compressed(z, data, ZstdLevel(level)) != data
            || Compressed(z, data + more, ZstdLevel(level)) != data + more
    ensures data == [] ==> Compressed(z, data, ZstdLevel(level)) != data
  {
    var first, second := z.frame(data, level), z.frame(data + more, level);
    assert z.frameSize(first + more) == Some(|first|);
    assert z.frameSize(second + []) == Some(|second|) && second + [] == second;
  }

  /** A delta that kept one tensor in full, with the pack it wrote. */
  function OneTensor(env: Env, id: Id, rank: nat, base: Id, data: Bytes, level: int): (Snapshot, Bytes) {
    var plain := TensorEntry("w", [], "uint8", None, None, Full, None, None, 0, 0, 0, "", None, false);
    var p := FullAgain(env, plain, data, ZstdLevel(level));
    var entry := MergedRankEntry(id, rank, [p]);
    (Snapshot(id, 1, 0, map[rank := entry], Some(base), map[], ZstdLevel(level), true, false),
     PackOf(env, [p], DescriptorOf(Context(id, 1, 0, Some(base), map[]), ZstdLevel(level), 1, entry)))
  }

  lemma OneTensorIsStored(env: Env, id: Id, rank: nat, base: Id, data: Bytes, level: int) returns (contents: Contents)
    requires Lawful(env)
    ensures
      var (last, pack) := OneTensor(env, id, rank, base, data, level);
      && Load.Stored(env, map[Path.Pack(id, rank) := pack], last, rank, pack, map[], contents)
      && |last.ranks[rank].tensors| == 1
      && var e := last.ranks[rank].tensors[0];
         && e.storage == Full && e.name in contents && contents[e.name].raw == data
         && BlobIn(ShardOf(last, rank, pack), e) == Some(Compressed(env.zstd, data, ZstdLevel(level)))
  {
    var (last, pack) := OneTensor(env, id, rank, base, data, level);
    var plain := TensorEntry("w", [], "uint8", None, None, Full, None, None, 0, 0, 0, "", None, false);
    var p := FullAgain(env, plain, data, ZstdLevel(level));
    contents := map["w" := HeldAs(plain, data)];
    var d := DescriptorOf(Context(id, 1, 0, Some(base), map[]), ZstdLevel(level), 1, MergedRankEntry(id, rank, [p]));
    assert last.ranks[rank].tensors == Placed([p]) && pack == PackOf(env, [p], d);
    FullAgainKeeps(env, plain, data, contents, ZstdLevel(level));
    NamesOfOne(p);
    BlobSlicesBack(env, [p], d, 0);
    HoldsItself(pack);
    hide Keeps, PackOf, Compressed, Lawful, ShardHolds;
    PlacedHolds(env, [p], d, ZstdLevel(level), map[], contents);
  }

  /** There is such a delta for every level: the merge of it succeeds, and is wrong. */
  lemma StoringMergerCorrupts(env: Env, base: Snapshot, id: Id, rank: nat, data: Bytes, level: int, ctx: Context)
    requires Lawful(env) && Compressed(env.zstd, data, ZstdLevel(level)) != data
    ensures
      var (last, pack) := OneTensor(env, id, rank, base.id, data, level);
      var files := map[Path.Pack(id, rank) := pack];
      && HasRank(base, last, rank) && MergedRank(env, files, base, last, rank, ctx, Store, 1).Ok?
      && exists contents ::
           && Load.Stored(env, files, last, rank, pack, map[], contents)
           && !MergedRight(env, files, base, last, rank, ctx, Store, 1, contents)
  {
    var (last, pack) := OneTensor(env, id, rank, base.id, data, level);
    var files := map[Path.Pack(id, rank) := pack];
    var contents := OneTensorIsStored(env, id, rank, base.id, data, level);
    assert rank in last.ranks;
    hide OneTensor, Load.Stored, Compressed, Lawful, BlobIn;
    var e := last.ranks[rank].tensors[0];
    assert last.ranks[rank].tensors == [e];
    StoringMergerKeepsFrames(env, files, base, last, pack, map[], contents, rank, ctx, 1, e);
    MergedIsWritten(env, files, base, last, rank, ctx, Store, 1,
                    map[e.name := HeldAs(e, Compressed(env.zstd, data, ZstdLevel(level)))]);
  }

  lemma MergedIsWritten(
      env: Env, files: Files, base: Snapshot, last: Snapshot, rank: nat, ctx: Context, algo: Algo, worldSize: nat,
      contents: Contents)
    requires HasRank(base, last, rank) && MergedRight(env, files, base, last, rank, ctx, algo, worldSize, contents)
    ensures MergedRank(env, files, base, last, rank, ctx, algo, worldSize).Ok?
  {
    hide MergedRank, ShardHolds;
  }

  // ── A merge and damage ───────────────────────────────────────────

  /**
   The merger reads without the checks a load makes. Of a tensor kept in full whose blob is no longer
   what was written, and still decodes: a load refuses it, and a merge keeps it as what it now
   decodes to, with hashes that pass every later check.
   */
  lemma DamageIsMerged(
      env: Env, files: Files, base: Snapshot, last: Snapshot, rank: nat, ctx: Context, algo: Algo, worldSize: nat,
      e: TensorEntry, blob: Bytes, against: map<string, Bytes>, raw: Bytes, path: Path, read: Bytes, now: Bytes)
    requires Lawful(env) && HasRank(base, last, rank) && SourceOf(base, last, rank).ranks[rank].tensors == [e]
    requires e.storage == Full && Stores(env, algo, e, Some(blob), against, raw)
    requires SourceOf(base, last, rank).ranks[rank].packFile == Some(path)
    requires GetRange(files, path, e.offset, e.compressedSize) == Ok(read) && |read| == e.compressedSize
    requires read != blob && Decompressed(env.zstd, read, algo) == Ok(now)
    ensures forall find :: LoadRaw(env, files, e, find, algo, Ranged(path)) == Err(Integrity)
    ensures MergedRight(env, files, base, last, rank, ctx, algo, worldSize, map[e.name := HeldAs(e, now)])
  {
    assert rank in SourceOf(base, last, rank).ranks && e.filename.None?;
    hide MergedRight, Lawful, Decompressed, GetRange, SourceOf, HasRank, FullAgain;
    forall find
      ensures LoadRaw(env, files, e, find, algo, Ranged(path)) == Err(Integrity)
    {
      hide LoadRaw, Stores;
      assert Extract(files, e, Ranged(path)) == Ok(read);
      DamageShows(env, files, e, Some(blob), find, algo, Ranged(path), against, raw);
    }
    MergeReadsPlainly(env, files, base, SourceOf(base, last, rank), rank, e, algo, path, read, now);
    KeptAsRead(env, files, base, last, rank, ctx, algo, worldSize, e, now);
  }

  lemma MergeReadsPlainly(
      env: Env, files: Files, base: Snapshot, source: Snapshot, rank: nat, e: TensorEntry, algo: Algo, path: Path,
      read: Bytes, now: Bytes)
    requires e.storage == Full && e.filename.None? && rank in source.ranks && source.ranks[rank].packFile == Some(path)
    requires GetRange(files, path, e.offset, e.compressedSize) == Ok(read) && |read| == e.compressedSize
    requires Decompressed(env.zstd, read, algo) == Ok(now)
    ensures MergedEntry(env, files, base, source, rank, e, algo) == Ok(FullAgain(env, e, now, algo))
  {
    hide Decompressed, GetRange, FullAgain;
  }
}
