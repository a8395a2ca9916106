/** How the blobs of one rank are laid out in a pack, and what the pack then holds. */
module Layout {
  import opened Bytes
  import opened Compression
  import opened Manifest
  import opened Env
  import opened Tensor
  import opened Shard
  import PackFile = Pack

  datatype Context = Context(id: Id, step: nat, createdAt: int, base: Option<Id>, metadata: map<string, string>)

  function EntriesOf(ps: seq<Processed>): (es: seq<TensorEntry>)
    ensures |es| == |ps|
  {
    seq(|ps|, k requires 0 <= k < |ps| => ps[k].entry)
  }

  function BlobOf(p: Processed): Bytes {
    if p.data.Some? then p.data.value else []
  }

  function BlobsTo(ps: seq<Processed>, n: nat): Bytes
    requires n <= |ps|
  {
    if n == 0 then [] else BlobsTo(ps, n - 1) + BlobOf(ps[n - 1])
  }

  /** Where blob `n` starts: right after the header and the blobs before it. */
  function OffsetOf(ps: seq<Processed>, n: nat): nat
    requires n <= |ps|
  {
    PackFile.HEADER_LEN + |BlobsTo(ps, n)|
  }

  function PlacedEntry(ps: seq<Processed>, k: nat): TensorEntry
    requires k < |ps|
  {
    if ps[k].data.Some? then ps[k].entry.(offset := OffsetOf(ps, k)) else ps[k].entry
  }

  function Placed(ps: seq<Processed>): (es: seq<TensorEntry>)
    ensures |es| == |ps|
  {
    seq(|ps|, k requires 0 <= k < |ps| => PlacedEntry(ps, k))
  }

  function CountOf(es: seq<TensorEntry>, storage: set<Storage>): nat {
    if es == [] then 0
    else CountOf(es[..|es| - 1], storage) + if es[|es| - 1].storage in storage then 1 else 0
  }

  function TotalCompressed(es: seq<TensorEntry>): nat {
    if es == [] then 0 else TotalCompressed(es[..|es| - 1]) + es[|es| - 1].compressedSize
  }

  function TotalRaw(es: seq<TensorEntry>): nat {
    if es == [] then 0 else TotalRaw(es[..|es| - 1]) + es[|es| - 1].rawSize
  }

  /** The entries of one of these kinds, by position. */
  function Kinds(es: seq<TensorEntry>, storage: set<Storage>): set<nat> {
    set k: nat | k < |es| && es[k].storage in storage
  }

  lemma {:induction false} CountIs(es: seq<TensorEntry>, storage: set<Storage>)
    ensures CountOf(es, storage) == |Kinds(es, storage)|
  {
    if es != [] {
      var init, last := es[..|es| - 1], |es| - 1;
      CountIs(init, storage);
      assert Kinds(es, storage) == Kinds(init, storage) + if es[last].storage in storage then {last} else {};
      assert last !in Kinds(init, storage);
    }
  }

  /** What a rank's entry says of itself: how many of its tensors are kept in each way, and what its blobs take. */
  lemma RankEntryCounts(id: Id, rank: nat, ps: seq<Processed>)
    requires forall p :: p in ps ==> p.entry.compressedSize == |BlobOf(p)|
    ensures
      var r, es := RankEntryOf(id, rank, Placed(ps)), Placed(ps);
      && r.skippedCount == |Kinds(es, {Skipped, Alias})|
      && r.deltaCount == |Kinds(es, {DeltaXor})| && r.fullCount == |Kinds(es, {Full})|
      && r.skippedCount + r.deltaCount + r.fullCount == |es|
      && r.totalCompressed == |BlobsTo(ps, |ps|)|
  {
    var es := Placed(ps);
    CountIs(es, {Skipped, Alias});
    CountIs(es, {DeltaXor});
    CountIs(es, {Full});
    CountsAddUp(es);
    TotalIsBlobs(ps, |ps|);
    assert es[..|ps|] == es && |es| == |ps|;
    hide Placed, CountOf, TotalCompressed, BlobsTo, Kinds;
  }

  lemma {:induction false} CountsAddUp(es: seq<TensorEntry>)
    ensures CountOf(es, {Skipped, Alias}) + CountOf(es, {DeltaXor}) + CountOf(es, {Full}) == |es|
  {
    if es != [] {
      CountsAddUp(es[..|es| - 1]);
      var kind := es[|es| - 1].storage;
      assert kind == Full || kind == DeltaXor || kind == Skipped || kind == Alias;
    }
  }

  lemma {:induction false} TotalIsBlobs(ps: seq<Processed>, n: nat)
    requires n <= |ps| && forall p :: p in ps ==> p.entry.compressedSize == |BlobOf(p)|
    ensures TotalCompressed(Placed(ps)[..n]) == |BlobsTo(ps, n)|
  {
    if n > 0 {
      TotalIsBlobs(ps, n - 1);
      assert Placed(ps)[..n][..n - 1] == Placed(ps)[..n - 1];
      assert ps[n - 1] in ps && Placed(ps)[..n][n - 1].compressedSize == ps[n - 1].entry.compressedSize;
    }
  }

  function RankEntryOf(id: Id, rank: nat, es: seq<TensorEntry>): RankEntry {
    RankEntry(rank, es, Some(Path.Pack(id, rank)), TotalCompressed(es), TotalRaw(es),
              CountOf(es, {Skipped, Alias}), CountOf(es, {DeltaXor}), CountOf(es, {Full}))
  }

  function DescriptorOf(ctx: Context, algo: Algo, worldSize: nat, entry: RankEntry): Descriptor {
    Descriptor(ctx.id, ctx.step, ctx.createdAt, ctx.base, ctx.metadata, algo, worldSize, entry)
  }

  /** Header, blobs, description: one object. */
  function PackOf(env: Env, ps: seq<Processed>, d: Descriptor): Bytes {
    var described := env.descriptorJson(d);
    PackFile.Header(OffsetOf(ps, |ps|), |described|) + BlobsTo(ps, |ps|) + described
  }

  datatype Written = Written(entry: RankEntry, pack: Bytes)

  function Laid(env: Env, ps: seq<Processed>, ctx: Context, algo: Algo, rank: nat, worldSize: nat): Written {
    var entry := RankEntryOf(ctx.id, rank, Placed(ps));
    Written(entry, PackOf(env, ps, DescriptorOf(ctx, algo, worldSize, entry)))
  }

  // ── Blobs slice back ─────────────────────────────────────────────

  lemma {:induction false} BlobsGrow(ps: seq<Processed>, k: nat, n: nat)
    requires k <= n <= |ps|
    ensures BlobsTo(ps, k) <= BlobsTo(ps, n)
    decreases n
  {
    if k < n {
      BlobsGrow(ps, k, n - 1);
    }
  }

  /** Blob `k` is what the pack holds at its offset. */
  lemma BlobSlicesBack(env: Env, ps: seq<Processed>, d: Descriptor, k: nat)
    requires k < |ps|
    ensures
      var pack := PackOf(env, ps, d);
      var at := OffsetOf(ps, k);
      at + |BlobOf(ps[k])| <= |pack| && pack[at..at + |BlobOf(ps[k])|] == BlobOf(ps[k])
  {
    BlobsGrow(ps, k + 1, |ps|);
    var described := env.descriptorJson(d);
    var header := PackFile.Header(OffsetOf(ps, |ps|), |described|);
    SliceInMiddle(header, BlobsTo(ps, k), BlobOf(ps[k]), BlobsTo(ps, |ps|), described);
  }

  lemma SliceInMiddle(header: Bytes, before: Bytes, blob: Bytes, blobs: Bytes, rest: Bytes)
    requires before + blob <= blobs
    ensures
      var file := header + blobs + rest;
      var at := |header| + |before|;
      at + |blob| <= |file| && file[at..at + |blob|] == blob
  {
    var file := header + blobs + rest;
    var at := |header| + |before|;
    forall i | 0 <= i < |blob|
      ensures file[at + i] == blob[i]
    {
      assert file[at + i] == blobs[|before| + i] == (before + blob)[|before| + i];
    }
  }

  /** No two blobs overlap, none reaches into the header, all end before the description starts. */
  lemma OffsetsDisjoint(ps: seq<Processed>, j: nat, k: nat)
    requires j < k < |ps|
    ensures PackFile.HEADER_LEN <= OffsetOf(ps, j)
    ensures OffsetOf(ps, j) + |BlobOf(ps[j])| <= OffsetOf(ps, k)
    ensures OffsetOf(ps, k) + |BlobOf(ps[k])| <= OffsetOf(ps, |ps|)
  {
    BlobsGrow(ps, j + 1, k);
    BlobsGrow(ps, k + 1, |ps|);
  }

  // ── What the pack holds ──────────────────────────────────────────

  ghost predicate SharesWith(ps: seq<Processed>, e: TensorEntry, contents: Contents) {
    exists t :: 0 <= t < |ps| && e.aliasOf == Some(ps[t].entry.name) && ps[t].entry.storage != Alias
                && ps[t].entry.name in contents && e.name in contents
                && contents[e.name] == contents[ps[t].entry.name]
  }

  /** The entry and its blob, before it has an offset, stand for what `contents` has under its name. */
  ghost predicate Keeps(
      env: Env, algo: Algo, ps: seq<Processed>, p: Processed, base: map<string, Bytes>, contents: Contents) {
    var e := p.entry;
    && e.name in contents
    && HeldAs(e, contents[e.name].raw) == contents[e.name]
    && e.filename.None?
    && if e.storage == Alias
       then SharesWith(ps, e, contents) && p.data.None? && e.hashCompressed.None?
         && e.hashRaw == env.hash(contents[e.name].raw)
       else Stores(env, algo, e, p.data, base, contents[e.name].raw)
  }

  lemma PlacedKeepsMeaning(
      env: Env, ps: seq<Processed>, d: Descriptor, algo: Algo, k: nat, base: map<string, Bytes>, contents: Contents)
    requires k < |ps| && Keeps(env, algo, ps, ps[k], base, contents) && ps[k].entry.storage != Alias
    ensures HoldsEntry(env, Shard(Placed(ps), PackOf(env, ps, d), algo), Placed(ps)[k], base, contents)
  {
    BlobSlicesBack(env, ps, d, k);
    var sh := Shard(Placed(ps), PackOf(env, ps, d), algo);
    var e := Placed(ps)[k];
    assert BlobIn(sh, e) == ps[k].data;
    hide PackOf, OffsetOf;
    StoresAnywhere(env, algo, ps[k].entry, ps[k].data, base, contents[e.name].raw, e.offset);
  }

  lemma StoresAnywhere(
      env: Env, algo: Algo, e: TensorEntry, blob: Option<Bytes>, base: map<string, Bytes>, raw: Bytes, offset: nat)
    requires Stores(env, algo, e, blob, base, raw)
    ensures Stores(env, algo, e.(offset := offset), blob, base, raw)
  {
  }

  lemma PlacedAlias(
      env: Env, ps: seq<Processed>, d: Descriptor, algo: Algo, k: nat, base: map<string, Bytes>, contents: Contents)
    requires k < |ps| && Keeps(env, algo, ps, ps[k], base, contents) && ps[k].entry.storage == Alias
    ensures HoldsEntry(env, Shard(Placed(ps), PackOf(env, ps, d), algo), Placed(ps)[k], base, contents)
  {
    var e := ps[k].entry;
    var sh := Shard(Placed(ps), PackOf(env, ps, d), algo);
    hide PackOf, OffsetOf;
    var t :| 0 <= t < |ps| && e.aliasOf == Some(ps[t].entry.name) && ps[t].entry.storage != Alias
             && ps[t].entry.name in contents && contents[e.name] == contents[ps[t].entry.name];
    assert sh.entries[t].name == ps[t].entry.name && sh.entries[t].storage == ps[t].entry.storage;
    assert PointsAt(sh, Placed(ps)[k], contents);
  }

  lemma PlacedNames(ps: seq<Processed>)
    ensures NamesOf(Placed(ps)) == NamesOf(EntriesOf(ps))
    ensures DistinctNames(EntriesOf(ps)) ==> DistinctNames(Placed(ps))
  {
    var es, placed := EntriesOf(ps), Placed(ps);
    forall k | 0 <= k < |ps|
      ensures placed[k].name == es[k].name && es[k].name in NamesOf(placed) && placed[k].name in NamesOf(es)
    {
      assert placed[k] in placed && es[k] in es;
    }
    hide PlacedEntry;
    forall n | n in NamesOf(placed)
      ensures n in NamesOf(es)
    {
      var k :| 0 <= k < |placed| && placed[k].name == n;
    }
    forall n | n in NamesOf(es)
      ensures n in NamesOf(placed)
    {
      var k :| 0 <= k < |es| && es[k].name == n;
    }
  }

  /** Laying the blobs out keeps the meaning of every entry: the pack and its entries hold `contents`. */
  lemma PlacedHolds(
      env: Env, ps: seq<Processed>, d: Descriptor, algo: Algo, base: map<string, Bytes>, contents: Contents)
    requires DistinctNames(EntriesOf(ps)) && contents.Keys == NamesOf(EntriesOf(ps))
    requires forall p :: p in ps ==> Keeps(env, algo, ps, p, base, contents)
    ensures ShardHolds(env, Shard(Placed(ps), PackOf(env, ps, d), algo), base, contents)
  {
    var sh := Shard(Placed(ps), PackOf(env, ps, d), algo);
    PlacedNames(ps);
    hide Keeps, HoldsEntry, PackOf, PlacedEntry;
    forall e | e in sh.entries
      ensures HoldsEntry(env, sh, e, base, contents)
    {
      var k :| 0 <= k < |sh.entries| && sh.entries[k] == e;
      assert ps[k] in ps;
      if ps[k].entry.storage == Alias {
        PlacedAlias(env, ps, d, algo, k, base, contents);
      } else {
        PlacedKeepsMeaning(env, ps, d, algo, k, base, contents);
      }
    }
  }
}
