/** The rank's side of a save: the base it diffs against, the bytes it retains, the one write it makes. */
module Core {
  import opened Bytes
  import opened Compression
  import opened Manifest
  import opened Env
  import opened Tensor
  import opened Shard
  import opened Dedup
  import opened Layout
  import opened Save
  import PackFile = Pack
  import Glob

  datatype RetainedBase = RetainedBase(id: Id, tensors: map<string, Bytes>)

  // ── The base to diff against ─────────────────────────────────────

  function RetainedFor(retained: Option<RetainedBase>, id: Id): Option<map<string, Bytes>> {
    if retained.Some? && retained.value.id == id then Some(retained.value.tensors) else None
  }

  function CacheFor(base: Option<Snapshot>, rank: nat, retained: Option<RetainedBase>): Option<Cache> {
    if base.None? || rank !in base.value.ranks then None
    else
      var re := base.value.ranks[rank];
      Some(Cache(re.packFile, EntryMap(re.tensors), base.value.compression, RetainedFor(retained, base.value.id)))
  }

  /** The retained bytes of a snapshot are the bytes the snapshot holds. */
  ghost predicate RetainsContents(retained: map<string, Bytes>, contents: Contents) {
    forall n :: n in retained ==> n in contents && retained[n] == contents[n].raw
  }

  ghost predicate BaseHolds(env: Env, files: Files, bs: Snapshot, rank: nat, pack: Bytes, contents: Contents) {
    && rank in bs.ranks
    && var re := bs.ranks[rank];
       && re.packFile.Some? && re.packFile.value in files && Holds(files[re.packFile.value], pack)
       && ShardHolds(env, Shard(re.tensors, pack, bs.compression), map[], contents)
  }

  lemma CachedEntry(
      env: Env, files: Files, bs: Snapshot, rank: nat, pack: Bytes, contents: Contents, c: Cache, n: string)
    requires BaseHolds(env, files, bs, rank, pack, contents) && n in c.entries
    requires c.packFile == bs.ranks[rank].packFile && c.compression == bs.compression
    requires c.entries == EntryMap(bs.ranks[rank].tensors)
    requires c.raw.Some? ==> RetainsContents(c.raw.value, contents)
    ensures n in contents && c.entries[n].hashRaw == env.hash(contents[n].raw)
    ensures
      var read := BaseBytes(env, files, c, c.entries[n]);
      read.Ok? && read.value.Some? ==> read.value.value == contents[n].raw
  {
    var sh := Shard(bs.ranks[rank].tensors, pack, bs.compression);
    var e := c.entries[n];
    assert e in sh.entries && e.name == n;
    assert HoldsEntry(env, sh, e, map[], contents);
    if e.storage == Full {
      SliceOfPadded(files[c.packFile.value], pack, e.offset, e.compressedSize);
    }
  }

  /** Whether the base is read from memory or from disk, it is the same base. */
  lemma CacheIsFaithful(
      env: Env, files: Files, bs: Snapshot, rank: nat, retained: Option<RetainedBase>, pack: Bytes, contents: Contents)
    requires BaseHolds(env, files, bs, rank, pack, contents)
    requires retained.Some? && retained.value.id == bs.id ==> RetainsContents(retained.value.tensors, contents)
    ensures
      var c := CacheFor(Some(bs), rank, retained);
      c.Some? && Faithful(env, files, c.value, Raws(contents))
  {
    var c := CacheFor(Some(bs), rank, retained).value;
    hide BaseBytes, BaseHolds;
    forall n | n in c.entries
      ensures
        && n in Raws(contents) && c.entries[n].hashRaw == env.hash(Raws(contents)[n])
        && var read := BaseBytes(env, files, c, c.entries[n]);
           (read.Ok? && read.value.Some? ==> read.value.value == Raws(contents)[n])
    {
      CachedEntry(env, files, bs, rank, pack, contents, c, n);
    }
  }

  // ── What is retained ─────────────────────────────────────────────

  function Retainable(ps: seq<Processed>): set<string> {
    set p | p in ps && p.entry.storage == Full && p.entry.originalDtype.None? :: p.entry.name
  }

  function RetainedTo(ts: seq<TensorData>, n: nat, names: set<string>): (r: map<string, Bytes>)
    requires n <= |ts|
    ensures forall m :: m in r ==> m in names && exists i :: 0 <= i < n && ts[i].name == m && r[m] == ts[i].data
    ensures forall i :: 0 <= i < n && ts[i].name in names ==> ts[i].name in r
  {
    if n == 0 then map[]
    else
      var r := RetainedTo(ts, n - 1, names);
      if ts[n - 1].name in names then r[ts[n - 1].name := ts[n - 1].data] else r
  }

  lemma UncastMeansSameBytes(env: Env, policy: Glob.Policy, t: TensorData)
    requires Given(env, policy, t).Ok? && Given(env, policy, t).value.originalDtype.None?
    ensures Given(env, policy, t).value.raw == t.data
  {
    GivenByDtype(env, policy, t);
  }

  /** Every retained buffer is, name for name, what the pack just written holds. */
  lemma RetainedIsWritten(
      env: Env, files: Files, cfg: Config, cache: Option<Cache>, ts: seq<TensorData>, base: map<string, Bytes>)
    requires Lawful(env) && DistinctTensors(ts)
    requires cache.Some? ==> Faithful(env, files, cache.value, base)
    requires ProcessedAll(env, files, cfg, cache, ts).Ok?
    ensures
      var ps := ProcessedAll(env, files, cfg, cache, ts).value;
      RetainsContents(RetainedTo(ts, |ts|, Retainable(ps)), ContentsOf(env, cfg.policy, ts))
  {
    var ps := ProcessedAll(env, files, cfg, cache, ts).value;
    ProcessedAllKeeps(env, files, cfg, cache, ts, base);
    var contents := ContentsOf(env, cfg.policy, ts);
    var retained := RetainedTo(ts, |ts|, Retainable(ps));
    hide ProcessedAll, ContentsOf, EntryOk;
    forall n | n in retained
      ensures n in contents && retained[n] == contents[n].raw
    {
      var i :| 0 <= i < |ts| && ts[i].name == n && retained[n] == ts[i].data;
      var p :| p in ps && p.entry.storage == Full && p.entry.originalDtype.None? && p.entry.name == n;
      var k :| 0 <= k < |ps| && ps[k] == p;
      hide *;
      SavedMeansGiven(env, files, cfg, cache, ts, base, i);
      InjectiveOf(env);
      RetainedOne(env, cfg, ts, ps, k, i, base);
    }
  }

  /** And none is left out that was just kept in full and uncast. */
  lemma EveryFullIsRetained(
      env: Env, files: Files, cfg: Config, cache: Option<Cache>, ts: seq<TensorData>, base: map<string, Bytes>)
    requires Lawful(env) && DistinctTensors(ts)
    requires cache.Some? ==> Faithful(env, files, cache.value, base)
    requires ProcessedAll(env, files, cfg, cache, ts).Ok?
    ensures
      var ps := ProcessedAll(env, files, cfg, cache, ts).value;
      forall n :: n in RetainedTo(ts, |ts|, Retainable(ps)) <==>
        exists p :: p in ps && p.entry.name == n && p.entry.storage == Full && p.entry.originalDtype.None?
  {
    var ps := ProcessedAll(env, files, cfg, cache, ts).value;
    ProcessedAllKeeps(env, files, cfg, cache, ts, base);
    var contents := ContentsOf(env, cfg.policy, ts);
    hide ProcessedAll, ContentsOf, EntryOk;
    forall p | p in ps && p.entry.storage == Full && p.entry.originalDtype.None?
      ensures p.entry.name in RetainedTo(ts, |ts|, Retainable(ps))
    {
      var k :| 0 <= k < |ps| && ps[k] == p;
      NamedByOrder(env, cfg, ts, ps, k, base, contents);
    }
  }

  lemma NamedByOrder(
      env: Env, cfg: Config, ts: seq<TensorData>, ps: seq<Processed>, k: nat, base: map<string, Bytes>,
      contents: Contents)
    requires EntryOk(env, cfg, ts, ps, k, base, contents)
    ensures k < |ps| && exists i :: 0 <= i < |ts| && ts[i].name == ps[k].entry.name
  {
    hide Order, Keeps;
    assert ts[Order(env, ts)[k]].name == ps[k].entry.name;
  }

  lemma InjectiveOf(env: Env)
    requires Lawful(env)
    ensures Injective(env.hash)
  {
  }

  lemma RetainedOne(
      env: Env, cfg: Config, ts: seq<TensorData>, ps: seq<Processed>, k: nat, i: nat, base: map<string, Bytes>)
    requires Injective(env.hash) && DistinctTensors(ts) && i < |ts|
    requires EntryOk(env, cfg, ts, ps, k, base, ContentsOf(env, cfg.policy, ts)) && Kept(env, cfg.policy, ts, i).Ok?
    requires ps[k].entry.storage == Full && ps[k].entry.originalDtype.None? && ps[k].entry.name == ts[i].name
    ensures
      var contents := ContentsOf(env, cfg.policy, ts);
      ts[i].name in contents && contents[ts[i].name].raw == ts[i].data
  {
    var contents := ContentsOf(env, cfg.policy, ts);
    var e := ps[k].entry;
    ContentsAt(env, cfg.policy, ts, |ts|, i);
    var j := HolderOf(env, ts, i);
    HolderHoldsItself(env, ts, i);
    assert HeldAs(e, contents[e.name].raw) == contents[e.name]
           && Stores(env, cfg.compression, e, ps[k].data, base, contents[e.name].raw);
    assert contents[e.name] == HeldOr(Given(env, cfg.policy, ts[j]));
    hide OwnerOf, HolderOf, ContentsTo, EntryOk, Stores;
    UncastMeansSameBytes(env, cfg.policy, ts[j]);
  }

  // ── The write ────────────────────────────────────────────────────

  method ProcessTensors(
      env: Env, files: Files, cfg: Config, cache: Option<Cache>, ts: seq<TensorData>)
    returns (r: Result<seq<Processed>>)
    ensures r == Processes(env, files, cfg, cache, ts)
  {
    hide ProcessTensor;
    var done: seq<Processed> := [];
    for i := 0 to |ts|
      invariant Processes(env, files, cfg, cache, ts[..i]) == Ok(done)
    {
      var p := ProcessTensor(env, files, cfg, cache, ts[i]);
      assert ts[..i + 1][..i] == ts[..i];
      if p.Err? {
        ProcessFails(env, files, cfg, cache, ts, i, |ts|);
        assert ts[..|ts|] == ts;
        return Err(p.error);
      }
      done := done + [p.value];
    }
    assert ts[..|ts|] == ts;
    return Ok(done);
  }

  lemma {:induction false} ProcessFails(
      env: Env, files: Files, cfg: Config, cache: Option<Cache>, ts: seq<TensorData>, i: nat, n: nat)
    requires i < n <= |ts| && Processes(env, files, cfg, cache, ts[..i]).Ok?
    requires ProcessTensor(env, files, cfg, cache, ts[i]).Err?
    ensures Processes(env, files, cfg, cache, ts[..n]) == Err(ProcessTensor(env, files, cfg, cache, ts[i]).error)
    decreases n
  {
    hide ProcessTensor;
    assert ts[..n][..n - 1] == ts[..n - 1];
    if i + 1 < n {
      ProcessFails(env, files, cfg, cache, ts, i, n - 1);
    }
  }

  method Unique(env: Env, ts: seq<TensorData>, plan: seq<Option<string>>) returns (unique: seq<TensorData>)
    requires plan == Plan(env, ts)
    ensures unique == Picked(ts, Own(env, ts, |ts|))
  {
    hide OwnerOf;
    unique := [];
    for i := 0 to |ts|
      invariant unique == Picked(ts, Own(env, ts, i))
    {
      if plan[i].None? {
        unique := unique + [ts[i]];
      }
    }
  }

  method AliasEntries(
      env: Env, ts: seq<TensorData>, plan: seq<Option<string>>, stored: map<string, TensorEntry>)
    returns (r: seq<Processed>)
    requires plan == Plan(env, ts)
    ensures r == Aliases(env, ts, Shared(env, ts, |ts|), stored)
  {
    hide OwnerOf;
    r := [];
    for i := 0 to |ts|
      invariant r == Aliases(env, ts, Shared(env, ts, i), stored)
    {
      ghost var before := Shared(env, ts, i);
      assert before + [] == before && r + [] == r && (before + [i])[..|before|] == before;
      if plan[i].Some? {
        if plan[i].value in stored {
          r := r + [Processed(AliasEntry(ts[i], stored[plan[i].value]), None)];
        }
      }
    }
  }

  /** Gives each blob its place, one after the other from the end of the header. */
  method AssignOffsets(ps: seq<Processed>) returns (entries: seq<TensorEntry>, blobsEnd: nat)
    ensures entries == Placed(ps) && blobsEnd == OffsetOf(ps, |ps|)
  {
    entries := [];
    var offset := PackFile.HEADER_LEN;
    for i := 0 to |ps|
      invariant offset == OffsetOf(ps, i)
      invariant |entries| == i && forall k :: 0 <= k < i ==> entries[k] == PlacedEntry(ps, k)
    {
      var e := ps[i].entry;
      if ps[i].data.Some? {
        e := e.(offset := offset);
        offset := offset + |ps[i].data.value|;
      }
      entries := entries + [e];
    }
    blobsEnd := offset;
  }

  method DescribeRank(id: Id, rank: nat, es: seq<TensorEntry>) returns (r: RankEntry)
    ensures r == RankEntryOf(id, rank, es)
  {
    var compressed, raw, skipped, delta, full := 0, 0, 0, 0, 0;
    for i := 0 to |es|
      invariant compressed == TotalCompressed(es[..i]) && raw == TotalRaw(es[..i])
      invariant skipped == CountOf(es[..i], {Skipped, Alias})
      invariant delta == CountOf(es[..i], {DeltaXor}) && full == CountOf(es[..i], {Full})
    {
      assert es[..i + 1][..i] == es[..i];
      compressed := compressed + es[i].compressedSize;
      raw := raw + es[i].rawSize;
      match es[i].storage {
        case Skipped => skipped := skipped + 1;
        case Alias => skipped := skipped + 1;
        case DeltaXor => delta := delta + 1;
        case Full => full := full + 1;
      }
    }
    assert es[..|es|] == es;
    return RankEntry(rank, es, Some(Path.Pack(id, rank)), compressed, raw, skipped, delta, full);
  }

  method Blobs(ps: seq<Processed>) returns (blobs: Bytes)
    ensures blobs == BlobsTo(ps, |ps|)
  {
    blobs := [];
    for i := 0 to |ps|
      invariant blobs == BlobsTo(ps, i)
    {
      if ps[i].data.Some? {
        blobs := blobs + ps[i].data.value;
      }
    }
  }

  method Retain(ts: seq<TensorData>, names: set<string>) returns (r: map<string, Bytes>)
    ensures r == RetainedTo(ts, |ts|, names)
  {
    r := map[];
    for i := 0 to |ts|
      invariant r == RetainedTo(ts, i, names)
    {
      if ts[i].name in names {
        r := r[ts[i].name := ts[i].data];
      }
    }
  }

  /** What `retain_base` leaves in memory once a save has processed its tensors. */
  function RetainedAfter(
      config: RankConfig, retained: Option<RetainedBase>, ctx: Context, ts: seq<TensorData>,
      ps: seq<Processed>): Option<RetainedBase>
  {
    if ctx.base.None? && config.keepBase then Some(RetainedBase(ctx.id, RetainedTo(ts, |ts|, Retainable(ps))))
    else retained
  }

  class Core {
    const env: Env
    const config: RankConfig
    const disk: Disk
    var retained: Option<RetainedBase>

    constructor (env: Env, config: RankConfig, disk: Disk)
      ensures this.env == env && this.config == config && this.disk == disk && retained.None?
    {
      this.env, this.config, this.disk := env, config, disk;
      retained := None;
    }

    /**
     Deduplicates, processes, lays out and writes: one pack goes to disk or nothing does, and a
     full's bytes are retained as the next base whether or not the write succeeds.
     */
    method SaveRankTensors(base: Option<Snapshot>, ts: seq<TensorData>, ctx: Context) returns (r: Result<RankEntry>)
      requires ctx.base == if base.Some? then Some(base.value.id) else None
      modifies this, disk
      ensures
        var cache := CacheFor(base, config.rank, old(retained));
        match ProcessedAll(env, old(disk.files), config.tensors, cache, ts)
        case Err(e) => r == Err(e) && disk.files == old(disk.files) && retained == old(retained)
        case Ok(ps) =>
          var w := Laid(env, ps, ctx, config.tensors.compression, config.rank, config.worldSize);
          && retained == RetainedAfter(config, old(retained), ctx, ts, ps)
          && (if r.Ok? then r.value == w.entry
                            && disk.files
                               == old(disk.files)[Path.Pack(ctx.id, config.rank) := Padded(w.pack, disk.page)]
              else r == Err(Error.Storage) && disk.files == old(disk.files) && !disk.NeverFails())
    {
      var cache := CacheFor(base, config.rank, retained);
      var plan := DedupPlan(env, ts);
      var unique := Unique(env, ts, plan);
      var stored := ProcessTensors(env, disk.files, config.tensors, cache, unique);
      if stored.Err? {
        return Err(stored.error);
      }
      var aliases := AliasEntries(env, ts, plan, EntryMap(EntriesOf(stored.value)));
      var ps := stored.value + aliases;
      hide Processes, Own, Shared, Aliases, Plan, CacheFor;
      if base.None? && config.keepBase {
        var kept := Retain(ts, Retainable(ps));
        retained := Some(RetainedBase(ctx.id, kept));
      }
      var entries, blobsEnd := AssignOffsets(ps);
      var entry := DescribeRank(ctx.id, config.rank, entries);
      var described := env.descriptorJson(DescriptorOf(ctx, config.tensors.compression, config.worldSize, entry));
      var header := PackFile.EncodeHeader(blobsEnd, |described|);
      var blobs := Blobs(ps);
      var put := disk.Put(Path.Pack(ctx.id, config.rank), header + blobs + described);
      if put.Err? {
        return Err(put.error);
      }
      return Ok(entry);
    }
  }
}
