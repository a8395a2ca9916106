/** Several ranks write their packs side by side; rank 0 assembles the snapshot from what they wrote. */
module MultiRank {
  import opened Bytes
  import opened Manifest
  import opened Env
  import opened Layout
  import opened ManifestIO
  import PackFile = Pack
  import Recovery
  import Retain

  /** A pack's own description. Anything short of one is an error, never an absence. */
  function ShardAt(env: Env, files: Files, path: Path, id: Id): Result<RankEntry> {
    var header :- GetRange(files, path, 0, PackFile.HEADER_LEN);
    match PackFile.DecodeHeader(header)
    case None => Err(Error.Storage)
    case Some((offset, length)) =>
      var encoded :- GetRange(files, path, offset, length);
      if |encoded| != length then Err(Error.Storage)
      else
        match env.readDescriptor(encoded)
        case None => Err(Config)
        case Some(d) => if d.snapshotId != id then Err(Error.Storage) else Ok(d.rank)
  }

  function Shards(env: Env, files: Files, id: Id, packs: seq<Path>): Result<map<nat, RankEntry>> {
    if packs == [] then Ok(map[])
    else
      var before :- Shards(env, files, id, packs[..|packs| - 1]);
      var entry :- ShardAt(env, files, packs[|packs| - 1], id);
      Ok(before[entry.rank := entry])
  }

  method CollectRankShards(env: Env, files: Files, id: Id, packs: seq<Path>) returns (r: Result<map<nat, RankEntry>>)
    ensures r == Shards(env, files, id, packs)
  {
    hide ShardAt;
    var shards: map<nat, RankEntry> := map[];
    for i := 0 to |packs|
      invariant Shards(env, files, id, packs[..i]) == Ok(shards)
    {
      assert packs[..i + 1][..i] == packs[..i];
      var entry := ShardAt(env, files, packs[i], id);
      if entry.Err? {
        ShardsFail(env, files, id, packs, i, |packs|);
        assert packs[..|packs|] == packs;
        return Err(entry.error);
      }
      shards := shards[entry.value.rank := entry.value];
    }
    assert packs[..|packs|] == packs;
    return Ok(shards);
  }

  lemma {:induction false} ShardsFail(env: Env, files: Files, id: Id, packs: seq<Path>, i: nat, n: nat)
    requires i < n <= |packs| && Shards(env, files, id, packs[..i]).Ok? && ShardAt(env, files, packs[i], id).Err?
    ensures Shards(env, files, id, packs[..n]) == Err(ShardAt(env, files, packs[i], id).error)
    decreases n
  {
    hide ShardAt;
    assert packs[..n][..n - 1] == packs[..n - 1];
    if i + 1 < n {
      ShardsFail(env, files, id, packs, i, n - 1);
    }
  }

  // ── What ranks write ─────────────────────────────────────────────

  /** A pack that describes itself by `d`: a header that leads to that description. */
  ghost predicate WritesAs(env: Env, d: Descriptor, pack: Bytes) {
    exists blobs: Bytes ::
      && |blobs| >= PackFile.HEADER_LEN && |blobs| < PackFile.U64_LIMIT && |env.descriptorJson(d)| < PackFile.U64_LIMIT
      && pack == blobs + env.descriptorJson(d)
      && PackFile.DecodeHeader(Slice(blobs, 0, PackFile.HEADER_LEN)) == Some((|blobs|, |env.descriptorJson(d)|))
  }

  /** A rank's pack describes the very entry that rank made. */
  ghost predicate Writes(env: Env, id: Id, pack: Bytes, entry: RankEntry) {
    exists d: Descriptor :: d.snapshotId == id && d.rank == entry && WritesAs(env, d, pack)
  }

  /** The pack the save path lays out for a rank is one its entry can be collected from. */
  lemma LaidIsWritten(
      env: Env, ps: seq<Tensor.Processed>, ctx: Context, algo: Compression.Algo, rank: nat, worldSize: nat)
    requires |Laid(env, ps, ctx, algo, rank, worldSize).pack| < PackFile.U64_LIMIT
    ensures
      var w := Laid(env, ps, ctx, algo, rank, worldSize);
      && w.entry.rank == rank && Writes(env, ctx.id, w.pack, w.entry)
      && WritesAs(env, DescriptorOf(ctx, algo, worldSize, w.entry), w.pack)
  {
    var entry := RankEntryOf(ctx.id, rank, Placed(ps));
    var d := DescriptorOf(ctx, algo, worldSize, entry);
    var described := env.descriptorJson(d);
    var header := PackFile.Header(OffsetOf(ps, |ps|), |described|);
    var blobs := header + BlobsTo(ps, |ps|);
    PackFile.HeaderRoundTrip(OffsetOf(ps, |ps|), |described|, []);
    assert header + [] == header && Slice(blobs, 0, PackFile.HEADER_LEN) == header;
    assert PackOf(env, ps, d) == blobs + described;
    assert WritesAs(env, d, PackOf(env, ps, d));
    hide PackFile.Header, PackFile.DecodeHeader, BlobsTo, Placed;
  }

  lemma WrittenIsDescribed(env: Env, files: Files, path: Path, pack: Bytes, d: Descriptor)
    requires Lawful(env) && path in files && Holds(files[path], pack) && WritesAs(env, d, pack)
    ensures Recovery.Described(env, files, path, d.snapshotId) == Some(d)
    ensures ShardAt(env, files, path, d.snapshotId) == Ok(d.rank)
  {
    var blobs: Bytes :|
      && |blobs| >= PackFile.HEADER_LEN && |blobs| < PackFile.U64_LIMIT && |env.descriptorJson(d)| < PackFile.U64_LIMIT
      && pack == blobs + env.descriptorJson(d)
      && PackFile.DecodeHeader(Slice(blobs, 0, PackFile.HEADER_LEN)) == Some((|blobs|, |env.descriptorJson(d)|));
    var described := env.descriptorJson(d);
    SliceOfPadded(files[path], pack, 0, PackFile.HEADER_LEN);
    SliceOfPadded(files[path], pack, |blobs|, |described|);
    assert pack[0..PackFile.HEADER_LEN] == blobs[0..PackFile.HEADER_LEN];
    assert pack[|blobs|..|blobs| + |described|] == described;
    assert env.readDescriptor(described) == Some(d);
    hide PackFile.DecodeHeader, Holds, Lawful;
  }

  lemma WrittenIsRead(env: Env, files: Files, path: Path, id: Id, pack: Bytes, entry: RankEntry)
    requires Lawful(env) && path in files && Holds(files[path], pack) && Writes(env, id, pack, entry)
    ensures ShardAt(env, files, path, id) == Ok(entry)
  {
    var d: Descriptor :| d.snapshotId == id && d.rank == entry && WritesAs(env, d, pack);
    hide WritesAs, ShardAt, Lawful, Holds;
    WrittenIsDescribed(env, files, path, pack, d);
  }

  // ── Any order of writes ──────────────────────────────────────────

  /** What each rank has to write for this snapshot. */
  type Plan = map<nat, Written>

  ghost predicate PlanOk(env: Env, id: Id, plan: Plan) {
    forall rank :: rank in plan ==> plan[rank].entry.rank == rank && Writes(env, id, plan[rank].pack, plan[rank].entry)
  }

  /** Storage after these ranks have put their packs, one after the other in this order. */
  function After(files: Files, page: nat, id: Id, plan: Plan, order: seq<nat>): Files
    requires forall rank :: rank in order ==> rank in plan
  {
    if order == [] then files
    else
      var last := order[|order| - 1];
      After(files, page, id, plan, order[..|order| - 1])[Path.Pack(id, last) := Padded(plan[last].pack, page)]
  }

  /** No pack is lost to another: each rank's is there, whatever came before or after it. */
  lemma {:induction false} AfterHolds(files: Files, page: nat, id: Id, plan: Plan, order: seq<nat>, path: Path)
    requires forall rank :: rank in order ==> rank in plan
    ensures
      var after := After(files, page, id, plan, order);
      if path.Pack? && path.id == id && path.rank in order
      then path in after && after[path] == Padded(plan[path.rank].pack, page)
      else (path in after <==> path in files) && (path in files ==> after[path] == files[path])
  {
    hide Padded;
    if order != [] {
      AfterHolds(files, page, id, plan, order[..|order| - 1], path);
      assert order == order[..|order| - 1] + [order[|order| - 1]];
    }
  }

  /** Two interleavings in which the same ranks wrote leave the same storage. */
  lemma OrderDoesNotMatter(files: Files, page: nat, id: Id, plan: Plan, order: seq<nat>, other: seq<nat>)
    requires forall rank :: rank in order ==> rank in plan
    requires forall rank :: rank in order <==> rank in other
    ensures After(files, page, id, plan, order) == After(files, page, id, plan, other)
  {
    var a, b := After(files, page, id, plan, order), After(files, page, id, plan, other);
    hide After, Padded;
    forall path: Path
      ensures (path in a <==> path in b) && (path in a ==> a[path] == b[path])
    {
      AfterHolds(files, page, id, plan, order, path);
      AfterHolds(files, page, id, plan, other, path);
    }
  }

  /** A listing of the snapshot's directory: each pack in it once, in any order. */
  ghost predicate Listing(files: Files, id: Id, packs: seq<Path>) {
    && (forall p :: p in packs <==> p in files && p.Pack? && p.id == id)
    && forall i, j :: 0 <= i < j < |packs| ==> packs[i] != packs[j]
  }

  lemma {:induction false} ShardsOf(env: Env, files: Files, id: Id, packs: seq<Path>, plan: Plan)
    requires forall i :: 0 <= i < |packs| ==>
               packs[i].Pack? && packs[i].rank in plan && plan[packs[i].rank].entry.rank == packs[i].rank
               && ShardAt(env, files, packs[i], id) == Ok(plan[packs[i].rank].entry)
    ensures
      var shards := Shards(env, files, id, packs);
      && shards.Ok?
      && (forall rank :: rank in shards.value <==> exists i :: 0 <= i < |packs| && packs[i].rank == rank)
      && forall rank :: rank in shards.value ==> rank in plan && shards.value[rank] == plan[rank].entry
  {
    hide ShardAt;
    if packs != [] {
      var init := packs[..|packs| - 1];
      ShardsOf(env, files, id, init, plan);
      var before := Shards(env, files, id, init).value;
      var last := packs[|packs| - 1].rank;
      var shards := before[last := plan[last].entry];
      forall rank
        ensures rank in shards <==> exists i :: 0 <= i < |packs| && packs[i].rank == rank
      {
        if rank in before {
          var i :| 0 <= i < |init| && init[i].rank == rank;
          assert packs[i].rank == rank;
        }
        if exists i :: 0 <= i < |packs| && packs[i].rank == rank {
          var i :| 0 <= i < |packs| && packs[i].rank == rank;
          assert i < |init| ==> init[i].rank == rank;
        }
      }
    }
  }

  /** The entries of the ranks that have written. */
  function EntriesOf(plan: Plan, order: seq<nat>): map<nat, RankEntry>
    requires forall rank :: rank in order ==> rank in plan
  {
    map rank | rank in order :: plan[rank].entry
  }

  lemma ListedPackIsRead(env: Env, files: Files, page: nat, id: Id, plan: Plan, order: seq<nat>, path: Path)
    requires Lawful(env) && PlanOk(env, id, plan) && (forall rank :: rank in order ==> rank in plan)
    requires forall p :: p in files && p.Pack? ==> p.id != id
    requires path in After(files, page, id, plan, order) && path.Pack? && path.id == id
    ensures path.rank in order && plan[path.rank].entry.rank == path.rank
    ensures ShardAt(env, After(files, page, id, plan, order), path, id) == Ok(plan[path.rank].entry)
  {
    hide After, ShardAt, Lawful, Writes, Padded;
    AfterHolds(files, page, id, plan, order, path);
    PaddedHolds(plan[path.rank].pack, page);
    WrittenIsRead(env, After(files, page, id, plan, order), path, id, plan[path.rank].pack, plan[path.rank].entry);
  }

  lemma WrittenRankIsListed(
      files: Files, page: nat, id: Id, plan: Plan, order: seq<nat>, packs: seq<Path>, rank: nat) returns (i: nat)
    requires (forall other :: other in order ==> other in plan) && rank in order
    requires Listing(After(files, page, id, plan, order), id, packs)
    ensures i < |packs| && packs[i].Pack? && packs[i].rank == rank
  {
    hide After;
    AfterHolds(files, page, id, plan, order, Path.Pack(id, rank));
    assert Path.Pack(id, rank) in packs;
    i :| 0 <= i < |packs| && packs[i] == Path.Pack(id, rank);
  }

  /**
   Collecting gives exactly the entry each rank wrote, for exactly the ranks that have written:
   no shard is lost, and neither the order of the writes nor that of the listing shows.
   */
  lemma CollectsWhatWasWritten(
      env: Env, files: Files, page: nat, id: Id, plan: Plan, order: seq<nat>, packs: seq<Path>)
    requires Lawful(env) && PlanOk(env, id, plan) && (forall rank :: rank in order ==> rank in plan)
    requires forall p :: p in files && p.Pack? ==> p.id != id
    requires Listing(After(files, page, id, plan, order), id, packs)
    ensures Shards(env, After(files, page, id, plan, order), id, packs) == Ok(EntriesOf(plan, order))
  {
    var after := After(files, page, id, plan, order);
    assert forall i ::
             0 <= i < |packs| ==> packs[i] in packs && packs[i] in after && packs[i].Pack? && packs[i].id == id;
    hide After, ShardAt, Shards, Lawful, Writes, Padded, Listing, PlanOk;
    forall i | 0 <= i < |packs|
      ensures packs[i].rank in order && plan[packs[i].rank].entry.rank == packs[i].rank
      ensures ShardAt(env, after, packs[i], id) == Ok(plan[packs[i].rank].entry)
    {
      ListedPackIsRead(env, files, page, id, plan, order, packs[i]);
    }
    hide EntriesOf;
    ShardsOf(env, after, id, packs, plan);
    var shards := Shards(env, after, id, packs).value;
    forall rank
      ensures rank in shards <==> rank in order
    {
      if rank in shards {
        var i :| 0 <= i < |packs| && packs[i].rank == rank;
      }
      if rank in order {
        var i := WrittenRankIsListed(files, page, id, plan, order, packs, rank);
      }
    }
    SameEntries(shards, plan, order);
  }

  lemma SameEntries(shards: map<nat, RankEntry>, plan: Plan, order: seq<nat>)
    requires forall rank :: rank in order ==> rank in plan
    requires forall rank :: rank in shards <==> rank in order
    requires forall rank :: rank in shards ==> rank in plan && shards[rank] == plan[rank].entry
    ensures shards == EntriesOf(plan, order)
  {
  }

  /** One pack that does not describe itself, and nothing is collected. */
  lemma {:induction false} MalformedPackIsRefused(env: Env, files: Files, id: Id, packs: seq<Path>, i: nat)
    requires i < |packs| && ShardAt(env, files, packs[i], id).Err?
    ensures Shards(env, files, id, packs).Err?
  {
    hide ShardAt;
    if i < |packs| - 1 {
      MalformedPackIsRefused(env, files, id, packs[..|packs| - 1], i);
    }
  }

  // ── Recovering what ranks wrote ──────────────────────────────────

  /** All ranks write for one snapshot, and each pack says how many ranks there are. */
  ghost predicate PlanFor(env: Env, ctx: Context, algo: Compression.Algo, worldSize: nat, plan: Plan) {
    forall rank :: rank in plan ==>
      plan[rank].entry.rank == rank
      && WritesAs(env, DescriptorOf(ctx, algo, worldSize, plan[rank].entry), plan[rank].pack)
  }

  lemma PlanForIsOk(env: Env, ctx: Context, algo: Compression.Algo, worldSize: nat, plan: Plan)
    requires PlanFor(env, ctx, algo, worldSize, plan)
    ensures PlanOk(env, ctx.id, plan)
  {
    hide WritesAs;
  }

  lemma ListedPackIsDescribed(
      env: Env, files: Files, page: nat, ctx: Context, algo: Compression.Algo, worldSize: nat, plan: Plan,
      order: seq<nat>, path: Path)
    requires Lawful(env) && PlanFor(env, ctx, algo, worldSize, plan)
    requires (forall rank :: rank in order ==> rank in plan) && forall p :: p in files && p.Pack? ==> p.id != ctx.id
    requires path in After(files, page, ctx.id, plan, order) && path.Pack? && path.id == ctx.id
    ensures path.rank in order
    ensures Recovery.Described(env, After(files, page, ctx.id, plan, order), path, ctx.id)
            == Some(DescriptorOf(ctx, algo, worldSize, plan[path.rank].entry))
  {
    hide After, Lawful, WritesAs, Padded, Recovery.Described;
    AfterHolds(files, page, ctx.id, plan, order, path);
    PaddedHolds(plan[path.rank].pack, page);
    WrittenIsDescribed(env, After(files, page, ctx.id, plan, order), path, plan[path.rank].pack,
                       DescriptorOf(ctx, algo, worldSize, plan[path.rank].entry));
  }

  lemma DescribedIsShard(env: Env, files: Files, path: Path, id: Id)
    requires Recovery.Described(env, files, path, id).Some?
    ensures ShardAt(env, files, path, id) == Ok(Recovery.Described(env, files, path, id).value.rank)
  {
    hide PackFile.DecodeHeader;
  }

  /** What recovery makes of a directory's packs is what collecting them gives. */
  lemma {:induction false} DescriptorsAreShards(
      env: Env, files: Files, id: Id, packs: seq<Path>, ds: seq<Descriptor>)
    requires Recovery.Descriptors(env, files, id, packs) == Some(ds)
    ensures Shards(env, files, id, packs) == Ok(Recovery.RanksOf(ds))
  {
    hide ShardAt, Recovery.Described;
    if packs != [] {
      DescriptorsAreShards(env, files, id, packs[..|packs| - 1], ds[..|ds| - 1]);
      DescribedIsShard(env, files, packs[|packs| - 1], id);
    }
  }

  /**
   After a crash, whatever order the ranks' writes fell in and whatever order their packs are listed
   in: the snapshot is rebuilt exactly when as many ranks had written as there are, and then with
   the entry each of them wrote. A save that was cut short in between leaves nothing to rebuild.
   */
  lemma RebuildsExactlyWhenAllWrote(
      env: Env, files: Files, page: nat, ctx: Context, algo: Compression.Algo, worldSize: nat, plan: Plan,
      order: seq<nat>, packs: seq<Path>)
    requires Lawful(env) && PlanFor(env, ctx, algo, worldSize, plan)
    requires (forall rank :: rank in order ==> rank in plan) && forall p :: p in files && p.Pack? ==> p.id != ctx.id
    requires Listing(After(files, page, ctx.id, plan, order), ctx.id, packs)
    ensures
      var written := EntriesOf(plan, order);
      Recovery.Rebuild(env, After(files, page, ctx.id, plan, order), ctx.id, packs)
      == if order != [] && |written| == worldSize
         then Some(Snapshot(ctx.id, ctx.step, ctx.createdAt, written, ctx.base, ctx.metadata, algo, true, false))
         else None
  {
    var after := After(files, page, ctx.id, plan, order);
    hide *;
    PlanForIsOk(env, ctx, algo, worldSize, plan);
    CollectsWhatWasWritten(env, files, page, ctx.id, plan, order, packs);
    AllDescribed(env, files, page, ctx, algo, worldSize, plan, order, packs);
    Recovery.DescriptorsAre(env, after, ctx.id, packs);
    var ds := Recovery.Descriptors(env, after, ctx.id, packs).value;
    DescriptorsAreShards(env, after, ctx.id, packs, ds);
    NoneWrote(files, page, ctx.id, plan, order, packs);
    RebuildOf(env, after, ctx, algo, worldSize, packs, ds, EntriesOf(plan, order));
  }

  lemma AllDescribed(
      env: Env, files: Files, page: nat, ctx: Context, algo: Compression.Algo, worldSize: nat, plan: Plan,
      order: seq<nat>, packs: seq<Path>)
    requires Lawful(env) && PlanFor(env, ctx, algo, worldSize, plan)
    requires (forall rank :: rank in order ==> rank in plan) && forall p :: p in files && p.Pack? ==> p.id != ctx.id
    requires Listing(After(files, page, ctx.id, plan, order), ctx.id, packs)
    ensures forall k :: 0 <= k < |packs| ==>
              var d := Recovery.Described(env, After(files, page, ctx.id, plan, order), packs[k], ctx.id);
              d.Some? && d.value == DescriptorOf(ctx, algo, worldSize, d.value.rank)
  {
    var after := After(files, page, ctx.id, plan, order);
    hide After, Lawful, PlanFor, Recovery.Described;
    forall k | 0 <= k < |packs|
      ensures var d := Recovery.Described(env, after, packs[k], ctx.id);
              d.Some? && d.value == DescriptorOf(ctx, algo, worldSize, d.value.rank)
    {
      assert packs[k] in packs;
      ListedPackIsDescribed(env, files, page, ctx, algo, worldSize, plan, order, packs[k]);
    }
  }

  lemma NoneWrote(files: Files, page: nat, id: Id, plan: Plan, order: seq<nat>, packs: seq<Path>)
    requires (forall rank :: rank in order ==> rank in plan) && forall p :: p in files && p.Pack? ==> p.id != id
    requires Listing(After(files, page, id, plan, order), id, packs)
    ensures packs == [] <==> order == []
  {
    hide After;
    if order != [] {
      AfterHolds(files, page, id, plan, order, Path.Pack(id, order[0]));
      assert Path.Pack(id, order[0]) in packs;
    } else if packs != [] {
      assert packs[0] in packs;
      AfterHolds(files, page, id, plan, order, packs[0]);
    }
  }

  lemma RebuildOf(
      env: Env, files: Files, ctx: Context, algo: Compression.Algo, worldSize: nat, packs: seq<Path>,
      ds: seq<Descriptor>, ranks: map<nat, RankEntry>)
    requires Recovery.Descriptors(env, files, ctx.id, packs) == Some(ds) && Recovery.RanksOf(ds) == ranks
    requires packs != [] ==>
               var d := Recovery.Described(env, files, packs[0], ctx.id);
               d.Some? && d.value == DescriptorOf(ctx, algo, worldSize, d.value.rank)
    ensures Recovery.Rebuild(env, files, ctx.id, packs)
            == if packs != [] && |ranks| == worldSize
               then Some(Snapshot(ctx.id, ctx.step, ctx.createdAt, ranks, ctx.base, ctx.metadata, algo, true, false))
               else None
  {
    hide Recovery.Described, Recovery.RanksOf;
  }

  // ── Finalizing ───────────────────────────────────────────────────

  function Finalized(ss: seq<Snapshot>, id: Id, shards: map<nat, RankEntry>): seq<Snapshot> {
    if ss == [] then []
    else if ss[0].id == id then [ss[0].(ranks := shards, finalized := true)] + ss[1..]
    else [ss[0]] + Finalized(ss[1..], id, shards)
  }

  /** The manifest a finalize leaves before retention, or why it refuses. */
  function FinalizedManifest(
      env: Env, files: Files, m: Manifest, id: Id, packs: seq<Path>, worldSize: nat): Result<Manifest> {
    var shards :- Shards(env, files, id, packs);
    if id !in Ids(m.snapshots) then Err(NotFound)
    else if |shards| < worldSize then Err(Config)
    else Ok(m.(snapshots := Finalized(m.snapshots, id, shards)))
  }

  method MarkFinalized(ss: seq<Snapshot>, id: Id, shards: map<nat, RankEntry>) returns (r: seq<Snapshot>)
    ensures r == Finalized(ss, id, shards)
  {
    var i := 0;
    while i < |ss| && ss[i].id != id
      invariant 0 <= i <= |ss|
      invariant Finalized(ss, id, shards) == ss[..i] + Finalized(ss[i..], id, shards)
    {
      assert ss[i..][1..] == ss[i + 1..] && ss[..i + 1] == ss[..i] + [ss[i]];
      i := i + 1;
    }
    if i < |ss| {
      assert ss[i..][1..] == ss[i + 1..];
      assert ss[i := ss[i].(ranks := shards, finalized := true)]
             == ss[..i] + ([ss[i].(ranks := shards, finalized := true)] + ss[i + 1..]);
      return ss[i := ss[i].(ranks := shards, finalized := true)];
    }
    assert ss[..i] + [] == ss;
    return ss;
  }

  /**
   Re-reads the manifest, then refuses and writes nothing, or records the shards, applies retention
   and persists. The caller unlinks what was evicted.
   */
  method FinalizeSnapshot(
      env: Env, disk: Disk, cell: ManifestCell, trusted: bool, id: Id, packs: seq<Path>, worldSize: nat)
    returns (r: Result<seq<Snapshot>>)
    modifies disk, cell
    ensures
      match Reread(env, old(disk.files), old(cell.manifest), trusted)
      case Err(e) => r == Err(e) && cell.manifest == old(cell.manifest) && disk.files == old(disk.files)
      case Ok(read) =>
        match FinalizedManifest(env, old(disk.files), read, id, packs, worldSize)
        case Err(e) => r == Err(e) && cell.manifest == read && disk.files == old(disk.files)
        case Ok(m) =>
          var left := m.(snapshots := Retain.RetainedOf(m));
          && cell.manifest.snapshots == left.snapshots
          && (r.Ok? ==>
                && cell.manifest == left.(ranksWritten := WrittenAfter(left))
                && disk.files == Persisted(env, old(disk.files), disk.page, left)
                && Retain.Gone(m.snapshots, left.snapshots, r.value))
          && (r.Err? ==> forall p: Path :: !p.Ranks? ==> Retain.SameAt(disk.files, old(disk.files), p))
          && (disk.NeverFails() ==> r.Ok?)
  {
    hide Reread;
    var read := ReloadManifest(env, disk, cell, trusted);
    if read.Err? {
      return Err(read.error);
    }
    var shards := CollectRankShards(env, disk.files, id, packs);
    if shards.Err? {
      return Err(shards.error);
    }
    if id !in Ids(cell.manifest.snapshots) {
      return Err(NotFound);
    }
    if |shards.value| < worldSize {
      return Err(Config);
    }
    var snapshots := MarkFinalized(cell.manifest.snapshots, id, shards.value);
    cell.manifest := cell.manifest.(snapshots := snapshots);
    hide Retain.RetainedOf, Shards, Finalized, Persisted;
    r := Retain.ApplyRetention(env, disk, cell);
  }

  lemma {:induction false} FinalizedHas(ss: seq<Snapshot>, id: Id, shards: map<nat, RankEntry>)
    requires Distinct(ss) && id in Ids(ss)
    ensures
      var r := Finalized(ss, id, shards);
      && |r| == |ss|
      && forall i :: 0 <= i < |ss| ==>
           r[i] == if ss[i].id == id then ss[i].(ranks := shards, finalized := true) else ss[i]
  {
    if ss[0].id != id {
      assert forall s :: s in ss <==> s == ss[0] || s in ss[1..];
      FinalizedHas(ss[1..], id, shards);
    }
  }

  /**
   Whatever order the ranks' writes fell in, a finalize refuses while fewer than `world_size`
   have written and otherwise records exactly the entry each of them wrote.
   */
  lemma FinalizeIsConfluent(
      env: Env, files: Files, page: nat, m: Manifest, id: Id, plan: Plan, order: seq<nat>, packs: seq<Path>,
      worldSize: nat)
    requires Lawful(env) && PlanOk(env, id, plan) && (forall rank :: rank in order ==> rank in plan)
    requires forall p :: p in files && p.Pack? ==> p.id != id
    requires Listing(After(files, page, id, plan, order), id, packs) && Distinct(m.snapshots) && id in Ids(m.snapshots)
    ensures
      var written := EntriesOf(plan, order);
      var r := FinalizedManifest(env, After(files, page, id, plan, order), m, id, packs, worldSize);
      if |written| < worldSize then r == Err(Config)
      else
        && r.Ok? && |r.value.snapshots| == |m.snapshots|
        && forall i :: 0 <= i < |m.snapshots| ==>
             r.value.snapshots[i] ==
             if m.snapshots[i].id == id then m.snapshots[i].(ranks := written, finalized := true) else m.snapshots[i]
  {
    var written, after := EntriesOf(plan, order), After(files, page, id, plan, order);
    CollectsWhatWasWritten(env, files, page, id, plan, order, packs);
    FinalizedHas(m.snapshots, id, written);
    hide *;
    FinalizesShards(env, after, m, id, packs, worldSize, written);
  }

  lemma FinalizesShards(
      env: Env, files: Files, m: Manifest, id: Id, packs: seq<Path>, worldSize: nat, shards: map<nat, RankEntry>)
    requires Shards(env, files, id, packs) == Ok(shards) && id in Ids(m.snapshots)
    ensures FinalizedManifest(env, files, m, id, packs, worldSize)
            == if |shards| < worldSize then Err(Config) else Ok(m.(snapshots := Finalized(m.snapshots, id, shards)))
  {
    hide Shards, Finalized, Ids;
  }
}
