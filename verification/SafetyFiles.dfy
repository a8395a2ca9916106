/** The steps that read packs, write packs and delete files. */
module SafetyFiles {
  import opened Bytes
  import opened Compression
  import opened Manifest
  import opened Env
  import opened Tensor
  import opened Shard
  import opened Layout
  import opened Save
  import opened Core
  import opened ManifestIO
  import opened Retain
  import opened Protocol
  import opened Safety
  import PackFile = Pack
  import Load
  import Merge
  import MergeKinds
  import Merger

  // ── What a load finds ────────────────────────────────────────────

  lemma RecordIs(c: Setup, s: State, id: Id)
    requires Inv(c, s) && id in s.history
    ensures GoodRecord(c, s.history, id)
  {
    hide DiskOk, IndexOk, Present, ListsOk, SaverOk, MergerOk, LoadersOk, LockOk, ModeOk, SweepsOk, RetainedOk,
      GoodRecord;
  }

  /** The shard a record's pack holds. */
  function ShardOfRecord(c: Setup, r: Record): Shard
    requires c.config.rank in r.snapshot.ranks
  {
    Shard(r.snapshot.ranks[c.config.rank].tensors, r.pack, r.snapshot.compression)
  }

  lemma RecordHolds(c: Setup, h: History, id: Id)
    requires id in h && GoodRecord(c, h, id)
    ensures c.config.rank in h[id].snapshot.ranks
    ensures ShardHolds(c.env, ShardOfRecord(c, h[id]), BaseRaws(h, h[id].snapshot), h[id].contents)
    ensures SameKind(h[id].snapshot.compression, c.config.tensors.compression)
    ensures h[id].snapshot.base.Some? ==>
              h[id].snapshot.base.value in h && h[h[id].snapshot.base.value].snapshot.base.None?
    ensures h[id].snapshot.ranks[c.config.rank].packFile == Some(PackOfId(c, id))
    ensures h[id].snapshot.id == id && h[id].snapshot.finalized && !h[id].snapshot.pinned
            && h[id].snapshot.ranks.Keys == {c.config.rank}
  {
    hide ShardHolds;
  }

  /** What a load's lookups give: the base's own bytes, or nothing. */
  lemma FinderNeverWrong(c: Setup, s: State, snap: Snapshot, base: Option<Snapshot>)
    requires GoodSetup(c) && Inv(c, s) && Known(s.history, snap)
    requires base.Some? ==> Known(s.history, base.value) && snap.base == Some(base.value.id)
    requires c.config.rank in snap.ranks
    ensures Load.NeverWrong(c.env, s.files, ShardOfRecord(c, s.history[snap.id]), BaseRaws(s.history, snap),
                            LoaderFinder(c, s.files, snap, base), snap.compression)
  {
    hide Inv, ShardHolds, BaseRaw, EntryMap, Holds;
    RecordIs(c, s, snap.id);
    RecordHolds(c, s.history, snap.id);
    if base.Some? && c.config.rank in base.value.ranks && Path.Pack(base.value.id, c.config.rank) in s.files {
      var b := base.value;
      RecordIs(c, s, b.id);
      RecordHolds(c, s.history, b.id);
      FileIs(c, s, Path.Pack(b.id, c.config.rank));
      var ctx := BaseCtx(EntryMap(b.ranks[c.config.rank].tensors), b.compression,
                         Whole(s.files[Path.Pack(b.id, c.config.rank)]));
      forall n | n in BaseRaws(s.history, snap)
        ensures BaseRaw(c.env, s.files, ctx.Finder(), n) == Ok(BaseRaws(s.history, snap)[n])
      {
        FullBaseGivesRaw(c.env, s.files, ShardOfRecord(c, s.history[b.id]), s.history[b.id].contents, ctx, n);
      }
    } else if snap.base.Some? {
      forall n
        ensures BaseRaw(c.env, s.files, LoaderFinder(c, s.files, snap, base).value, n).Err?
      {
        NothingFound(c.env, s.files, LoaderFinder(c, s.files, snap, base).value, n);
      }
    }
  }

  lemma NothingFound(env: Env, files: Files, find: Finder, n: string)
    requires find(n) == Err(NotFound)
    ensures BaseRaw(env, files, find, n).Err?
  {
    hide LoadRaw;
  }

  lemma LoadFinishesKeeps(c: Setup, s: State, t: State, n: nat)
    requires GoodSetup(c) && Inv(c, s) && LoadFinishes(c, s, t, n)
    ensures Inv(c, t)
  {
    hide Inv, PinnedIds, LoadersOk, Ids, Load.LoadAll, LoaderFinder, ShardHolds, Load.NeverWrong, Holds,
      Load.Readable, Load.ReadAll;
    LoaderIs(c, s, n);
    var l := s.loaders[n];
    RecordIs(c, s, l.snap.id);
    RecordHolds(c, s.history, l.snap.id);
    FinderNeverWrong(c, s, l.snap, l.base);
    hide GoodRecord;
    var sh := ShardOfRecord(c, s.history[l.snap.id]);
    var find := LoaderFinder(c, s.files, l.snap, l.base);
    if Load.LoadAll(c.env, s.files, sh.entries, find, l.snap.compression, Whole(l.pack)).Ok? {
      Load.LoadAllNeverWrong(c.env, s.files, sh, BaseRaws(s.history, l.snap), s.history[l.snap.id].contents, find,
                             l.snap.compression, Whole(l.pack));
    }
    PinReplaces(s.pins, LoaderActor(n), {});
    LoaderMoves(c, s, t, n);
    LoaderStepKeeps(c, s, t);
  }

  // ── A new record ─────────────────────────────────────────────────

  /** Records say nothing about ids that came after them. */
  lemma RecordsGrow(c: Setup, h: History, id: Id, r: Record)
    requires Records(c, h) && id !in h && GoodRecord(c, h[id := r], id)
    ensures Records(c, h[id := r])
  {
    var more := h[id := r];
    hide ShardHolds, DescribesItself;
    forall k | k in more
      ensures GoodRecord(c, more, k)
    {
      if k != id {
        assert GoodRecord(c, h, k);
        assert BaseRaws(more, more[k].snapshot) == BaseRaws(h, h[k].snapshot);
      }
    }
  }

  lemma DiskGrowsHistory(c: Setup, files: Files, h: History, id: Id, r: Record)
    requires DiskOk(c, files, h) && id !in h
    ensures DiskOk(c, files, h[id := r])
  {
    hide Holds, RanksText;
    forall p | p in files
      ensures FileOk(c, files, h[id := r], p)
    {
      assert FileOk(c, files, h, p);
    }
  }

  lemma LoadersGrowHistory(
      c: Setup, h: History, pins: map<Actor, set<Id>>, loaders: map<nat, Loader>, id: Id, r: Record)
    requires LoadersOk(c, h, pins, loaders) && id !in h
    ensures LoadersOk(c, h[id := r], pins, loaders)
  {
    hide Holds, Load.Readable, Load.ReadAll;
    forall n | n in loaders
      ensures LoaderOk(c, h[id := r], pins, n, loaders[n])
    {
      assert LoaderOk(c, h, pins, n, loaders[n]);
    }
  }

  lemma ListedGrows(h: History, ss: seq<Snapshot>, id: Id, r: Record)
    requires Listed(h, ss) && id !in h
    ensures Listed(h[id := r], ss)
    ensures id !in Ids(ss)
  {
    hide Sound;
  }

  /** A record is made, by the saver or by the merger; nothing on storage changes yet. */
  ghost predicate RecordStep(c: Setup, s: State, t: State, id: Id, r: Record) {
    && s.mode.Running? && id !in s.history && r.snapshot.id == id
    && t.history == s.history[id := r]
    && ( (t == s.(saver := t.saver, history := t.history, retained := t.retained)
          && s.saver.Diffing? && t.saver == Packing(r, s.saver.base))
      || (t == s.(merger := t.merger, history := t.history)
          && s.merger.MReading? && t.merger == MPacking(r, s.merger.base, s.merger.deltas)))
  }

  lemma RecordStepKeeps(c: Setup, s: State, t: State, id: Id, r: Record)
    requires Inv(c, s) && RecordStep(c, s, t, id, r)
    requires GoodRecord(c, t.history, id) && SaverOk(t) && MergerOk(t) && RetainedOk(t.history, t.retained)
    ensures Inv(c, t)
  {
    hide *;
    InvSays(c, s);
    RecordStepSame(c, s, t, id, r);
    RecordsGrow(c, s.history, id, r);
    DiskGrowsHistory(c, s.files, s.history, id, r);
    LoadersGrowHistory(c, s.history, s.pins, s.loaders, id, r);
    InFlightKnown(s);
    RecordStepRest(c, s, t, id, r);
    RecordStepSweeps(c, s, t, id, r);
    InvIs(c, t);
  }

  lemma InFlightKnown(s: State)
    requires SaverOk(s) && MergerOk(s)
    ensures RecordsAreKnown(s)
  {
    hide BaseOk, InputsOk, ClaimClosed;
  }

  lemma RecordStepSame(c: Setup, s: State, t: State, id: Id, r: Record)
    requires RecordStep(c, s, t, id, r)
    ensures id !in s.history && t.history == s.history[id := r] && t.files == s.files && t.indexed == s.indexed
    ensures t.pins == s.pins && t.loaders == s.loaders
  {
  }

  lemma RecordStepRest(c: Setup, s: State, t: State, id: Id, r: Record)
    requires RecordStep(c, s, t, id, r) && ListsOk(s) && LockOk(s) && ModeOk(c, s)
    requires Present(c, s.files, NeedPacks(s), NeedRanks(s))
    ensures ListsOk(t) && LockOk(t) && ModeOk(c, t)
    ensures Present(c, t.files, NeedPacks(t), NeedRanks(t))
  {
    ListedGrows(s.history, s.mem.snapshots, id, r);
    ListedGrows(s.history, UndoList(s), id, r);
    if s.indexed.Some? {
      ListedGrows(s.history, s.indexed.value.snapshots, id, r);
    }
    RecordStepNeeds(c, s, t, id, r);
    hide PinnedIds, Listed, Ids, NeedPacks, NeedRanks, EmptyManifest, Present;
  }

  lemma RecordStepNeeds(c: Setup, s: State, t: State, id: Id, r: Record)
    requires RecordStep(c, s, t, id, r)
    ensures NeedPacks(t) == NeedPacks(s) && NeedRanks(t) == NeedRanks(s) && t.files == s.files
  {
    hide PinnedIds, Ids;
  }

  lemma RecordStepSweeps(c: Setup, s: State, t: State, id: Id, r: Record)
    requires RecordStep(c, s, t, id, r) && SweepsOk(s) && ListsOk(s) && RecordsAreKnown(s)
    ensures SweepsOk(t)
  {
    ListedGrows(s.history, s.mem.snapshots, id, r);
    ListedGrows(s.history, UndoList(s), id, r);
    RecordStepMoves(c, s, t, id, r);
    hide PinnedIds, Listed, Ids, Apart, SweepIds, Dying, Parting, SaverRecord, MergerRecord, RecordStep, ListsOk;
    RecordedIsApart(SweepIds(s), Dying(s), Parting(s), Ids(s.mem.snapshots), IndexedIds(s), UndoIds(s),
                    s.mem.ranksWritten,
                    SaverRecord(s), MergerRecord(s), PinnedIds(s.pins), s.history.Keys, id, SaverRecord(t),
                      MergerRecord(t));
  }

  /** One more record is in flight, and everything else is as it was. */
  lemma RecordStepMoves(c: Setup, s: State, t: State, id: Id, r: Record)
    requires RecordStep(c, s, t, id, r)
    ensures SweepIds(t) == SweepIds(s) && Dying(t) == Dying(s) && Parting(t) == Parting(s) && t.mem == s.mem
    ensures IndexedIds(t) == IndexedIds(s) && UndoIds(t) == UndoIds(s) && t.pins == s.pins && t.claim == s.claim
    ensures (SaverRecord(t) == SaverRecord(s) + {id} && MergerRecord(t) == MergerRecord(s))
            || (SaverRecord(t) == SaverRecord(s) && MergerRecord(t) == MergerRecord(s) + {id})
    ensures t.history.Keys == s.history.Keys + {id} && id !in s.history
  {
    hide PinnedIds, Ids;
  }

  lemma RecordedIsApart(
      sweep: set<Id>, dying: set<Id>, parting: set<Id>, mem: set<Id>, indexed: set<Id>, undo: set<Id>, written: set<Id>,
      saving: set<Id>, merging: set<Id>, pinned: set<Id>, known: set<Id>, id: Id, nowSaving: set<Id>,
      nowMerging: set<Id>)
    requires Apart(sweep, dying, parting, mem, indexed, undo, written, saving, merging, pinned, known)
    requires id !in known && id !in mem && id !in undo && saving <= known && merging <= known
    requires (nowSaving == saving + {id} && nowMerging == merging)
             || (nowSaving == saving && nowMerging == merging + {id})
    ensures Apart(sweep, dying, parting, mem, indexed, undo, written, nowSaving, nowMerging, pinned, known + {id})
  {
  }

  predicate RecordsAreKnown(s: State) {
    SaverRecord(s) <= s.history.Keys && MergerRecord(s) <= s.history.Keys
  }

  // ── Opened at another level ──────────────────────────────────────

  /** Nothing the invariant says depends on the level the store was opened at. */
  lemma OpenedAgrees(c: Setup, s: State, algo: Algo)
    requires SameKind(algo, c.config.tensors.compression)
    ensures Inv(Opened(c, algo), s) <==> Inv(c, s)
    ensures GoodSetup(Opened(c, algo)) <==> GoodSetup(c)
  {
    var o := Opened(c, algo);
    OpenedRecords(c, s.history, algo);
    OpenedFiles(c, s.files, s.history, algo);
    assert LoadersOk(o, s.history, s.pins, s.loaders) <==> LoadersOk(c, s.history, s.pins, s.loaders) by {
      OpenedLoaders(c, s, algo);
    }
    hide Records, DiskOk, LoadersOk, ListsOk, SaverOk, MergerOk, LockOk, SweepsOk, RetainedOk, NeedPacks, NeedRanks,
      Lawful, Holds;
  }

  lemma OpenedRecords(c: Setup, h: History, algo: Algo)
    requires SameKind(algo, c.config.tensors.compression)
    ensures Records(Opened(c, algo), h) <==> Records(c, h)
  {
    hide ShardHolds, DescribesItself;
    forall id | id in h
      ensures GoodRecord(Opened(c, algo), h, id) <==> GoodRecord(c, h, id)
    {
      OpenedDescribes(c, h[id], algo);
    }
  }

  lemma OpenedDescribes(c: Setup, r: Record, algo: Algo)
    ensures DescribesItself(Opened(c, algo), r) <==> DescribesItself(c, r)
  {
    hide PackFile.DecodeHeader;
    if c.config.rank in r.snapshot.ranks {
      assert DescriptorFor(Opened(c, algo), r.snapshot) == DescriptorFor(c, r.snapshot);
    }
    hide DescriptorFor;
  }

  lemma OpenedFiles(c: Setup, files: Files, h: History, algo: Algo)
    ensures DiskOk(Opened(c, algo), files, h) <==> DiskOk(c, files, h)
  {
    hide Holds, RanksText;
    forall p | p in files
      ensures FileOk(Opened(c, algo), files, h, p) <==> FileOk(c, files, h, p)
    {
    }
  }

  lemma OpenedLoaders(c: Setup, s: State, algo: Algo)
    ensures LoadersOk(Opened(c, algo), s.history, s.pins, s.loaders) <==> LoadersOk(c, s.history, s.pins, s.loaders)
  {
    hide Holds, Load.Readable, Load.ReadAll, Read;
    forall n | n in s.loaders
      ensures LoaderOk(Opened(c, algo), s.history, s.pins, n, s.loaders[n])
              <==> LoaderOk(c, s.history, s.pins, n, s.loaders[n])
    {
    }
  }

  lemma InvKind(c: Setup, s: State)
    requires Inv(c, s)
    ensures SameKind(s.algo, c.config.tensors.compression)
  {
    hide Records, DiskOk, IndexOk, Present, ListsOk, SaverOk, MergerOk, LoadersOk, LockOk, SweepsOk, RetainedOk;
  }

  // ── What the saver and the merger work out ───────────────────────

  /** A pack laid out here can be rebuilt from: its header leads to its own description. */
  lemma LaidDescribesItself(c: Setup, ps: seq<Processed>, ctx: Context, entry: RankEntry, r: Record)
    requires entry.rank == c.config.rank && r.snapshot.ranks == map[c.config.rank := entry]
    requires DescriptorFor(c, r.snapshot) == DescriptorOf(ctx, c.config.tensors.compression, 1, entry)
    requires r.pack == PackOf(c.env, ps, DescriptorOf(ctx, c.config.tensors.compression, 1, entry))
             && |r.pack| < PackFile.U64_LIMIT
    ensures DescribesItself(c, r)
  {
    var described := c.env.descriptorJson(DescriptorFor(c, r.snapshot));
    var offset := OffsetOf(ps, |ps|);
    var header := PackFile.Header(offset, |described|);
    var blobs := header + BlobsTo(ps, |ps|);
    PackFile.HeaderRoundTrip(offset, |described|, []);
    assert header + [] == header && Slice(blobs, 0, PackFile.HEADER_LEN) == header;
    hide PackFile.Header, PackFile.DecodeHeader, BlobsTo;
  }

  lemma SavedIsGood(
      c: Setup, h: History, files: Files, cache: Option<Cache>, job: SaveJob, ps: seq<Processed>, entry: RankEntry,
      pack: Bytes)
    requires GoodSetup(c) && DistinctTensors(job.tensors) && job.ctx.id !in h
    requires ProcessedAll(c.env, files, c.config.tensors, cache, job.tensors) == Ok(ps)
    requires Written(entry, pack) == Laid(c.env, ps, job.ctx, c.config.tensors.compression, c.config.rank, 1)
    requires |pack| < PackFile.U64_LIMIT
    requires job.ctx.base.Some? ==> job.ctx.base.value in h && h[job.ctx.base.value].snapshot.base.None?
    requires cache.Some? ==> Faithful(c.env, files, cache.value, BaseRaws(h, SavedSnapshot(c, job.ctx, entry)))
    ensures
      var r := Record(SavedSnapshot(c, job.ctx, entry), pack, ContentsOf(c.env, c.config.tensors.policy, job.tensors));
      GoodRecord(c, h[job.ctx.id := r], job.ctx.id)
  {
    hide *;
    var r := Record(SavedSnapshot(c, job.ctx, entry), pack, ContentsOf(c.env, c.config.tensors.policy, job.tensors));
    LaidIs(c, ps, job.ctx, entry, pack);
    SavedRankIs(c, files, cache, job, ps, entry, pack);
    SavedSnapshotIs(c, job.ctx, entry);
    RecordShard(c, r);
    LaidDescribesItself(c, ps, job.ctx, entry, r);
    SavedHolds(c.env, files, c.config, cache, job.tensors, job.ctx, BaseRaws(h, r.snapshot));
    MakesGood(c, h, r);
  }

  lemma RecordShard(c: Setup, r: Record)
    requires c.config.rank in r.snapshot.ranks
    ensures ShardOfRecord(c, r) == Shard(r.snapshot.ranks[c.config.rank].tensors, r.pack, r.snapshot.compression)
  {
  }

  lemma LaidIs(c: Setup, ps: seq<Processed>, ctx: Context, entry: RankEntry, pack: Bytes)
    requires Written(entry, pack) == Laid(c.env, ps, ctx, c.config.tensors.compression, c.config.rank, 1)
    ensures entry.rank == c.config.rank && entry.packFile == Some(PackOfId(c, ctx.id))
    ensures pack == PackOf(c.env, ps, DescriptorOf(ctx, c.config.tensors.compression, 1, entry))
  {
    hide PackOf, Placed;
  }

  lemma SavedRankIs(
      c: Setup, files: Files, cache: Option<Cache>, job: SaveJob, ps: seq<Processed>, entry: RankEntry, pack: Bytes)
    requires GoodSetup(c)
    requires ProcessedAll(c.env, files, c.config.tensors, cache, job.tensors) == Ok(ps)
    requires Written(entry, pack) == Laid(c.env, ps, job.ctx, c.config.tensors.compression, c.config.rank, 1)
    ensures SavedRank(c.env, files, c.config, cache, job.tensors, job.ctx) == Ok(Written(entry, pack))
  {
    hide ProcessedAll, Laid, Lawful;
  }

  lemma SavedSnapshotIs(c: Setup, ctx: Context, entry: RankEntry)
    requires GoodSetup(c)
    ensures
      var s := SavedSnapshot(c, ctx, entry);
      && s.id == ctx.id && s.base == ctx.base && s.finalized && !s.pinned
      && s.compression == c.config.tensors.compression && s.ranks == map[c.config.rank := entry]
      && DescriptorFor(c, s) == DescriptorOf(ctx, c.config.tensors.compression, 1, entry)
      && Lawful(c.env) && c.config.worldSize == 1
  {
    hide Lawful;
  }

  lemma MakesGood(c: Setup, h: History, r: Record)
    requires r.snapshot.id !in h && r.snapshot.finalized && !r.snapshot.pinned
    requires r.snapshot.compression == c.config.tensors.compression && r.snapshot.ranks.Keys == {c.config.rank}
    requires r.snapshot.ranks[c.config.rank].packFile == Some(PackOfId(c, r.snapshot.id))
    requires r.snapshot.base.Some? ==> r.snapshot.base.value in h && h[r.snapshot.base.value].snapshot.base.None?
    requires DescribesItself(c, r)
    requires ShardHolds(c.env, ShardOfRecord(c, r), BaseRaws(h, r.snapshot), r.contents)
    ensures GoodRecord(c, h[r.snapshot.id := r], r.snapshot.id)
  {
    var more := h[r.snapshot.id := r];
    assert BaseRaws(more, r.snapshot) == BaseRaws(h, r.snapshot);
    hide ShardHolds, DescribesItself;
  }

  lemma BaseIsReadable(c: Setup, s: State, b: Snapshot)
    requires GoodSetup(c) && Inv(c, s) && b in s.mem.snapshots && b.base.None?
    ensures BaseHolds(c.env, s.files, b, c.config.rank, s.history[b.id].pack, s.history[b.id].contents)
    ensures BaseRaws(s.history, b) == map[] && b.id in s.history
  {
    hide Inv, ShardHolds, Holds, GoodRecord;
    MemIsKnown(c, s, b);
    assert b.id in NeedPacks(s);
    hide NeedPacks, NeedRanks;
    RecordIs(c, s, b.id);
    RecordHolds(c, s.history, b.id);
    PackIsThere(c, s, b.id);
    FileIs(c, s, PackOfId(c, b.id));
  }

  lemma PackIsThere(c: Setup, s: State, id: Id)
    requires Inv(c, s) && id in NeedPacks(s)
    ensures PackOfId(c, id) in s.files
  {
    hide Records, DiskOk, IndexOk, ListsOk, SaverOk, MergerOk, LoadersOk, LockOk, ModeOk, SweepsOk, RetainedOk,
      NeedPacks, NeedRanks;
  }

  /** The base a save diffs against is the one it pinned, read from memory or from disk. */
  lemma SaveCacheIsFaithful(c: Setup, s: State, ctx: Context, entry: RankEntry)
    requires GoodSetup(c) && Inv(c, s) && s.saver.Diffing? && ctx.base == s.saver.job.ctx.base
    ensures
      var cache := CacheFor(s.saver.base, c.config.rank, s.retained);
      && (ctx.base.Some? ==> ctx.base.value in s.history && s.history[ctx.base.value].snapshot.base.None?)
      && (cache.Some? ==> Faithful(c.env, s.files, cache.value, BaseRaws(s.history, SavedSnapshot(c, ctx, entry))))
      && DistinctTensors(s.saver.job.tensors)
  {
    hide Inv, Faithful, BaseHolds, RetainsContents, CacheFor, Records, DiskOk, IndexOk, Present, ListsOk, MergerOk,
      LoadersOk,
      LockOk, ModeOk, SweepsOk;
    InvSays(c, s);
    if s.saver.base.Some? {
      var b := s.saver.base.value;
      MemIsKnown(c, s, b);
      BaseIsReadable(c, s, b);
      CacheIsFaithful(c.env, s.files, b, c.config.rank, s.retained, s.history[b.id].pack, s.history[b.id].contents);
    } else {
      NoCache(c.config.rank, s.retained);
    }
  }

  lemma NoCache(rank: nat, retained: Option<RetainedBase>)
    ensures CacheFor(None, rank, retained).None?
  {
  }

  lemma RetainedStaysOk(
      c: Setup, h: History, files: Files, cache: Option<Cache>, retained: Option<RetainedBase>, job: SaveJob,
      ps: seq<Processed>,
      r: Record, base: map<string, Bytes>)
    requires Lawful(c.env) && DistinctTensors(job.tensors) && RetainedOk(h, retained) && job.ctx.id !in h
    requires cache.Some? ==> Faithful(c.env, files, cache.value, base)
    requires ProcessedAll(c.env, files, c.config.tensors, cache, job.tensors) == Ok(ps)
    requires r.contents == ContentsOf(c.env, c.config.tensors.policy, job.tensors)
    ensures RetainedOk(h[job.ctx.id := r], RetainedAfter(c.config, retained, job.ctx, job.tensors, ps))
  {
    hide ProcessedAll, ContentsOf, Faithful, RetainsContents, RetainedTo, Lawful, Retainable;
    RetainedIsWritten(c.env, files, c.config.tensors, cache, job.tensors, base);
  }

  lemma SaveReadsIs(c: Setup, s: State, t: State) returns (ps: seq<Processed>, entry: RankEntry, r: Record)
    requires SaveReads(c, s, t) && c.config.worldSize == 1
    ensures s.saver.Diffing? && s.mode == Running && s.saver.job.ctx.id !in s.history
    ensures
      var job, cache := s.saver.job, CacheFor(s.saver.base, c.config.rank, s.retained);
      && ProcessedAll(c.env, s.files, c.config.tensors, cache, job.tensors) == Ok(ps)
      && Written(entry, r.pack) == Laid(c.env, ps, job.ctx, c.config.tensors.compression, c.config.rank, 1)
      && |r.pack| < PackFile.U64_LIMIT
      && r == Record(SavedSnapshot(c, job.ctx, entry), r.pack, ContentsOf(c.env, c.config.tensors.policy, job.tensors))
      && t == s.(saver := Packing(r, s.saver.base), history := s.history[job.ctx.id := r],
                 retained := RetainedAfter(c.config, s.retained, job.ctx, job.tensors, ps))
  {
    hide ProcessedAll, Laid, CacheFor, ContentsOf, RetainedAfter, SavedSnapshot;
    var job := s.saver.job;
    ps := ProcessedAll(c.env, s.files, c.config.tensors, CacheFor(s.saver.base, c.config.rank, s.retained),
                       job.tensors).value;
    var w := Laid(c.env, ps, job.ctx, c.config.tensors.compression, c.config.rank, c.config.worldSize);
    entry := w.entry;
    r := Record(SavedSnapshot(c, job.ctx, entry), w.pack, ContentsOf(c.env, c.config.tensors.policy, job.tensors));
  }

  lemma SaveReadsKeeps(c: Setup, s: State, t: State)
    requires GoodSetup(c) && Inv(c, s) && SaveReads(c, s, t)
    ensures Inv(c, t)
  {
    assert Lawful(c.env) && c.config.worldSize == 1;
    hide *;
    var ps, entry, r := SaveReadsIs(c, s, t);
    var job, cache := s.saver.job, CacheFor(s.saver.base, c.config.rank, s.retained);
    SaveCacheIsFaithful(c, s, job.ctx, entry);
    SavedIsGood(c, s.history, s.files, cache, job, ps, entry, r.pack);
    InvSays(c, s);
    RetainedStaysOk(c, s.history, s.files, cache, s.retained, job, ps, r,
                    BaseRaws(s.history, SavedSnapshot(c, job.ctx, entry)));
    SavedSnapshotIs(c, job.ctx, entry);
    SaverHasRecord(c, s, t, r);
    RecordStepKeeps(c, s, t, job.ctx.id, r);
  }

  lemma SaverHasRecord(c: Setup, s: State, t: State, r: Record)
    requires SaverOk(s) && MergerOk(s) && s.saver.Diffing? && s.mode == Running
    requires r.snapshot.id == s.saver.job.ctx.id && r.snapshot.base == s.saver.job.ctx.base
             && r.snapshot.id !in s.history
    requires t == s.(saver := Packing(r, s.saver.base), history := s.history[r.snapshot.id := r],
                     retained := t.retained)
    ensures SaverOk(t) && MergerOk(t) && RecordStep(c, s, t, r.snapshot.id, r)
  {
    hide ClaimClosed, Merger.Spent;
  }

  // ── The merge ────────────────────────────────────────────────────

  /** The files with the packs of the inputs put back, should retention have unlinked them meanwhile. */
  function WithInputs(c: Setup, files: Files, h: History, a: Id, b: Id): Files
    requires a in h && b in h
  {
    var one := if PackOfId(c, a) in files then files else files[PackOfId(c, a) := h[a].pack];
    if PackOfId(c, b) in one then one else one[PackOfId(c, b) := h[b].pack]
  }

  lemma WithInputsHolds(c: Setup, files: Files, h: History, a: Id, b: Id)
    requires DiskOk(c, files, h) && a in h && b in h
    ensures
      var more := WithInputs(c, files, h, a, b);
      && Merge.Extends(files, more)
      && PackOfId(c, a) in more && Holds(more[PackOfId(c, a)], h[a].pack)
      && PackOfId(c, b) in more && Holds(more[PackOfId(c, b)], h[b].pack)
  {
    HoldsItself(h[a].pack);
    HoldsItself(h[b].pack);
    hide Holds, RanksText;
    assert PackOfId(c, a) in files ==> FileOk(c, files, h, PackOfId(c, a));
    assert PackOfId(c, b) in files ==> FileOk(c, files, h, PackOfId(c, b));
  }

  lemma InputKept(c: Setup, h: History, files: Files, id: Id)
    requires id in h && GoodRecord(c, h, id) && PackOfId(c, id) in files && Holds(files[PackOfId(c, id)], h[id].pack)
    ensures Merge.Kept(c.env, files, h[id].snapshot, c.config.rank, h[id].pack, BaseRaws(h, h[id].snapshot),
                       h[id].contents,
                       c.config.tensors.compression)
  {
    Merge.SameKindDecodesAlike(c.env, ShardOfRecord(c, h[id]), c.config.tensors.compression);
    hide ShardHolds, Holds, Merge.DecodesAlike;
  }

  /** A merge that succeeds, whatever was unlinked under it, made a full that holds the newest delta's contents. */
  lemma MergedIsGood(
      c: Setup, h: History, files: Files, base: Snapshot, deltas: seq<Snapshot>, claim: set<Id>, ctx: Context,
      w: Written)
    requires GoodSetup(c) && Records(c, h) && DiskOk(c, files, h) && InputsOk(h, claim, base, deltas)
    requires ctx.id !in h && ctx.base.None? && |w.pack| < PackFile.U64_LIMIT
    requires Merge.HasRank(base, LastOf(deltas), c.config.rank)
    requires Merge.MergedRank(c.env, files, base, LastOf(deltas), c.config.rank, ctx, c.config.tensors.compression, 1)
             == Ok(w)
    ensures LastOf(deltas).id in h
    ensures
      var r := Record(Merger.MergedSnapshot(ctx, c.config.tensors.compression, map[c.config.rank := w.entry]), w.pack,
                      h[LastOf(deltas).id].contents);
      GoodRecord(c, h[ctx.id := r], ctx.id)
  {
    hide *;
    InputsAre(c, h, base, deltas, claim);
    var last, algo, rank := LastOf(deltas), c.config.tensors.compression, c.config.rank;
    var r := Record(Merger.MergedSnapshot(ctx, algo, map[rank := w.entry]), w.pack, h[last.id].contents);
    var more := WithInputs(c, files, h, base.id, last.id);
    WithInputsHolds(c, files, h, base.id, last.id);
    KnownIs(h, base);
    KnownIs(h, last);
    InputKept(c, h, more, base.id);
    InputKept(c, h, more, last.id);
    Merge.MergedRankExtends(c.env, files, more, base, last, rank, ctx, algo, 1);
    MergeKinds.MergedRankHolds(c.env, more, base, h[base.id].pack, h[base.id].contents, last, h[last.id].pack,
                          h[last.id].contents,
                          rank, ctx, algo, 1);
    MergedSnapshotIs(c, ctx, w.entry);
    var ps := MergedLaid(c, files, base, last, ctx, w);
    RecordShard(c, r);
    LaidDescribesItself(c, ps, ctx, w.entry, r);
    FullBaseRaws(h, r.snapshot);
    MakesGood(c, h, r);
  }

  lemma InputsAre(c: Setup, h: History, base: Snapshot, deltas: seq<Snapshot>, claim: set<Id>)
    requires GoodSetup(c) && Records(c, h) && InputsOk(h, claim, base, deltas)
    ensures deltas != []
    ensures
      var last := LastOf(deltas);
      && Known(h, last) && Known(h, base) && base.id in h && last.id in h
      && GoodRecord(c, h, base.id) && GoodRecord(c, h, last.id)
      && BaseRaws(h, base) == map[] && BaseRaws(h, last) == Raws(h[base.id].contents) && Lawful(c.env)
  {
    hide GoodRecord, Raws, Lawful, Merger.Spent;
    var last := LastOf(deltas);
    assert last in deltas;
  }

  lemma KnownIs(h: History, s: Snapshot)
    requires Known(h, s)
    ensures s.id in h && h[s.id].snapshot == s
  {
  }

  lemma FullBaseRaws(h: History, s: Snapshot)
    requires s.base.None?
    ensures BaseRaws(h, s) == map[]
  {
  }

  lemma MergedSnapshotIs(c: Setup, ctx: Context, entry: RankEntry)
    requires ctx.base.None?
    ensures
      var s := Merger.MergedSnapshot(ctx, c.config.tensors.compression, map[c.config.rank := entry]);
      && s.id == ctx.id && s.base.None? && s.finalized && !s.pinned
      && s.compression == c.config.tensors.compression && s.ranks == map[c.config.rank := entry]
      && DescriptorFor(c, s) == DescriptorOf(ctx, c.config.tensors.compression, 1, entry)
  {
  }

  lemma MergedLaid(
      c: Setup, files: Files, base: Snapshot, last: Snapshot, ctx: Context, w: Written) returns (ps: seq<Processed>)
    requires Merge.HasRank(base, last, c.config.rank)
    requires Merge.MergedRank(c.env, files, base, last, c.config.rank, ctx, c.config.tensors.compression, 1) == Ok(w)
    ensures w.entry.rank == c.config.rank && w.entry.packFile == Some(PackOfId(c, ctx.id))
    ensures w.pack == PackOf(c.env, ps, DescriptorOf(ctx, c.config.tensors.compression, 1, w.entry))
  {
    hide Merge.MergedEntries, PackOf, Placed;
    var source := Merge.SourceOf(base, last, c.config.rank);
    ps := Merge.MergedEntries(c.env, files, base, source, c.config.rank, source.ranks[c.config.rank].tensors,
                              c.config.tensors.compression).value;
    assert Ok(w) == Ok(Merge.MergedWritten(c.env, ps, ctx, c.config.tensors.compression, c.config.rank, 1));
  }

  lemma MergeReadsIs(c: Setup, s: State, t: State, id: Id, createdAt: int) returns (ctx: Context, w: Written, r: Record)
    requires MergeReads(c, s, t, id, createdAt)
    ensures s.merger.MReading? && s.mode == Running && id !in s.history && s.merger.deltas != []
    ensures ctx.id == id && ctx.base.None? && |w.pack| < PackFile.U64_LIMIT
    ensures
      var base, last := s.merger.base, LastOf(s.merger.deltas);
      && Merge.HasRank(base, last, c.config.rank) && last.id in s.history
      && Merge.MergedRank(c.env, s.files, base, last, c.config.rank, ctx, c.config.tensors.compression, 1) == Ok(w)
      && r == Record(Merger.MergedSnapshot(ctx, c.config.tensors.compression, map[c.config.rank := w.entry]), w.pack,
                     s.history[last.id].contents)
      && t == s.(merger := MPacking(r, base, s.merger.deltas), history := s.history[id := r])
  {
    hide Merge.MergedRank, Merge.HasRank;
    ctx := Merger.MergedContext(id, createdAt, s.merger.deltas);
    w := Merge.MergedRank(c.env, s.files, s.merger.base, LastOf(s.merger.deltas), c.config.rank, ctx,
                          c.config.tensors.compression, 1).value;
    r := Record(Merger.MergedSnapshot(ctx, c.config.tensors.compression, map[c.config.rank := w.entry]), w.pack,
                s.history[LastOf(s.merger.deltas).id].contents);
  }

  lemma MergeReadsKeeps(c: Setup, s: State, t: State, id: Id, createdAt: int)
    requires GoodSetup(c) && Inv(c, s) && MergeReads(c, s, t, id, createdAt)
    ensures Inv(c, t)
  {
    hide *;
    var ctx, w, r := MergeReadsIs(c, s, t, id, createdAt);
    InvSays(c, s);
    MergerInputs(s);
    MergedIsGood(c, s.history, s.files, s.merger.base, s.merger.deltas, s.claim, ctx, w);
    MergedSnapshotIs(c, ctx, w.entry);
    MergerHasRecord(c, s, t, r);
    RecordStepKeeps(c, s, t, id, r);
  }

  lemma MergerInputs(s: State)
    requires MergerOk(s) && s.merger.MReading?
    ensures InputsOk(s.history, s.claim, s.merger.base, s.merger.deltas)
  {
    hide InputsOk;
  }

  lemma MergerHasRecord(c: Setup, s: State, t: State, r: Record)
    requires SaverOk(s) && MergerOk(s) && s.merger.MReading? && s.mode == Running && RetainedOk(s.history, s.retained)
    requires r.snapshot.base.None? && r.snapshot.id !in s.history
    requires t == s.(merger := MPacking(r, s.merger.base, s.merger.deltas), history := s.history[r.snapshot.id := r])
    ensures SaverOk(t) && MergerOk(t) && RecordStep(c, s, t, r.snapshot.id, r) && RetainedOk(t.history, t.retained)
  {
    hide ClaimClosed, RetainsContents, Merger.Spent;
  }
}
