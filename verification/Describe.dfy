/** What a snapshot says of itself without a byte of it being read, and that a load bears it out. */
module Describe {
  import opened Bytes
  import opened Manifest
  import opened Env
  import opened Tensor
  import opened Shard
  import opened Layout
  import opened Save
  import opened Core
  import opened Protocol
  import opened Safety
  import opened SafetyFiles
  import opened Steps
  import opened Theorems
  import Glob
  import Load
  import Merge
  import Merger

  datatype TensorDescription = TensorDescription(
    name: string,
    shape: seq<nat>,
    dtype: string,
    storedDtype: string,
    storage: Storage,
    aliasOf: Option<string>,
    rawSize: nat,
    compressedSize: nat,
    hashRaw: string
  )

  datatype SnapshotDescription = SnapshotDescription(
    id: Id,
    step: nat,
    createdAt: int,
    isDelta: bool,
    base: Option<Id>,
    metadata: map<string, string>,
    rank: nat,
    ranks: nat,
    tensors: seq<TensorDescription>
  )

  /** The dtype a load gives the tensor back in. */
  function LoadedDtype(e: TensorEntry): string {
    match e.originalDtype
    case Some(dtype) => dtype
    case None => e.dtype
  }

  function Told(e: TensorEntry): TensorDescription {
    TensorDescription(e.name, e.shape, LoadedDtype(e), e.dtype, e.storage, e.aliasOf, e.rawSize, e.compressedSize,
                      e.hashRaw)
  }

  function ToldOf(es: seq<TensorEntry>): (ds: seq<TensorDescription>)
    ensures |ds| == |es|
  {
    seq(|es|, k requires 0 <= k < |es| => Told(es[k]))
  }

  /** Looks the snapshot up in the manifest and reads no file. */
  function DescriptionIn(ss: seq<Snapshot>, id: Id, rank: nat): Result<SnapshotDescription> {
    match Find(ss, id)
    case None => Err(NotFound)
    case Some(snap) =>
      if rank !in snap.ranks then Err(NotFound)
      else
        Ok(SnapshotDescription(snap.id, snap.step, snap.createdAt, snap.base.Some?, snap.base, snap.metadata, rank,
                               |snap.ranks|, ToldOf(snap.ranks[rank].tensors)))
  }

  // ── What entries say of the tensors they stand for ───────────────

  /** The entry has the shape and the dtype some tensor of its name was given in. */
  predicate Depicts(ts: seq<TensorData>, e: TensorEntry) {
    exists i :: 0 <= i < |ts| && ts[i].name == e.name && ts[i].shape == e.shape && ts[i].dtype == LoadedDtype(e)
  }

  predicate Sized(e: TensorEntry, contents: Contents) {
    e.name in contents && e.rawSize == |contents[e.name].raw|
  }

  ghost predicate Tells(es: seq<TensorEntry>, contents: Contents, ts: seq<TensorData>) {
    forall k :: 0 <= k < |es| ==> Depicts(ts, es[k]) && Sized(es[k], contents)
  }

  ghost predicate RecordTells(rank: nat, r: Record, ts: seq<TensorData>) {
    rank in r.snapshot.ranks && Tells(r.snapshot.ranks[rank].tensors, r.contents, ts)
  }

  function DtypeOf(h: Held): string {
    match h.originalDtype
    case Some(dtype) => dtype
    case None => h.dtype
  }

  lemma GivenDtype(env: Env, policy: Glob.Policy, t: TensorData)
    requires Given(env, policy, t).Ok?
    ensures t.dtype == DtypeOf(Given(env, policy, t).value)
  {
  }

  /** Entry `k` of a save, an alias included, has its own tensor's shape and dtype. */
  lemma SavedDepicts(
      env: Env, files: Files, cfg: Config, cache: Option<Cache>, ts: seq<TensorData>, base: map<string, Bytes>,
      ps: seq<Processed>, k: nat)
    requires Lawful(env) && DistinctTensors(ts) && (cache.Some? ==> Faithful(env, files, cache.value, base))
    requires ProcessedAll(env, files, cfg, cache, ts) == Ok(ps) && k < |ps|
    ensures Depicts(ts, Placed(ps)[k]) && Sized(Placed(ps)[k], ContentsOf(env, cfg.policy, ts))
  {
    hide *;
    var contents := ContentsOf(env, cfg.policy, ts);
    ProcessedAllKeeps(env, files, cfg, cache, ts, base);
    KeepsAt(env, cfg, ts, ps, k, base, contents);
    var i := Order(env, ts)[k];
    SavedMeansGiven(env, files, cfg, cache, ts, base, i);
    IsInjective(env);
    HolderHoldsItself(env, ts, i);
    HeldIs(env, cfg.policy, ts, i);
    KeptIs(env, cfg.policy, ts, i);
    GivenDtype(env, cfg.policy, ts[HolderOf(env, ts, i)]);
    PlacedSays(env, cfg, ps, k, base, contents);
    DepictedBy(ts, i, Placed(ps)[k]);
  }

  lemma IsInjective(env: Env)
    requires Lawful(env)
    ensures Injective(env.hash)
  {
  }

  lemma HeldIs(env: Env, policy: Glob.Policy, ts: seq<TensorData>, i: nat)
    requires DistinctTensors(ts) && i < |ts| && Kept(env, policy, ts, i).Ok?
    ensures ts[i].name in ContentsOf(env, policy, ts)
    ensures Kept(env, policy, ts, i) == Ok(ContentsOf(env, policy, ts)[ts[i].name])
  {
    ContentsAt(env, policy, ts, |ts|, i);
    hide Kept, ContentsTo;
  }

  lemma KeptIs(env: Env, policy: Glob.Policy, ts: seq<TensorData>, i: nat)
    requires i < |ts|
    ensures Kept(env, policy, ts, i) == Given(env, policy, ts[HolderOf(env, ts, i)])
  {
    hide Given;
  }

  lemma PlacedSays(
      env: Env, cfg: Config, ps: seq<Processed>, k: nat, base: map<string, Bytes>, contents: Contents)
    requires k < |ps| && Keeps(env, cfg.compression, ps, ps[k], base, contents)
    requires ps[k].entry.name in contents && ps[k].entry.rawSize == |contents[ps[k].entry.name].raw|
    ensures
      var e := Placed(ps)[k];
      && e.name == ps[k].entry.name && e.shape == ps[k].entry.shape && Sized(e, contents)
      && e.name in contents && LoadedDtype(e) == DtypeOf(contents[e.name])
  {
    hide Stores, SharesWith, OffsetOf;
  }

  lemma DepictedBy(ts: seq<TensorData>, i: nat, e: TensorEntry)
    requires i < |ts| && ts[i].name == e.name && ts[i].shape == e.shape && ts[i].dtype == LoadedDtype(e)
    ensures Depicts(ts, e)
  {
  }

  // ── Saves and merges tell the truth ──────────────────────────────

  lemma SaveTells(c: Setup, s: State, t: State)
    requires GoodSetup(c) && Inv(c, s) && SaveReads(c, s, t)
    ensures s.saver.Diffing? && s.saver.job.ctx.id in t.history
    ensures RecordTells(c.config.rank, t.history[s.saver.job.ctx.id], s.saver.job.tensors)
  {
    assert Lawful(c.env) && c.config.worldSize == 1;
    hide *;
    var ps, entry, r := SaveReadsIs(c, s, t);
    var job, cache := s.saver.job, CacheFor(s.saver.base, c.config.rank, s.retained);
    SaveCacheIsFaithful(c, s, job.ctx, entry);
    SavedSnapshotIs(c, job.ctx, entry);
    LaidEntries(c, ps, job.ctx, entry, r.pack);
    forall k | 0 <= k < |ps|
      ensures Depicts(job.tensors, entry.tensors[k]) && Sized(entry.tensors[k], r.contents)
    {
      SavedDepicts(c.env, s.files, c.config.tensors, cache, job.tensors,
                   BaseRaws(s.history, SavedSnapshot(c, job.ctx, entry)), ps, k);
    }
    TellsByEach(c.config.rank, r, job.tensors, entry);
  }

  lemma LaidEntries(c: Setup, ps: seq<Processed>, ctx: Context, entry: RankEntry, pack: Bytes)
    requires Written(entry, pack) == Laid(c.env, ps, ctx, c.config.tensors.compression, c.config.rank, 1)
    ensures entry.tensors == Placed(ps) && |Placed(ps)| == |ps|
  {
    hide PackOf, Placed;
  }

  lemma TellsByEach(rank: nat, r: Record, ts: seq<TensorData>, entry: RankEntry)
    requires r.snapshot.ranks == map[rank := entry]
    requires forall k :: 0 <= k < |entry.tensors| ==>
               Depicts(ts, entry.tensors[k]) && Sized(entry.tensors[k], r.contents)
    ensures RecordTells(rank, r, ts)
  {
    hide Depicts, Sized;
  }

  /** A merge's entries are those of its newest delta, as far as they say what the tensors are. */
  lemma MergeTells(c: Setup, s: State, t: State, id: Id, createdAt: int, ts: seq<TensorData>)
    requires GoodSetup(c) && Inv(c, s) && MergeReads(c, s, t, id, createdAt)
    requires s.merger.deltas != [] && LastOf(s.merger.deltas).id in s.history
    requires RecordTells(c.config.rank, s.history[LastOf(s.merger.deltas).id], ts)
    ensures id in t.history && RecordTells(c.config.rank, t.history[id], ts)
  {
    hide *;
    var ctx, w, r := MergeReadsIs(c, s, t, id, createdAt);
    var base, last, rank := s.merger.base, LastOf(s.merger.deltas), c.config.rank;
    InvSays(c, s);
    MergerInputs(s);
    InputsAre(c, s.history, base, s.merger.deltas, s.claim);
    SafetyFiles.KnownIs(s.history, last);
    MergeReadsKeeps(c, s, t, id, createdAt);
    RecordIs(c, t, id);
    RecordHolds(c, t.history, id);
    MergedSnapshotIs(c, ctx, w.entry);
    TellsEach(rank, s.history[last.id], ts);
    var es := last.ranks[rank].tensors;
    var ps := MergedFrom(c, s.files, base, last, ctx, w);
    forall k | 0 <= k < |ps|
      ensures Depicts(ts, w.entry.tensors[k]) && Sized(w.entry.tensors[k], r.contents)
    {
      MergedSays(c.env, s.files, base, last, rank, es[k], ps, k, c.config.tensors.compression);
      SameDepicts(ts, es[k], w.entry.tensors[k]);
      SizedStill(c, t.history, id, es[k], k);
    }
    TellsByEach(rank, r, ts, w.entry);
  }

  lemma TellsEach(rank: nat, r: Record, ts: seq<TensorData>)
    requires RecordTells(rank, r, ts)
    ensures rank in r.snapshot.ranks
    ensures
      var es := r.snapshot.ranks[rank].tensors;
      forall k :: 0 <= k < |es| ==> Depicts(ts, es[k]) && Sized(es[k], r.contents)
  {
    hide Depicts, Sized;
  }

  lemma MergedFrom(
      c: Setup, files: Files, base: Snapshot, last: Snapshot, ctx: Context, w: Written) returns (ps: seq<Processed>)
    requires c.config.rank in last.ranks && Merge.HasRank(base, last, c.config.rank)
    requires Merge.MergedRank(c.env, files, base, last, c.config.rank, ctx, c.config.tensors.compression, 1) == Ok(w)
    ensures
      var es := last.ranks[c.config.rank].tensors;
      && w.entry.tensors == Placed(ps) && |ps| == |es| == |Placed(ps)|
      && forall k :: 0 <= k < |es| ==>
           Merge.MergedEntry(c.env, files, base, last, c.config.rank, es[k], c.config.tensors.compression) == Ok(ps[k])
  {
    hide Merge.MergedEntry, Placed, PackOf, DescriptorOf;
    ps := Merge.MergedEntries(c.env, files, base, last, c.config.rank, last.ranks[c.config.rank].tensors,
                              c.config.tensors.compression).value;
  }

  lemma MergedSays(
      env: Env, files: Files, base: Snapshot, last: Snapshot, rank: nat, e: TensorEntry, ps: seq<Processed>, k: nat,
      algo: Compression.Algo)
    requires k < |ps| && Merge.MergedEntry(env, files, base, last, rank, e, algo) == Ok(ps[k])
    ensures
      var f := Placed(ps)[k];
      && f.name == e.name && f.shape == e.shape && LoadedDtype(f) == LoadedDtype(e)
      && (f.storage == Alias <==> e.storage == Alias) && (f.storage == Alias ==> f.rawSize == e.rawSize)
  {
    hide Merge.CurrentData, OffsetOf;
  }

  lemma SameDepicts(ts: seq<TensorData>, e: TensorEntry, f: TensorEntry)
    requires Depicts(ts, e) && f.name == e.name && f.shape == e.shape && LoadedDtype(f) == LoadedDtype(e)
    ensures Depicts(ts, f)
  {
  }

  lemma SizedStill(c: Setup, h: History, id: Id, e: TensorEntry, k: nat)
    requires id in h && c.config.rank in h[id].snapshot.ranks && k < |h[id].snapshot.ranks[c.config.rank].tensors|
    requires ShardHolds(c.env, ShardOfRecord(c, h[id]), BaseRaws(h, h[id].snapshot), h[id].contents)
    requires
      var f := h[id].snapshot.ranks[c.config.rank].tensors[k];
      f.name == e.name && (f.storage == Alias ==> f.rawSize == e.rawSize)
    requires Sized(e, h[id].contents)
    ensures Sized(h[id].snapshot.ranks[c.config.rank].tensors[k], h[id].contents)
  {
    HoldsAt(c.env, ShardOfRecord(c, h[id]), BaseRaws(h, h[id].snapshot), h[id].contents, k);
    hide ShardHolds, BaseRaws, PointsAt, BlobIn;
  }

  // ── In every run ─────────────────────────────────────────────────

  ghost predicate AllTell(rank: nat, h: History, origins: map<Id, SaveJob>) {
    forall id :: id in origins ==> id in h && RecordTells(rank, h[id], origins[id].tensors)
  }

  lemma NewTells(c: Setup, s: State, t: State, step: Step, origins: map<Id, SaveJob>)
    requires GoodSetup(c) && Inv(c, s) && Next(c, s, t, step) && origins.Keys == s.history.Keys
    requires AllTell(c.config.rank, s.history, origins)
    ensures step.SaveReadsStep? ==>
              s.saver.Diffing? && s.saver.job.ctx.id in t.history
              && RecordTells(c.config.rank, t.history[s.saver.job.ctx.id], s.saver.job.tensors)
    ensures step.MergeReadsStep? ==>
              s.merger.MReading? && s.merger.deltas != [] && LastOf(s.merger.deltas).id in origins
                && step.id in t.history
              && RecordTells(c.config.rank, t.history[step.id], origins[LastOf(s.merger.deltas).id].tensors)
  {
    hide *;
    if step.SaveReadsStep? || step.MergeReadsStep? {
      MakerRecords(c, s, t, step);
      InvKind(c, s);
      OpenedAgrees(c, s, s.algo);
      MakerIs(c, s, t, step);
      if step.SaveReadsStep? {
        SaveTells(Opened(c, s.algo), s, t);
      } else {
        var last := LastOf(s.merger.deltas).id;
        TellsAt(c.config.rank, s.history, origins, last);
        MergeTells(Opened(c, s.algo), s, t, step.id, step.createdAt, origins[last].tensors);
      }
    }
  }

  lemma MakerIs(c: Setup, s: State, t: State, step: Step)
    requires Next(c, s, t, step)
    ensures Opened(c, s.algo).config.rank == c.config.rank
    ensures step.SaveReadsStep? ==> SaveReads(Opened(c, s.algo), s, t)
    ensures step.MergeReadsStep? ==> MergeReads(Opened(c, s.algo), s, t, step.id, step.createdAt)
  {
    hide SaveReads, MergeReads;
  }

  lemma TellsAt(rank: nat, h: History, origins: map<Id, SaveJob>, id: Id)
    requires AllTell(rank, h, origins) && id in origins
    ensures id in h && RecordTells(rank, h[id], origins[id].tensors)
  {
    hide RecordTells;
  }

  lemma TellsStep(c: Setup, s: State, t: State, step: Step, origins: map<Id, SaveJob>)
    requires GoodSetup(c) && Inv(c, s) && Next(c, s, t, step) && origins.Keys == s.history.Keys
    requires AllTell(c.config.rank, s.history, origins)
    ensures AllTell(c.config.rank, t.history, OriginsAfter(s, step, origins))
  {
    hide *;
    NewTells(c, s, t, step, origins);
    HistoryGrows(c, s, t, step);
    if step.SaveReadsStep? {
      TellsOneMore(c.config.rank, s.history, t.history, origins, s.saver.job.ctx.id, s.saver.job);
    } else if step.MergeReadsStep? {
      TellsOneMore(c.config.rank, s.history, t.history, origins, step.id, origins[LastOf(s.merger.deltas).id]);
    } else {
      TellsStill(c.config.rank, s.history, t.history, origins);
    }
    OriginsAre(s, step, origins);
  }

  predicate Grown(h: History, more: History) {
    forall id :: id in h ==> id in more && more[id] == h[id]
  }

  lemma HistoryGrows(c: Setup, s: State, t: State, step: Step)
    requires Next(c, s, t, step)
    ensures Grown(s.history, t.history)
  {
    hide Next, Makes;
    HistoryOnlyGrows(c, s, t, step);
  }

  lemma TellsStill(rank: nat, h: History, more: History, origins: map<Id, SaveJob>)
    requires AllTell(rank, h, origins) && Grown(h, more)
    ensures AllTell(rank, more, origins)
  {
    hide RecordTells;
  }

  lemma TellsOneMore(rank: nat, h: History, more: History, origins: map<Id, SaveJob>, id: Id, job: SaveJob)
    requires AllTell(rank, h, origins) && Grown(h, more) && id in more && RecordTells(rank, more[id], job.tensors)
    ensures AllTell(rank, more, origins[id := job])
  {
    hide RecordTells;
  }

  lemma OriginsAre(s: State, step: Step, origins: map<Id, SaveJob>)
    ensures
      OriginsAfter(s, step, origins) ==
      if step.SaveReadsStep? && s.saver.Diffing? then origins[s.saver.job.ctx.id := s.saver.job]
      else if step.MergeReadsStep? && s.merger.MReading? && s.merger.deltas != []
              && LastOf(s.merger.deltas).id in origins
      then origins[step.id := origins[LastOf(s.merger.deltas).id]]
      else origins
  {
  }

  lemma {:induction false} EveryRecordTells(c: Setup, states: seq<State>, steps: seq<Step>, i: nat)
    requires GoodSetup(c) && Run(c, states, steps) && i < |states|
    ensures i <= |steps| && AllTell(c.config.rank, states[i].history, Origins(states, steps, i))
  {
    hide *;
    RunIsLong(c, states, steps);
    EveryRecordHasItsSave(c, states, steps, i);
    if i == 0 {
      NothingTold(c, states, steps);
    } else {
      EveryRecordTells(c, states, steps, i - 1);
      RunKeeps(c, states, steps, i - 1);
      EveryRecordHasItsSave(c, states, steps, i - 1);
      OriginsKeys(c, states[i - 1], steps, i - 1, Origins(states, steps, i - 1));
      NextAt(c, states, steps, i - 1);
      TellsStep(c, states[i - 1], states[i], steps[i - 1], Origins(states, steps, i - 1));
      OriginsAt(states, steps, i);
    }
  }

  lemma NothingTold(c: Setup, states: seq<State>, steps: seq<Step>)
    requires |states| > 0
    ensures AllTell(c.config.rank, states[0].history, Origins(states, steps, 0))
  {
  }

  lemma OriginsKeys(c: Setup, s: State, steps: seq<Step>, i: nat, origins: map<Id, SaveJob>)
    requires i <= |steps| && OriginsHold(c, s, steps, i, origins)
    ensures origins.Keys == s.history.Keys
    ensures forall id :: id in origins ==>
              s.history[id].contents == ContentsOf(c.env, c.config.tensors.policy, origins[id].tensors)
              && WasSaved(steps, i, origins[id])
  {
    hide WasSaved, ContentsOf;
  }

  lemma OriginsAt(states: seq<State>, steps: seq<Step>, i: nat)
    requires 0 < i < |states| && i <= |steps|
    ensures Origins(states, steps, i) == OriginsAfter(states[i - 1], steps[i - 1], Origins(states, steps, i - 1))
  {
    hide OriginsAfter;
  }

  // ── What a caller is told ────────────────────────────────────────

  predicate IsTold(ds: seq<TensorDescription>, n: string) {
    exists k :: 0 <= k < |ds| && ds[k].name == n
  }

  /** Each tensor of the save once, under its own name, shape and dtype, and nothing else. */
  ghost predicate DescribesAll(ts: seq<TensorData>, ds: seq<TensorDescription>) {
    && (forall j, k :: 0 <= j < k < |ds| ==> ds[j].name != ds[k].name)
    && (forall n :: IsTold(ds, n) <==> exists i :: 0 <= i < |ts| && ts[i].name == n)
    && forall k, i :: 0 <= k < |ds| && 0 <= i < |ts| && ds[k].name == ts[i].name ==>
         ds[k].shape == ts[i].shape && ds[k].dtype == ts[i].dtype
  }

  /** The sizes and hashes told are those of what is held, and the dtype on disk is the one it is held in. */
  ghost predicate MeasuresAll(env: Env, contents: Contents, ds: seq<TensorDescription>) {
    forall k :: 0 <= k < |ds| ==>
      && ds[k].name in contents
      && var h := contents[ds[k].name];
         ds[k].rawSize == |h.raw| && ds[k].hashRaw == env.hash(h.raw) && ds[k].storedDtype == h.dtype
         && ds[k].dtype == DtypeOf(h)
  }

  lemma ToldMeasures(c: Setup, h: History, id: Id, ts: seq<TensorData>)
    requires id in h && RecordTells(c.config.rank, h[id], ts)
    requires ShardHolds(c.env, ShardOfRecord(c, h[id]), BaseRaws(h, h[id].snapshot), h[id].contents)
    ensures MeasuresAll(c.env, h[id].contents, ToldOf(h[id].snapshot.ranks[c.config.rank].tensors))
  {
    var es := h[id].snapshot.ranks[c.config.rank].tensors;
    hide ShardHolds, Depicts, BaseRaws;
    forall k | 0 <= k < |es|
      ensures
        es[k].name in h[id].contents
        && var held := h[id].contents[es[k].name];
           es[k].rawSize == |held.raw| && es[k].hashRaw == c.env.hash(held.raw) && es[k].dtype == held.dtype
           && LoadedDtype(es[k]) == DtypeOf(held)
    {
      HoldsAt(c.env, ShardOfRecord(c, h[id]), BaseRaws(h, h[id].snapshot), h[id].contents, k);
      hide PointsAt, BlobIn;
    }
  }

  lemma ToldDescribes(
      env: Env, policy: Glob.Policy, sh: Shard, base: map<string, Bytes>, contents: Contents, ts: seq<TensorData>)
    requires DistinctTensors(ts) && contents == ContentsOf(env, policy, ts)
    requires ShardHolds(env, sh, base, contents) && Tells(sh.entries, contents, ts)
    ensures DescribesAll(ts, ToldOf(sh.entries))
  {
    var es, ds := sh.entries, ToldOf(sh.entries);
    ContentsNames(env, policy, ts);
    hide ContentsOf, HoldsEntry, Sized;
    forall n
      ensures IsTold(ds, n) <==> n in contents
    {
      if n in contents {
        var k := NameIsHeld(env, sh, base, contents, n);
        assert ds[k].name == n;
      }
      if IsTold(ds, n) {
        var k :| 0 <= k < |ds| && ds[k].name == n;
        HoldsAt(env, sh, base, contents, k);
      }
    }
    hide ShardHolds;
    forall k, i | 0 <= k < |ds| && 0 <= i < |ts| && ds[k].name == ts[i].name
      ensures ds[k].shape == ts[i].shape && ds[k].dtype == ts[i].dtype
    {
      assert Depicts(ts, es[k]);
      var j :| 0 <= j < |ts| && ts[j].name == es[k].name && ts[j].shape == es[k].shape
               && ts[j].dtype == LoadedDtype(es[k]);
      assert !(i < j) && !(j < i);
    }
  }

  lemma JobIsDistinct(c: Setup, states: seq<State>, steps: seq<Step>, i: nat, job: SaveJob)
    requires Run(c, states, steps) && i <= |steps| && WasSaved(steps, i, job)
    ensures DistinctTensors(job.tensors)
  {
    hide Next, Init;
    var j :| 0 <= j < i && steps[j] == SaveBeginsStep(job);
    NextAt(c, states, steps, j);
    BegunIsDistinct(c, states[j], states[j + 1], job);
  }

  lemma BegunIsDistinct(c: Setup, s: State, t: State, job: SaveJob)
    requires Next(c, s, t, SaveBeginsStep(job))
    ensures DistinctTensors(job.tensors)
  {
    hide ChosenBase;
  }

  /**
   In every state of every run a listed snapshot, merged or saved, is described as the save it stands
   for: every tensor once, with its own shape and dtype even where it shares its bytes with another,
   and the size and hash of what is held.
   */
  lemma EverySnapshotIsDescribed(c: Setup, states: seq<State>, steps: seq<Step>, i: nat, snap: Snapshot)
    requires GoodSetup(c) && Run(c, states, steps) && i < |states| && snap in states[i].mem.snapshots
    ensures i <= |steps| && snap.id in Origins(states, steps, i) && snap.id in states[i].history
    ensures
      var d := DescriptionIn(states[i].mem.snapshots, snap.id, c.config.rank);
      && d.Ok?
      && DescribesAll(Origins(states, steps, i)[snap.id].tensors, d.value.tensors)
      && MeasuresAll(c.env, states[i].history[snap.id].contents, d.value.tensors)
  {
    hide *;
    var s := states[i];
    RunIsLong(c, states, steps);
    RunKeeps(c, states, steps, i);
    EveryRecordTells(c, states, steps, i);
    EveryRecordHasItsSave(c, states, steps, i);
    OriginsKeys(c, s, steps, i, Origins(states, steps, i));
    MemIsKnown(c, s, snap);
    Theorems.KnownIs(s.history, snap);
    var job := Origins(states, steps, i)[snap.id];
    TellsAt(c.config.rank, s.history, Origins(states, steps, i), snap.id);
    JobIsDistinct(c, states, steps, i, job);
    RecordIs(c, s, snap.id);
    RecordHolds(c, s.history, snap.id);
    ToldMeasures(c, s.history, snap.id, job.tensors);
    RecordToldIs(c, s.history[snap.id], job.tensors);
    ToldDescribes(c.env, c.config.tensors.policy, ShardOfRecord(c, s.history[snap.id]),
                  BaseRaws(s.history, snap), s.history[snap.id].contents, job.tensors);
    MemIsListed(c, s);
    ListedIsFound(s.history, s.mem.snapshots, c.config.rank, snap);
  }

  lemma RecordToldIs(c: Setup, r: Record, ts: seq<TensorData>)
    requires RecordTells(c.config.rank, r, ts)
    ensures c.config.rank in r.snapshot.ranks && Tells(ShardOfRecord(c, r).entries, r.contents, ts)
    ensures ShardOfRecord(c, r).entries == r.snapshot.ranks[c.config.rank].tensors
  {
    hide Tells;
  }

  lemma ListedIsFound(h: History, ss: seq<Snapshot>, rank: nat, snap: Snapshot)
    requires Listed(h, ss) && snap in ss && rank in snap.ranks
    ensures DescriptionIn(ss, snap.id, rank).Ok?
    ensures DescriptionIn(ss, snap.id, rank).value.tensors == ToldOf(snap.ranks[rank].tensors)
  {
    Merger.FindIs(ss, snap);
    hide Find, ToldOf, Listed;
  }

  /** And a load bears it out: of each tensor held in its own dtype it gives as many bytes, of that hash. */
  lemma ADescriptionIsBorneOut(c: Setup, states: seq<State>, steps: seq<Step>, i: nat, snap: Snapshot)
    requires GoodSetup(c) && Run(c, states, steps) && i < |states| && snap in states[i].mem.snapshots
    ensures DescriptionIn(states[i].mem.snapshots, snap.id, c.config.rank).Ok?
    ensures
      var ds := DescriptionIn(states[i].mem.snapshots, snap.id, c.config.rank).value.tensors;
      var out := Load.Load(c.env, states[i].files, states[i].mem.snapshots, snap.id, c.config.rank);
      out.Ok? ==>
        && (forall n :: n in out.value <==> IsTold(ds, n))
        && forall k :: 0 <= k < |ds| && ds[k].storedDtype == ds[k].dtype ==>
             ds[k].name in out.value && |out.value[ds[k].name]| == ds[k].rawSize
             && c.env.hash(out.value[ds[k].name]) == ds[k].hashRaw
  {
    hide *;
    EverySnapshotIsDescribed(c, states, steps, i, snap);
    EveryListedSnapshotLoads(c, states, steps, i, snap);
    RunIsLong(c, states, steps);
    EveryRecordHasItsSave(c, states, steps, i);
    OriginsKeys(c, states[i], steps, i, Origins(states, steps, i));
    var contents := states[i].history[snap.id].contents;
    var ds := DescriptionIn(states[i].mem.snapshots, snap.id, c.config.rank).value.tensors;
    var job := Origins(states, steps, i)[snap.id];
    ContentsNames(c.env, c.config.tensors.policy, job.tensors);
    LoadedIsTold(c, states[i].files, states[i].mem.snapshots, snap.id, contents, job.tensors, ds);
  }

  lemma LoadedIsTold(
      c: Setup, files: Files, ss: seq<Snapshot>, id: Id, contents: Contents, ts: seq<TensorData>,
      ds: seq<TensorDescription>)
    requires LoadsAs(c, files, ss, id, contents) && MeasuresAll(c.env, contents, ds) && DescribesAll(ts, ds)
    requires forall n :: n in contents <==> exists i :: 0 <= i < |ts| && ts[i].name == n
    ensures
      var out := Load.Load(c.env, files, ss, id, c.config.rank);
      out.Ok? ==>
        && (forall n :: n in out.value <==> IsTold(ds, n))
        && forall k :: 0 <= k < |ds| && ds[k].storedDtype == ds[k].dtype ==>
             ds[k].name in out.value && |out.value[ds[k].name]| == ds[k].rawSize
             && c.env.hash(out.value[ds[k].name]) == ds[k].hashRaw
  {
    hide Load.Load;
    var out := Load.Load(c.env, files, ss, id, c.config.rank);
    if out.Ok? {
      forall k | 0 <= k < |ds| && ds[k].storedDtype == ds[k].dtype
        ensures ds[k].name in out.value && out.value[ds[k].name] == contents[ds[k].name].raw
      {
        ReadAsHeld(c.env, contents[ds[k].name]);
      }
      hide MeasuresAll, DescribesAll;
    }
  }

  lemma ReadAsHeld(env: Env, h: Held)
    requires DtypeOf(h) == h.dtype
    ensures Read(env, h) == Ok(h.raw)
  {
  }
}
