/** One short run from an empty store, of two saves of one tensor, into the gap a merge leaves a load. */
module Example {
  import opened Bytes
  import opened Compression
  import opened Manifest
  import opened Env
  import opened Tensor
  import opened Shard
  import opened Layout
  import opened Dedup
  import opened Save
  import opened Core
  import opened ManifestIO
  import opened Retain
  import opened Protocol
  import opened Safety
  import opened SafetyFiles
  import opened SafetyLoads
  import opened Progress
  import opened Gaps
  import PackFile = Pack
  import Load
  import Merge
  import MergeKinds
  import Merger
  import Recovery
  import Witness

  // ── The store and what is saved ──────────────────────────────────

  const TENSOR := TensorData("w", [], "uint8", [1])
  const WORKING := Working([1], "uint8", None)
  const FIRST := Context(0, 1, 0, None, map[])
  const SECOND := Context(1, 2, 0, Some(0), map[])

  function OneRank(env: Env): Setup {
    Setup(env, RankConfig(0, 1, Tensor.Config.Config(Store, []), false), Merger.MergerConfig(0, 10), 0,
          Retention(2, 10, 100, None),
          Lineage(0, 0))
  }

  function FullOne(env: Env): seq<Processed> {
    [FullBlob(env, Store, TENSOR, WORKING)]
  }

  function SkippedOne(env: Env): seq<Processed> {
    [Processed(SkippedEntry(env, TENSOR, WORKING), None)]
  }

  function MergedOne(env: Env): seq<Processed> {
    [Merge.FullAgain(env, SkippedEntry(env, TENSOR, WORKING), [1], Store)]
  }

  function FullSaved(env: Env): Snapshot {
    SavedSnapshot(OneRank(env), FIRST, RankEntryOf(0, 0, Placed(FullOne(env))))
  }

  function DeltaSaved(env: Env): Snapshot {
    SavedSnapshot(OneRank(env), SECOND, RankEntryOf(1, 0, Placed(SkippedOne(env))))
  }

  /** How the three packs of the run describe themselves. */
  function Descriptions(env: Env): (Descriptor, Descriptor, Descriptor) {
    (DescriptorOf(FIRST, Store, 1, RankEntryOf(0, 0, Placed(FullOne(env)))),
     DescriptorOf(SECOND, Store, 1, RankEntryOf(1, 0, Placed(SkippedOne(env)))),
     DescriptorOf(Merger.MergedContext(2, 0, [DeltaSaved(env)]), Store, 1, Merge.MergedRankEntry(2, 0, MergedOne(env))))
  }

  /** Those descriptions have a length a header can hold. */
  predicate Describes(env: Env) {
    var (first, second, merged) := Descriptions(env);
    && |env.descriptorJson(first)| <= 1000 && |env.descriptorJson(second)| <= 1000
    && |env.descriptorJson(merged)| <= 1000
  }

  // ── An empty store opens ─────────────────────────────────────────

  ghost predicate Fresh(c: Setup, s: State) {
    && Quiet(s) && s.saver.Idle? && s.merger.MIdle? && s.mem == EmptyManifest(c) && s.history == map[]
       && s.pins == map[]
    && s.claim == {} && s.loaders == map[] && s.algo == c.config.tensors.compression
  }

  lemma NothingToRecover(c: Setup, packsOf: Id -> seq<Path>)
    requires packsOf == (_ => [])
    ensures LoadManifest(c.env, map[], map[]) == Ok(None) && ListsPacks(map[], packsOf)
    ensures Recovery.MeetsOrphans(map[], Ids([]), [])
    ensures Recovery.Readmitted(c.env, map[], [], [], packsOf) == []
    ensures Recovery.Recovered(c.env, map[], [], [], packsOf) == []
  {
    assert Recovery.OrphanIds(map[], Ids([])) == {};
    assert Recovery.Candidates(c.env, map[], [], packsOf) == [];
    Recovery.NothingRecovered(c.env, map[], [], packsOf);
  }

  lemma Restart(c: Setup, s: State) returns (t: State)
    requires Init(c, s)
    ensures Reaches(c, s, t) && t == s.(mode := Reclaiming({}, false))
  {
    var packsOf: Id -> seq<Path> := _ => [];
    NothingToRecover(c, packsOf);
    t := s.(mode := Reclaiming({}, false));
    hide Reaches, LoadManifest, Recovery.Readmitted, Recovery.Recovered, ListsPacks, Recovery.MeetsOrphans, Ids;
    assert (set id | id in []) - Ids([]) == {};
    assert Restarts(c, s, t, [], packsOf, s.algo);
    hide Restarts;
    ReachesNext(c, s, t, RestartsStep([], packsOf, s.algo));
  }

  lemma BootOver(c: Setup, s: State) returns (t: State)
    requires s.mode == Reclaiming({}, false)
    ensures Reaches(c, s, t) && t == s.(mode := Running)
  {
    t := s.(mode := Running);
    hide Reaches;
    assert BootEnds(s, t);
    hide BootEnds;
    ReachesNext(c, s, t, BootEndsStep);
  }

  lemma Opens(c: Setup, s: State) returns (t: State)
    requires GoodSetup(c) && Init(c, s)
    ensures Reaches(c, s, t) && Inv(c, t) && Fresh(c, t)
  {
    InitKeeps(c, s);
    hide Reaches, Inv, GoodSetup;
    var u := Restart(c, s);
    t := BootOver(c, u);
    ReachesFurther(c, s, u, t);
    ReachesKeeps(c, s, t);
  }

  // ── The two saves ────────────────────────────────────────────────

  lemma {:induction false} CountAtMost(ss: seq<Snapshot>, kind: Kind)
    ensures Count(ss, kind) <= |ss|
  {
    if ss != [] {
      CountAtMost(ss[1..], kind);
    }
  }

  lemma FewAreKept(m: Manifest)
    requires |m.snapshots| <= 2 && m.retention.maxFullSnapshots >= 2 && m.retention.EffectiveTotalCap() >= 2
    ensures RetainedOf(m) == m.snapshots
  {
    CountAtMost(m.snapshots, FullKind);
    CountAtMost(m.snapshots, FinalizedKind);
    hide Count;
  }

  /** One tensor no rule casts is processed by itself. */
  lemma OneProcessed(env: Env, files: Files, cache: Option<Cache>, p: Processed)
    requires ProcessTensor(env, files, Tensor.Config.Config(Store, []), cache, TENSOR) == Ok(p)
    ensures ProcessedAll(env, files, Tensor.Config.Config(Store, []), cache, [TENSOR]) == Ok([p])
  {
    var ts := [TENSOR];
    NoneOwns(env);
    assert Picked(ts, Own(env, ts, 1)) == ts;
    assert ts[..0] == [] && ts[0] == TENSOR && [] + [p] == [p];
    hide ProcessTensor, OwnerOf;
    assert Processes(env, files, Tensor.Config.Config(Store, []), cache, ts[..0]) == Ok([]);
    assert Processes(env, files, Tensor.Config.Config(Store, []), cache, ts) == Ok([p]);
    assert [p] + [] == [p];
  }

  lemma NoneOwns(env: Env)
    ensures Own(env, [TENSOR], 1) == [0] && Shared(env, [TENSOR], 1) == []
  {
    assert Own(env, [TENSOR], 0) == [] && Shared(env, [TENSOR], 0) == [];
    hide OwnerOf;
    assert OwnerOf(env, [TENSOR], 0).None?;
  }

  lemma PackIsShort(env: Env, ps: seq<Processed>, d: Descriptor)
    requires |ps| == 1 && |BlobOf(ps[0])| <= 1 && |env.descriptorJson(d)| <= 1000
    ensures |PackOf(env, ps, d)| < PackFile.U64_LIMIT
  {
    assert BlobsTo(ps, 0) == [] && BlobsTo(ps, 1) == [] + BlobOf(ps[0]);
    hide BlobsTo, PackFile.Header;
    assert PackFile.HEADER_LEN == 32;
  }

  lemma FirstCanBeSaved(env: Env, s: State)
    requires Describes(env) && Fresh(OneRank(env), s)
    ensures CanSave(OneRank(env), s, SaveJob(FIRST, [TENSOR]), FullOne(env))
    ensures SavedAs(OneRank(env), s, FullOne(env), FIRST) == FullSaved(env)
  {
    var c := OneRank(env);
    assert Opened(c, s.algo) == c;
    assert ChosenBase(s, FIRST.step) == None;
    assert CacheFor(None, 0, s.retained) == None;
    assert ProcessTensor(env, s.files, c.config.tensors, None, TENSOR) == Ok(FullOne(env)[0]);
    OneProcessed(env, s.files, None, FullOne(env)[0]);
    PackIsShort(env, FullOne(env), Descriptions(env).0);
    hide ProcessTensor, ProcessedAll, PackOf, CacheFor, ChosenBase, FullBlob, Placed, SavedSnapshot;
  }

  /** What the first save leaves. */
  ghost predicate HasFull(env: Env, s: State) {
    && Quiet(s) && s.saver.Idle? && s.merger.MIdle? && s.mem.snapshots == [FullSaved(env)]
    && s.mem.retention == Retention(2, 10, 100, None) && s.history.Keys == {0} && s.pins == map[] && s.claim == {}
    && s.loaders == map[] && s.algo == Store
  }

  lemma SavesFull(env: Env, s: State) returns (t: State)
    requires Lawful(env) && Describes(env) && Inv(OneRank(env), s) && Fresh(OneRank(env), s)
    ensures Reaches(OneRank(env), s, t) && Inv(OneRank(env), t) && HasFull(env, t)
  {
    hide *;
    FirstCanBeSaved(env, s);
    FreshIs(env, s);
    t := SaveGoesThrough(OneRank(env), s, SaveJob(FIRST, [TENSOR]), FullOne(env));
    FirstIsMade(env, s, t);
  }

  lemma FreshIs(env: Env, s: State)
    requires Fresh(OneRank(env), s) || HasFull(env, s)
    ensures Quiet(s) && (Lawful(env) ==> GoodSetup(OneRank(env)))
  {
    hide Lawful, FullSaved;
  }

  lemma FirstIsMade(env: Env, s: State, t: State)
    requires Fresh(OneRank(env), s) && SaveMade(OneRank(env), s, t, SaveJob(FIRST, [TENSOR]), FullOne(env))
    requires SavedAs(OneRank(env), s, FullOne(env), FIRST) == FullSaved(env)
    ensures HasFull(env, t)
  {
    FewAreKept(s.mem.(snapshots := [FullSaved(env)]));
    assert s.mem.snapshots + [FullSaved(env)] == [FullSaved(env)];
    hide SavedAs, FullSaved, RetainedOf, FullOne;
  }

  lemma FullHasTensor(env: Env, s: State)
    requires HasFull(env, s)
    ensures IsFull(FullSaved(env)) && ChosenBase(s, SECOND.step) == Some(FullSaved(env)) && FullSaved(env).id == 0
    ensures
      var cache := CacheFor(Some(FullSaved(env)), 0, s.retained);
      cache.Some? && "w" in cache.value.entries && cache.value.entries["w"].hashRaw == env.hash([1])
  {
    var full := FullSaved(env);
    assert Placed(FullOne(env))[0].name == "w" && Placed(FullOne(env))[0].hashRaw == env.hash([1]);
    assert Placed(FullOne(env))[0] in full.ranks[0].tensors;
    var m := EntryMap(full.ranks[0].tensors);
    assert m["w"] in full.ranks[0].tensors;
    assert PendingDeltas([full]) == 0 && LastFull([full]) == Some(full);
    hide EntryMap, FullBlob, LastFull, PendingDeltas;
  }

  lemma SecondCanBeSaved(env: Env, s: State)
    requires Describes(env) && HasFull(env, s)
    ensures CanSave(OneRank(env), s, SaveJob(SECOND, [TENSOR]), SkippedOne(env))
    ensures SavedAs(OneRank(env), s, SkippedOne(env), SECOND) == DeltaSaved(env)
  {
    FullHasTensor(env, s);
    DeltaIs(env, s);
    var cache := CacheFor(Some(FullSaved(env)), 0, s.retained);
    hide CacheFor, ChosenBase, FullSaved, EntryMap, Placed, SavedSnapshot, PackFor, DeltaSaved;
    SkipsTensor(env, s.files, cache);
    OneProcessed(env, s.files, cache, SkippedOne(env)[0]);
    hide ProcessTensor, ProcessedAll, SkippedEntry;
  }

  lemma SkipsTensor(env: Env, files: Files, cache: Option<Cache>)
    requires cache.Some? && "w" in cache.value.entries && cache.value.entries["w"].hashRaw == env.hash([1])
    ensures ProcessTensor(env, files, Tensor.Config.Config(Store, []), cache, TENSOR) == Ok(SkippedOne(env)[0])
  {
  }

  lemma DeltaIs(env: Env, s: State)
    requires Describes(env) && HasFull(env, s)
    ensures Opened(OneRank(env), s.algo) == OneRank(env)
    ensures SavedAs(OneRank(env), s, SkippedOne(env), SECOND) == DeltaSaved(env)
    ensures |PackFor(OneRank(env), SkippedOne(env), SECOND).pack| < PackFile.U64_LIMIT
  {
    PackIsShort(env, SkippedOne(env), Descriptions(env).1);
    hide PackOf, Placed, SavedSnapshot, SkippedEntry, FullSaved;
  }

  /** What the second save leaves. */
  ghost predicate HasDelta(env: Env, s: State) {
    && Quiet(s) && s.saver.Idle? && s.merger.MIdle? && s.mem.snapshots == [FullSaved(env), DeltaSaved(env)]
    && s.history.Keys == {0, 1} && s.pins == map[] && s.loaders == map[] && s.algo == Store
  }

  lemma SavesDelta(env: Env, s: State) returns (t: State)
    requires Lawful(env) && Describes(env) && Inv(OneRank(env), s) && HasFull(env, s)
    ensures Reaches(OneRank(env), s, t) && Inv(OneRank(env), t) && HasDelta(env, t)
  {
    hide *;
    SecondCanBeSaved(env, s);
    FreshIs(env, s);
    t := SaveGoesThrough(OneRank(env), s, SaveJob(SECOND, [TENSOR]), SkippedOne(env));
    SecondIsMade(env, s, t);
  }

  lemma SecondIsMade(env: Env, s: State, t: State)
    requires HasFull(env, s) && SaveMade(OneRank(env), s, t, SaveJob(SECOND, [TENSOR]), SkippedOne(env))
    requires SavedAs(OneRank(env), s, SkippedOne(env), SECOND) == DeltaSaved(env)
    ensures HasDelta(env, t)
  {
    hide SavedAs, FullSaved, DeltaSaved, RetainedOf, SkippedOne, OneRank;
    FewAreKept(s.mem.(snapshots := [FullSaved(env), DeltaSaved(env)]));
    assert s.mem.snapshots + [DeltaSaved(env)] == [FullSaved(env), DeltaSaved(env)];
  }

  // ── What a merge of them would write ─────────────────────────────

  /** The delta's one entry is kept against the full, and a merge of the two can begin. */
  lemma CanFold(env: Env, s: State)
    requires HasDelta(env, s)
    ensures Merger.PlanFull(s.mem.snapshots) == Merger.Fold(FullSaved(env), [DeltaSaved(env)])
    ensures PinnedIds(s.pins) == {} && 0 in DeltaSaved(env).ranks && !NeedsNoBase(OneRank(env), DeltaSaved(env))
    ensures DeltaSaved(env).ranks[0].tensors == [SkippedEntry(env, TENSOR, WORKING)]
    ensures Merge.HasRank(FullSaved(env), DeltaSaved(env), 0)
  {
    var full, delta := FullSaved(env), DeltaSaved(env);
    assert Placed(SkippedOne(env)) == [SkippedEntry(env, TENSOR, WORKING)];
    assert delta.ranks[0].tensors[0] in delta.ranks[0].tensors;
    var ss := [full, delta];
    assert ss[..1] == [full] && LastFull([full]) == Some(full) && LastFull(ss) == Some(full);
    DeltasOfTwo(full, delta);
    assert PinnedIds(map[]) == {};
    hide FullSaved, DeltaSaved, SkippedEntry, LastFull;
  }

  lemma DeltasOfTwo(full: Snapshot, delta: Snapshot)
    requires IsFull(full) && delta.base == Some(full.id) && delta.finalized
    ensures Merger.DeltasOf([full, delta], full.id) == [delta] && !Merger.UnfinalizedOn([full, delta], full.id)
  {
    var ss := [full, delta];
    assert ss[1..] == [delta] && [delta][1..] == [] && [delta] + [] == [delta];
    assert Merger.DeltasOf([], full.id) == [] && Merger.DeltasOf([delta], full.id) == [delta];
    assert forall s :: s in ss ==> s == full || s == delta;
  }

  lemma SkippedIsRead(env: Env, s: State)
    requires Lawful(env) && Inv(OneRank(env), s) && HasDelta(env, s)
    ensures
      Merge.CurrentData(env, s.files, FullSaved(env), DeltaSaved(env), 0, SkippedEntry(env, TENSOR, WORKING), Store)
      == Ok([1])
  {
    hide *;
    var c, full, delta := OneRank(env), FullSaved(env), DeltaSaved(env);
    CanFold(env, s);
    InExample(env, s);
    ListedIsKept(c, s, full);
    ListedIsKept(c, s, delta);
    FullBaseRaws(s.history, full);
    DeltaBaseRaws(s.history, delta, full);
    SameAlgo(env, s);
    SkippedReads(env, s.files, full, s.history[full.id].pack, s.history[full.id].contents, delta,
                 s.history[delta.id].pack,
                 s.history[delta.id].contents);
  }

  lemma InExample(env: Env, s: State)
    requires HasDelta(env, s)
    ensures FullSaved(env) in s.mem.snapshots && DeltaSaved(env) in s.mem.snapshots
    ensures FullSaved(env).base.None? && DeltaSaved(env).base == Some(FullSaved(env).id)
    ensures OneRank(env).env == env && OneRank(env).config.rank == 0
  {
    hide Placed;
  }

  lemma SameAlgo(env: Env, s: State)
    requires HasDelta(env, s)
    ensures s.algo == Store && Quiet(s) && s.loaders == map[]
  {
    hide FullSaved, DeltaSaved;
  }

  /** The bytes are the ones whose hash the entry carries. */
  lemma SkippedReads(
      env: Env, files: Files, full: Snapshot, fullPack: Bytes, fullContents: Contents, delta: Snapshot, pack: Bytes,
      contents: Contents)
    requires Lawful(env) && 0 in delta.ranks && delta.ranks[0].tensors == [SkippedEntry(env, TENSOR, WORKING)]
    requires Merge.Kept(env, files, full, 0, fullPack, map[], fullContents, Store)
    requires Merge.Kept(env, files, delta, 0, pack, Raws(fullContents), contents, Store)
    ensures Merge.CurrentData(env, files, full, delta, 0, SkippedEntry(env, TENSOR, WORKING), Store) == Ok([1])
  {
    var e := SkippedEntry(env, TENSOR, WORKING);
    assert delta.ranks[0].tensors[0] == e && e in delta.ranks[0].tensors;
    assert e.hashRaw == env.hash([1]) && e.storage == Skipped;
    hide Load.Stored, Merge.DecodesAlike, Merge.MergedRank, ShardHolds, SkippedEntry, Merge.CurrentData, Lawful;
    MergeKinds.MergedRankHolds(env, files, full, fullPack, fullContents, delta, pack, contents, 0, SECOND, Store, 1);
    MergeKinds.RightMergeReads(env, files, full, delta, 0, SECOND, Store, 1, contents, 0);
    MergeKinds.HeldIs(env, files, delta, 0, pack, Raws(fullContents), contents, e);
    HashIs(env, delta, pack, Raws(fullContents), contents, e);
  }

  lemma HashIs(
      env: Env, delta: Snapshot, pack: Bytes, against: map<string, Bytes>, contents: Contents, e: TensorEntry)
    requires Lawful(env) && 0 in delta.ranks && e.storage == Skipped && e.hashRaw == env.hash([1])
    requires HoldsEntry(env, Merge.ShardOf(delta, 0, pack), e, against, contents)
    ensures e.name in contents && contents[e.name].raw == [1]
  {
    hide BlobIn;
  }

  lemma MergedIsShort(env: Env, s: State)
    requires Lawful(env) && Describes(env) && Inv(OneRank(env), s) && HasDelta(env, s)
    ensures Merge.HasRank(FullSaved(env), DeltaSaved(env), 0)
    ensures
      var w := MergedAhead(OneRank(env), s, FullSaved(env), [DeltaSaved(env)], 2, 0);
      w.Ok? ==> |w.value.pack| < PackFile.U64_LIMIT
  {
    CanFold(env, s);
    SkippedIsRead(env, s);
    SameAlgo(env, s);
    var e, full, delta := SkippedEntry(env, TENSOR, WORKING), FullSaved(env), DeltaSaved(env);
    assert e.storage == Skipped;
    OneMergedEntry(env, s.files, full, delta, e);
    assert LastOf([delta]) == delta;
    PackIsShort(env, MergedOne(env), Descriptions(env).2);
    hide Lawful, Inv, FullSaved, DeltaSaved, SkippedEntry, Merge.MergedEntries, PackOf, HasDelta, Merge.FullAgain;
    MergedAheadIs(env, s, full, delta, e);
  }

  lemma OneMergedEntry(env: Env, files: Files, full: Snapshot, delta: Snapshot, e: TensorEntry)
    requires e.storage == Skipped && Merge.CurrentData(env, files, full, delta, 0, e, Store) == Ok([1])
    ensures Merge.MergedEntries(env, files, full, delta, 0, [e], Store) == Ok([Merge.FullAgain(env, e, [1], Store)])
  {
    hide Merge.CurrentData, Merge.FullAgain;
    MergeKinds.OneMerged(env, files, full, delta, 0, e, Merge.FullAgain(env, e, [1], Store), Store);
  }

  lemma MergedAheadIs(env: Env, s: State, full: Snapshot, delta: Snapshot, e: TensorEntry)
    requires 0 in delta.ranks && delta.ranks[0].tensors == [e] && s.algo == Store
    requires Merge.MergedEntries(env, s.files, full, delta, 0, [e], Store) == Ok([Merge.FullAgain(env, e, [1], Store)])
    ensures
      var p := Merge.FullAgain(env, e, [1], Store);
      var w := MergedAhead(OneRank(env), s, full, [delta], 2, 0);
      && w.Ok?
      && w.value.pack == PackOf(env, [p], DescriptorOf(Merger.MergedContext(2, 0, [delta]), Store, 1,
                                                       Merge.MergedRankEntry(2, 0, [p])))
  {
    assert LastOf([delta]) == delta;
    hide Merge.MergedEntries, Merge.FullAgain, PackOf, Merger.MergedContext, Merge.MergedRankEntry;
  }

  // ── The run ──────────────────────────────────────────────────────

  /** After a full and a delta that skipped its tensor a merge can begin over that delta. */
  lemma FoldIsAhead(env: Env, s: State)
    requires Lawful(env) && Describes(env) && Inv(OneRank(env), s) && HasDelta(env, s)
    ensures FoldAhead(OneRank(env), s, DeltaSaved(env), 2, 0) && s.loaders == map[]
  {
    hide *;
    CanFold(env, s);
    MergedIsShort(env, s);
    SameAlgo(env, s);
    MergeIsNew(env, s);
    AheadIs(OneRank(env), s, FullSaved(env), DeltaSaved(env));
  }

  lemma MergeIsNew(env: Env, s: State)
    requires HasDelta(env, s)
    ensures s.merger.MIdle? && 2 !in s.history && OneRank(env).config.rank == 0
  {
    hide FullSaved, DeltaSaved;
  }

  lemma AheadIs(c: Setup, s: State, full: Snapshot, d: Snapshot)
    requires Quiet(s) && s.merger.MIdle? && 2 !in s.history && PinnedIds(s.pins) == {}
    requires Merger.PlanFull(s.mem.snapshots) == Merger.Fold(full, [d])
    requires c.config.rank in d.ranks && !NeedsNoBase(c, d) && Merge.HasRank(full, d, c.config.rank)
    requires var w := MergedAhead(c, s, full, [d], 2, 0); w.Ok? ==> |w.value.pack| < PackFile.U64_LIMIT
    ensures FoldAhead(c, s, d, 2, 0)
  {
    assert LastOf([d]) == d && d in [d];
    hide Merger.PlanFull, MergedAhead, Merge.HasRank, NeedsNoBase, PinnedIds, Merger.Spent;
  }

  /** In any store of one rank, whatever hashes and encodes for it, the gap is two saves away. */
  lemma TwoSavesLeadThere(env: Env, s: State)
    requires Lawful(env) && Describes(env) && Init(OneRank(env), s)
    ensures exists t ::
              Reaches(OneRank(env), s, t) && FoldAhead(OneRank(env), t, DeltaSaved(env), 2, 0) && t.loaders == map[]
  {
    hide *;
    var c := OneRank(env);
    SetupIsGood(env);
    var ready := Opens(c, s);
    var full := SavesFull(env, ready);
    var delta := SavesDelta(env, full);
    FoldIsAhead(env, delta);
    ReachesFurther(c, s, ready, full);
    ReachesFurther(c, s, full, delta);
  }

  lemma SetupIsGood(env: Env)
    requires Lawful(env)
    ensures GoodSetup(OneRank(env))
  {
    hide Lawful;
  }

  // ── One run in which a load fails ────────────────────────────────

  /** The descriptions depend on nothing but the hash: one can be asked for that is short on them. */
  lemma DescriptionsHang(env: Env, other: Env)
    requires env.hash == other.hash
    ensures Descriptions(env) == Descriptions(other)
  {
    assert FullOne(env) == FullOne(other) && SkippedOne(env) == SkippedOne(other);
    assert MergedOne(env) == MergedOne(other);
    hide FullOne, SkippedOne, MergedOne, Placed;
  }

  lemma SomethingDescribes() returns (env: Env)
    ensures Lawful(env) && Describes(env)
  {
    hide Lawful, Descriptions;
    var other := Witness.EnvWith(_ => []);
    var (first, second, merged) := Descriptions(other);
    env := Witness.SomethingToRelyOn(first, second, merged);
    DescriptionsHang(env, other);
  }

  /** An empty store, not yet open. */
  function Nothing(c: Setup): State {
    State(map[], Down, EmptyManifest(c), None, Free, map[], {}, Idle, MIdle, map[], None, map[],
          c.config.tensors.compression)
  }

  lemma StartsEmpty(c: Setup)
    ensures Init(c, Nothing(c))
  {
  }

  lemma FromReaches(c: Setup, s: State, t: State) returns (states: seq<State>, steps: seq<Step>)
    requires Init(c, s) && Reaches(c, s, t)
    ensures Run(c, states, steps) && |states| == |steps| + 1 && states[|steps|] == t
  {
    hide Init, Next, Smooth;
    states, steps :| Leads(c, states, steps) && states[0] == s && states[|steps|] == t;
  }

  /** With nothing failing on the way an unopened store leads to `t`, where load `n` has all it pinned, and fails. */
  ghost predicate LosesItsBase(c: Setup, s: State, t: State, u: State, n: nat, d: Snapshot) {
    && GoodSetup(c) && Init(c, s) && Reaches(c, s, t) && AboutToFail(c, t, n, d) && LoadFinishes(c, t, u, n)
    && n in u.loaders && u.loaders[n].Done? && u.loaders[n].id == d.id && u.loaders[n].result.Err?
  }

  lemma Loses(c: Setup, s: State, t: State, u: State, n: nat, d: Snapshot)
    requires GoodSetup(c) && Init(c, s) && Reaches(c, s, t) && AboutToFail(c, t, n, d) && LoadFinishes(c, t, u, n)
    requires n in u.loaders && u.loaders[n].Done? && u.loaders[n].id == d.id && u.loaders[n].result.Err?
    ensures LosesItsBase(c, s, t, u, n, d)
  {
    hide GoodSetup, Init, Reaches, AboutToFail, LoadFinishes;
  }

  /**
   A store of one rank can be set up, and from nothing on storage, two saves, a merge and one load lead
   to that load failing: nothing else failed, nothing crashed, and every pack it pinned is there.
   */
  lemma ALoadIsLost(n: nat)
    ensures exists c, s, t, u, d :: LosesItsBase(c, s, t, u, n, d)
  {
    hide *;
    var env := SomethingDescribes();
    var c := OneRank(env);
    var s := Nothing(c);
    SetupIsGood(env);
    StartsEmpty(c);
    TwoSavesLeadThere(env, s);
    var r :| Reaches(c, s, r) && FoldAhead(c, r, DeltaSaved(env), 2, 0) && r.loaders == map[];
    var states, steps := FromReaches(c, s, r);
    APinnedLoadCanLoseItsBase(c, states, steps, |steps|, n, DeltaSaved(env), 2, 0);
    var t, u :|
      && Reaches(c, r, t) && AboutToFail(c, t, n, DeltaSaved(env)) && LoadFinishes(c, t, u, n)
      && n in u.loaders && u.loaders[n].Done? && u.loaders[n].id == DeltaSaved(env).id && u.loaders[n].result.Err?;
    ReachesFurther(c, s, r, t);
    Loses(c, s, t, u, n, DeltaSaved(env));
  }
}
