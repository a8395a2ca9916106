/** Where the store keeps less than it promises: for each gap what leads into it. */
module Gaps {
  import opened Bytes
  import opened Compression
  import opened Manifest
  import opened Env
  import opened Shard
  import opened Layout
  import opened Save
  import opened Core
  import opened ManifestIO
  import opened Retain
  import opened Protocol
  import opened Safety
  import opened SafetyFiles
  import opened SafetyLoads
  import opened SafetyPublish
  import opened Theorems
  import opened Progress
  import PackFile = Pack
  import Load
  import Merge
  import MergeKinds
  import Merger

  // ── A pinned load whose base is published away ───────────────────

  /** The merger is about to publish over `d`'s base, and some entry of `d` is kept against that base. */
  predicate BaseAboutToGo(c: Setup, s: State, d: Snapshot) {
    && Quiet(s) && s.merger.MPacked? && d in s.mem.snapshots && d.base == Some(s.merger.base.id)
    && c.config.rank in d.ranks && !NeedsNoBase(c, d)
  }

  lemma LoadBeginsNext(c: Setup, s: State, n: nat, d: Snapshot) returns (t: State)
    requires Quiet(s) && n !in s.loaders && d in s.mem.snapshots
    ensures Reaches(c, s, t) && t == s.(loaders := t.loaders, pins := t.pins)
    ensures n in t.loaders && t.loaders[n] == Pinned(d)
  {
    hide Reaches;
    t := s.(loaders := s.loaders[n := Pinned(d)], pins := s.pins[LoaderActor(n) := Pinning(d)]);
    assert LoadBegins(s, t, n, d);
    hide LoadBegins;
    ReachesNext(c, s, t, LoadBeginsStep(n, d));
  }

  lemma PublishNext(c: Setup, s: State) returns (t: State)
    requires Inv(c, s) && Quiet(s) && s.merger.MPacked?
    ensures Reaches(c, s, t) && t.loaders == s.loaders && t.mode == s.mode && s.merger.base.id !in Ids(t.mem.snapshots)
  {
    hide Reaches, Inv, Ids, Unwritten, Merger.Published, Merger.Spent;
    var spent := Merger.Spent(s.merger.base, s.merger.deltas);
    t := Locked(s.(merger := MPublishing(spent)), MergerActor,
                Merger.Published(s.mem.snapshots, spent, s.merger.record.snapshot), Some(s.mem.snapshots));
    assert MergePublishes(s, t);
    hide MergePublishes;
    ReachesNext(c, s, t, MergePublishesStep);
    PublishedAway(c, s);
  }

  lemma PublishedAway(c: Setup, s: State)
    requires Inv(c, s) && s.merger.MPacked?
    ensures
      var spent := Merger.Spent(s.merger.base, s.merger.deltas);
      s.merger.base.id !in Ids(Merger.Published(s.mem.snapshots, spent, s.merger.record.snapshot))
  {
    InvSays(c, s);
    MergedIsKnown(s);
    MemIsListed(c, s);
    SaverRecordNotListed(s);
    PublishedIsListed(s.history, s.mem.snapshots, s.claim, s.merger.record.snapshot);
    assert s.merger.base.id in Merger.Spent(s.merger.base, s.merger.deltas);
    hide *;
  }

  lemma NotFoundWhenUnlisted(ss: seq<Snapshot>, id: Id)
    requires id !in Ids(ss)
    ensures Find(ss, id).None?
  {
  }

  /**
   The state in which loader `n` is about to take its last step, its pinned files where they were,
   its base not found.
   */
  ghost predicate AboutToFail(c: Setup, s: State, n: nat, d: Snapshot) {
    && n in s.loaders && s.loaders[n].GotBase? && s.loaders[n].snap == d && s.loaders[n].base.None?
    && forall id :: id in Pinning(d) ==> PackOfId(c, id) in s.files
  }

  /** The load begins and reads its pack; the merger publishes; the load looks its base up. */
  lemma BaseGoes(c: Setup, s: State, n: nat, d: Snapshot) returns (t: State)
    requires GoodSetup(c) && Inv(c, s) && BaseAboutToGo(c, s, d) && n !in s.loaders
    ensures Reaches(c, s, t) && Inv(c, t) && AboutToFail(c, t, n, d)
  {
    hide Reaches, Inv, GoodSetup, NeedsNoBase, LoadGetsPack, Ids, Find;
    var pinned := LoadBeginsNext(c, s, n, d);
    ReachesKeeps(c, s, pinned);
    var read := GetsPackNext(c, pinned, n);
    ReachesFurther(c, s, pinned, read);
    ReachesKeeps(c, s, read);
    var published := PublishNext(c, read);
    ReachesFurther(c, s, read, published);
    ReachesKeeps(c, s, published);
    var quiet := QuietAgain(c, published);
    ReachesFurther(c, s, published, quiet);
    t := FindsBaseNext(c, quiet, n);
    ReachesFurther(c, s, quiet, t);
    ReachesKeeps(c, s, t);
    NotFoundWhenUnlisted(quiet.mem.snapshots, s.merger.base.id);
    forall id | id in Pinning(d)
      ensures PackOfId(c, id) in t.files
    {
      PinnedIsThere(c, t, n, id);
    }
  }

  // ── Any fold leads there ─────────────────────────────────────────

  /**
   A full merge can begin, `d` is among the deltas it would fold, and what it would write has a
   length a header can hold.
   */
  predicate FoldAhead(c: Setup, s: State, d: Snapshot, id: Id, createdAt: int) {
    && Quiet(s) && s.merger.MIdle? && id !in s.history
    && var plan := Merger.PlanFull(s.mem.snapshots);
       && plan.Fold? && Merger.Spent(plan.base, plan.deltas) !! PinnedIds(s.pins)
       && d in plan.deltas && c.config.rank in d.ranks && !NeedsNoBase(c, d)
       && Merge.HasRank(plan.base, LastOf(plan.deltas), c.config.rank)
       && var w := MergedAhead(c, s, plan.base, plan.deltas, id, createdAt);
          w.Ok? ==> |w.value.pack| < PackFile.U64_LIMIT
  }

  function MergedAhead(c: Setup, s: State, base: Snapshot, deltas: seq<Snapshot>, id: Id,
                       createdAt: int): Result<Written>
    requires deltas != [] && Merge.HasRank(base, LastOf(deltas), c.config.rank)
  {
    Merge.MergedRank(c.env, s.files, base, LastOf(deltas), c.config.rank, Merger.MergedContext(id, createdAt, deltas),
                     s.algo, 1)
  }

  lemma ListedIsKept(c: Setup, s: State, snap: Snapshot)
    requires Inv(c, s) && snap in s.mem.snapshots
    ensures snap.id in s.history && s.history[snap.id].snapshot == snap
    ensures Merge.Kept(c.env, s.files, snap, c.config.rank, s.history[snap.id].pack, BaseRaws(s.history, snap),
                       s.history[snap.id].contents, s.algo)
  {
    hide Inv, GoodRecord, Merge.Kept, NeedPacks, Holds, FileOk, Ids, SameKind, DiskOk;
    MemIsKnown(c, s, snap);
    NeededWhenListed(s, snap);
    PackIsThere(c, s, snap.id);
    FileIs(c, s, PackOfId(c, snap.id));
    PackFileOk(c, s, snap.id);
    InvKind(c, s);
    InvSays(c, s);
    OpenedRecords(c, s.history, s.algo);
    OneRecord(Opened(c, s.algo), s.history, snap.id);
    InputKept(Opened(c, s.algo), s.history, s.files, snap.id);
  }

  lemma NeededWhenListed(s: State, snap: Snapshot)
    requires snap in s.mem.snapshots
    ensures snap.id in NeedPacks(s)
  {
    hide PinnedIds;
  }

  lemma PackFileOk(c: Setup, s: State, id: Id)
    requires PackOfId(c, id) in s.files && FileOk(c, s.files, s.history, PackOfId(c, id))
    ensures id in s.history && Holds(s.files[PackOfId(c, id)], s.history[id].pack)
  {
    hide Holds;
  }

  lemma OneRecord(c: Setup, h: History, id: Id)
    requires Records(c, h) && id in h
    ensures GoodRecord(c, h, id)
  {
    hide GoodRecord;
  }

  /** A merge of what is listed can be read: nothing it needs is missing, and its algorithm decodes it. */
  lemma FoldReads(c: Setup, s: State, d: Snapshot, id: Id, createdAt: int)
    requires GoodSetup(c) && Inv(c, s) && FoldAhead(c, s, d, id, createdAt)
    ensures
      var plan := Merger.PlanFull(s.mem.snapshots);
      && MergedAhead(c, s, plan.base, plan.deltas, id, createdAt).Ok?
      && LastOf(plan.deltas).id in s.history
  {
    var plan := Merger.PlanFull(s.mem.snapshots);
    var base, last := plan.base, LastOf(plan.deltas);
    assert last in plan.deltas && base in s.mem.snapshots && last in s.mem.snapshots && last.base == Some(base.id);
    assert base.base.None? && Lawful(c.env);
    hide *;
    ListedIsKept(c, s, base);
    ListedIsKept(c, s, last);
    FullBaseRaws(s.history, base);
    DeltaBaseRaws(s.history, last, base);
    FoldIs(c, s, base, last, plan.deltas, id, createdAt);
  }

  lemma DeltaBaseRaws(h: History, last: Snapshot, base: Snapshot)
    requires last.base == Some(base.id) && base.id in h
    ensures BaseRaws(h, last) == Raws(h[base.id].contents)
  {
  }

  lemma FoldIs(c: Setup, s: State, base: Snapshot, last: Snapshot, deltas: seq<Snapshot>, id: Id, createdAt: int)
    requires Lawful(c.env) && deltas != [] && last == LastOf(deltas) && base.id in s.history && last.id in s.history
    requires Merge.HasRank(base, last, c.config.rank)
    requires Merge.Kept(c.env, s.files, base, c.config.rank, s.history[base.id].pack, map[],
                        s.history[base.id].contents, s.algo)
    requires Merge.Kept(c.env, s.files, last, c.config.rank, s.history[last.id].pack, Raws(s.history[base.id].contents),
                        s.history[last.id].contents, s.algo)
    ensures MergedAhead(c, s, base, deltas, id, createdAt).Ok?
  {
    hide Merge.Kept, Merge.MergedRank, ShardHolds, Lawful, Merge.HasRank, Merger.MergedContext;
    MergeKinds.MergedRankHolds(c.env, s.files, base, s.history[base.id].pack, s.history[base.id].contents, last,
                          s.history[last.id].pack, s.history[last.id].contents, c.config.rank,
                          Merger.MergedContext(id, createdAt, deltas), s.algo, 1);
  }

  lemma MergeBeginsNext(c: Setup, s: State, d: Snapshot, id: Id, createdAt: int) returns (t: State)
    requires FoldAhead(c, s, d, id, createdAt)
    ensures
      var plan := Merger.PlanFull(s.mem.snapshots);
      && Reaches(c, s, t)
      && t == s.(claim := Merger.Spent(plan.base, plan.deltas), merger := MReading(plan.base, plan.deltas))
  {
    hide Reaches, Merger.PlanFull, Merger.Spent, PinnedIds, MergedAhead, NeedsNoBase;
    var plan := Merger.PlanFull(s.mem.snapshots);
    t := s.(claim := Merger.Spent(plan.base, plan.deltas), merger := MReading(plan.base, plan.deltas));
    assert MergeBegins(s, t);
    hide MergeBegins;
    ReachesNext(c, s, t, MergeBeginsStep);
  }

  lemma MergeReadsNext(c: Setup, s: State, id: Id, createdAt: int) returns (t: State)
    requires s.mode == Running && s.merger.MReading? && s.merger.deltas != [] && id !in s.history
    requires Merge.HasRank(s.merger.base, LastOf(s.merger.deltas), c.config.rank)
             && LastOf(s.merger.deltas).id in s.history
    requires
      var w := MergedAhead(c, s, s.merger.base, s.merger.deltas, id, createdAt);
      w.Ok? && |w.value.pack| < PackFile.U64_LIMIT
    ensures Reaches(c, s, t) && t.merger.MPacking? && t.merger.base == s.merger.base
    ensures t == s.(merger := t.merger, history := t.history)
  {
    hide Reaches, Merge.MergedRank, Merge.HasRank, Merger.MergedContext, Merger.MergedSnapshot;
    var w := MergedAhead(c, s, s.merger.base, s.merger.deltas, id, createdAt).value;
    var ctx := Merger.MergedContext(id, createdAt, s.merger.deltas);
    var record := Record(Merger.MergedSnapshot(ctx, s.algo, map[c.config.rank := w.entry]), w.pack,
                         s.history[LastOf(s.merger.deltas).id].contents);
    t := s.(merger := MPacking(record, s.merger.base, s.merger.deltas), history := s.history[id := record]);
    assert MergeReads(Opened(c, s.algo), s, t, id, createdAt);
    hide MergeReads, MergedAhead;
    ReachesNext(c, s, t, MergeReadsStep(id, createdAt));
  }

  lemma MergePutsNext(c: Setup, s: State) returns (t: State)
    requires s.mode == Running && s.merger.MPacking?
    ensures Reaches(c, s, t) && t.merger.MPacked? && t.merger.base == s.merger.base
    ensures t == s.(merger := t.merger, files := t.files)
  {
    hide Reaches, Padded;
    var r := s.merger.record;
    t := s.(files := s.files[Path.Pack(r.snapshot.id, c.config.rank) := Padded(r.pack, c.page)],
            merger := MPacked(r, s.merger.base, s.merger.deltas));
    assert MergePuts(c, s, t);
    hide MergePuts;
    ReachesNext(c, s, t, MergePutsStep);
  }

  /** A merge that can begin comes to the point where it is about to publish over `d`'s base. */
  lemma FoldLeadsThere(c: Setup, s: State, d: Snapshot, id: Id, createdAt: int) returns (t: State)
    requires GoodSetup(c) && Inv(c, s) && FoldAhead(c, s, d, id, createdAt)
    ensures Reaches(c, s, t) && Inv(c, t) && BaseAboutToGo(c, t, d) && t.loaders == s.loaders
  {
    FoldReads(c, s, d, id, createdAt);
    FoldsDelta(c, s, d, id, createdAt);
    var begun := MergeBeginsNext(c, s, d, id, createdAt);
    SameAhead(c, s, begun, id, createdAt);
    hide Reaches, Inv, GoodSetup, NeedsNoBase, Merge.HasRank, Merger.PlanFull, Merger.Spent, PinnedIds, MergedAhead;
    var packing := MergeReadsNext(c, begun, id, createdAt);
    t := MergePutsNext(c, packing);
    ReachesFurther(c, s, begun, packing);
    ReachesFurther(c, s, packing, t);
    ReachesKeeps(c, s, t);
  }

  lemma FoldsDelta(c: Setup, s: State, d: Snapshot, id: Id, createdAt: int)
    requires FoldAhead(c, s, d, id, createdAt)
    ensures d in s.mem.snapshots && d.base == Some(Merger.PlanFull(s.mem.snapshots).base.id)
  {
    hide MergedAhead, NeedsNoBase, PinnedIds, Merger.Spent, Merge.HasRank;
  }

  lemma SameAhead(c: Setup, s: State, t: State, id: Id, createdAt: int)
    requires t == s.(claim := t.claim, merger := t.merger)
    ensures forall base, deltas :: deltas != [] && Merge.HasRank(base, LastOf(deltas), c.config.rank) ==>
              MergedAhead(c, t, base, deltas, id, createdAt) == MergedAhead(c, s, base, deltas, id, createdAt)
  {
    hide Merge.MergedRank, Merge.HasRank, Merger.MergedContext;
  }

  /**
   A pin keeps the files of a snapshot and of its base, and still the load fails: the base is looked
   up in the manifest a second time, and a publish in between has taken it out. In any state of any
   run, a full merge that can begin, over a delta that has an entry kept against its base, is enough.
   */
  lemma APinnedLoadCanLoseItsBase(
      c: Setup, states: seq<State>, steps: seq<Step>, i: nat, n: nat, d: Snapshot, id: Id, createdAt: int)
    requires GoodSetup(c) && Run(c, states, steps) && i < |states|
    requires FoldAhead(c, states[i], d, id, createdAt) && n !in states[i].loaders
    ensures exists t, u ::
              && Reaches(c, states[i], t) && AboutToFail(c, t, n, d) && LoadFinishes(c, t, u, n)
              && n in u.loaders && u.loaders[n].Done? && u.loaders[n].id == d.id && u.loaders[n].result.Err?
  {
    hide Run, Inv, GoodSetup, Reaches, LoadFinishes, NeedsNoBase, Pinning, Load.Readable, Load.ReadAll, FoldAhead;
    RunKeeps(c, states, steps, i);
    var s := FoldLeadsThere(c, states[i], d, id, createdAt);
    var t := BaseGoes(c, s, n, d);
    ReachesFurther(c, states[i], s, t);
    var u := FinishEnds(c, t, n);
    LoadFinishesExactly(c, t, u, n);
    FinishNames(c, t, u, n);
  }

  lemma FinishNames(c: Setup, s: State, t: State, n: nat)
    requires LoadFinishes(c, s, t, n)
    ensures n in s.loaders && s.loaders[n].GotBase? && n in t.loaders && t.loaders[n].Done?
            && t.loaders[n].id == s.loaders[n].snap.id
  {
    hide Load.LoadAll, LoaderFinder;
  }

  // ── A base chosen under the lock, written down after it was let go ─

  /** `ids` takes every delta with its base, as a merge's spent ids do for the list it was planned over. */
  predicate TakesDeltas(ss: seq<Snapshot>, ids: set<Id>) {
    forall s :: s in ss && s.base.Some? && s.base.value in ids ==> s.id in ids
  }

  /** Of the fulls in a list, a full merge planned over it spends the newest and no other. */
  lemma SpendsTheNewestFull(planned: seq<Snapshot>, b: Snapshot)
    requires Sound(planned) && Merger.PlanFull(planned).Fold? && b in planned && IsFull(b)
    ensures
      var plan := Merger.PlanFull(planned);
      b.id in Merger.Spent(plan.base, plan.deltas) <==> LastFull(planned) == Some(b)
  {
    var plan := Merger.PlanFull(planned);
    assert LastFull(planned) == Some(plan.base);
    if b.id in Ids(plan.deltas) {
      var s :| s in plan.deltas && s.id == b.id;
      SameId(planned, s, b);
    }
    if b.id == plan.base.id {
      SameId(planned, plan.base, b);
    }
    hide Merger.PlanFull, LastFull;
  }

  /**
   `create_snapshot` chooses a base `b` and lists the new delta `d` in two critical sections with
   nothing held between them. A full merge that publishes between the two, or claims between the two
   and publishes later, leaves `d` its base exactly when `b` was not the newest full of the list the
   merge was planned over.
   */
  lemma CreatedKeepsItsBaseIff(planned: seq<Snapshot>, ss: seq<Snapshot>, b: Snapshot, d: Snapshot, merged: Snapshot)
    requires Sound(planned) && Merger.PlanFull(planned).Fold? && b in planned && IsFull(b)
    requires Sound(ss) && b in ss && d.base == Some(b.id) && d.id !in Ids(ss) && d.id !in Ids(planned)
    requires merged.base.None? && merged.id !in Ids(ss)
    requires TakesDeltas(ss, Merger.Spent(Merger.PlanFull(planned).base, Merger.PlanFull(planned).deltas))
    ensures
      var spent := Merger.Spent(Merger.PlanFull(planned).base, Merger.PlanFull(planned).deltas);
      && (Closed(Merger.Published(ss, spent, merged) + [d]) <==> LastFull(planned) != Some(b))
      && (Closed(Merger.Published(ss + [d], spent, merged)) <==> LastFull(planned) != Some(b))
  {
    var plan := Merger.PlanFull(planned);
    var spent := Merger.Spent(plan.base, plan.deltas);
    assert Merger.Spent(plan.base, plan.deltas) <= Ids(planned);
    hide Merger.PlanFull, LastFull, Closed, Merger.Published, TakesDeltas, Sound, Merger.Spent, IsFull;
    SpendsTheNewestFull(planned, b);
    KeepsItsBaseIff(ss, b, d, spent, merged);
  }

  lemma KeepsItsBaseIff(ss: seq<Snapshot>, b: Snapshot, d: Snapshot, spent: set<Id>, merged: Snapshot)
    requires Sound(ss) && b in ss && d.base == Some(b.id) && d.id !in Ids(ss) && d.id !in spent
    requires merged.base.None? && merged.id !in Ids(ss) && TakesDeltas(ss, spent)
    ensures Closed(Merger.Published(ss, spent, merged) + [d]) <==> b.id !in spent
    ensures Closed(Merger.Published(ss + [d], spent, merged)) <==> b.id !in spent
  {
    Merger.PublishKeepsSound(ss, spent, merged);
    var after, before := Merger.Published(ss, spent, merged) + [d], Merger.Published(ss + [d], spent, merged);
    assert d in after && d in before;
    forall s | s in Merger.Published(ss, spent, merged)
      ensures s in before && s in after
    {
    }
    assert b.id !in spent ==> b in after && b in before;
    hide Sound, Merger.Published, LastFull;
  }

  /** A merge planned over the list in which `b` was found to be the base, before `d` is in it, takes it away. */
  lemma CreatedLosesItsBase(ss: seq<Snapshot>, b: Snapshot, d: Snapshot, merged: Snapshot)
    requires Sound(ss) && LastFull(ss) == Some(b) && Merger.PlanFull(ss).Fold?
    requires d.base == Some(b.id) && d.id !in Ids(ss) && merged.base.None? && merged.id !in Ids(ss)
    ensures
      var spent := Merger.Spent(Merger.PlanFull(ss).base, Merger.PlanFull(ss).deltas);
      !Closed(Merger.Published(ss, spent, merged) + [d]) && !Closed(Merger.Published(ss + [d], spent, merged))
  {
    var plan := Merger.PlanFull(ss);
    forall s | s in ss && s.base.Some? && s.base.value in Merger.Spent(plan.base, plan.deltas)
      ensures s.id in Merger.Spent(plan.base, plan.deltas)
    {
      if s.base.value == plan.base.id {
        assert s in plan.deltas;
      }
    }
    hide Closed, Merger.PlanFull, Merger.Published;
    CreatedKeepsItsBaseIff(ss, ss, b, d, merged);
  }

  // ── A snapshot its user pinned, and a merge ──────────────────────

  /**
   Whatever pins it carries, a snapshot goes in a full merge exactly when it is the newest full or a
   delta against it.
   */
  lemma FullMergeTakesIff(ss: seq<Snapshot>, s: Snapshot, merged: Snapshot)
    requires Sound(ss) && Merger.PlanFull(ss).Fold? && s in ss && merged.id !in Ids(ss)
    ensures
      var plan := Merger.PlanFull(ss);
      s !in Merger.Published(ss, Merger.Spent(plan.base, plan.deltas), merged)
      <==> LastFull(ss) == Some(s) || (LastFull(ss).Some? && s.base == Some(LastFull(ss).value.id))
  {
    var plan := Merger.PlanFull(ss);
    assert LastFull(ss) == Some(plan.base);
    assert s.id in Ids(ss);
    if s.id == plan.base.id {
      SameId(ss, s, plan.base);
    }
    if s.id in Ids(plan.deltas) {
      var t :| t in plan.deltas && t.id == s.id;
      SameId(ss, s, t);
    }
    hide Merger.PlanFull, LastFull;
  }

  /** What a stride fold goes by: the trailing deltas, when there are enough of them and not too many. */
  predicate StrideFolds(ss: seq<Snapshot>, cfg: Merger.MergerConfig) {
    0 < cfg.stride <= PendingDeltas(ss) < cfg.maxChainDepth
  }

  /** In a stride fold it goes exactly when it is a finalized trailing delta of the newest one's base, and older. */
  lemma StrideTakesIff(ss: seq<Snapshot>, cfg: Merger.MergerConfig, s: Snapshot)
    requires Sound(ss) && s in ss
    ensures
      var newest := Newest(ss[|ss| - PendingDeltas(ss)..]);
      s !in Without(ss, Merger.StrideDrops(ss, cfg))
      <==> StrideFolds(ss, cfg) && s in ss[|ss| - PendingDeltas(ss)..] && s.finalized
           && newest.Some? && newest != Some(s) && newest.value.base == s.base
  {
    hide *;
    var tail := ss[|ss| - PendingDeltas(ss)..];
    StrideDropsIs(ss, tail, cfg);
    SoundIsDistinct(ss);
    LeftOut(ss, Merger.StrideDrops(ss, cfg), s);
    if Newest(tail).Some? {
      OlderAgainst(ss, tail, Newest(tail).value, s);
    }
  }

  lemma LeftOut(ss: seq<Snapshot>, ids: set<Id>, s: Snapshot)
    requires s in ss
    ensures s !in Without(ss, ids) <==> s.id in ids
  {
  }

  lemma SoundIsDistinct(ss: seq<Snapshot>)
    requires Sound(ss)
    ensures Distinct(ss)
  {
  }

  /** What a stride fold drops: the trailing finalized deltas of the newest one's base, but that one. */
  lemma StrideDropsIs(ss: seq<Snapshot>, tail: seq<Snapshot>, cfg: Merger.MergerConfig)
    requires tail == ss[|ss| - PendingDeltas(ss)..]
    ensures forall t :: t in tail ==> t in ss
    ensures Newest(tail).Some? ==> Newest(tail).value in tail
    ensures StrideFolds(ss, cfg) && Newest(tail).Some? ==>
              Merger.StrideDrops(ss, cfg)
              == set t | t in tail && t.finalized && t.id != Newest(tail).value.id
                && t.base == Newest(tail).value.base :: t.id
    ensures !StrideFolds(ss, cfg) || Newest(tail).None? ==> Merger.StrideDrops(ss, cfg) == {}
  {
    hide PendingDeltas, Newest;
  }

  lemma OlderAgainst(ss: seq<Snapshot>, tail: seq<Snapshot>, newest: Snapshot, s: Snapshot)
    requires Distinct(ss) && s in ss && newest in tail && forall t :: t in tail ==> t in ss
    ensures s.id in (set t | t in tail && t.finalized && t.id != newest.id && t.base == newest.base :: t.id)
            <==> s in tail && s.finalized && s != newest && s.base == newest.base
  {
    hide Distinct;
    forall t | t in tail && t.id == s.id
      ensures t == s
    {
      SameId(ss, s, t);
    }
  }

  /** A pin is kept by retention and by no merge: folded, the pinned snapshot is gone. */
  lemma APinStopsNoMerge(m: Manifest, s: Snapshot, merged: Snapshot)
    requires Sound(m.snapshots) && Merger.PlanFull(m.snapshots).Fold? && merged.id !in Ids(m.snapshots)
    requires s in m.snapshots && s.pinned && s.base.Some? && LastFull(m.snapshots).Some?
    ensures s in RetainedOf(m)
    ensures
      var plan := Merger.PlanFull(m.snapshots);
      s in Merger.Published(m.snapshots, Merger.Spent(plan.base, plan.deltas), merged)
      <==> s.base != Some(LastFull(m.snapshots).value.id)
  {
    assert s.id in Protected(m);
    hide RetainedOf, Merger.PlanFull, LastFull, Merger.Published, Protected;
    RetentionKeeps(m);
    FullMergeTakesIff(m.snapshots, s, merged);
  }
}
