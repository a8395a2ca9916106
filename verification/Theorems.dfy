/** What holds of every run: saves, folds, merges, evictions, loads, crashes and recoveries in any interleaving. */
module Theorems {
  import opened Bytes
  import opened Manifest
  import opened Env
  import opened Tensor
  import opened Shard
  import opened Layout
  import opened Save
  import opened Core
  import opened ManifestIO
  import opened Retain
  import opened Protocol
  import opened Safety
  import opened SafetyFiles
  import opened SafetyLoads
  import opened SafetyPublish
  import opened SafetyBoot
  import opened Steps
  import Load
  import Merger

  // ── The invariant holds throughout ───────────────────────────────

  lemma StepKeeps(c: Setup, s: State, t: State, step: Step)
    requires GoodSetup(c) && Inv(c, s) && Next(c, s, t, step)
    ensures Inv(c, t)
  {
    hide Inv, GoodSetup, PutRanks, PutIndex, PersistFails, SaveBegins, SaveReads, SaveFails, SavePuts, SavePublishes,
      SaverSweeps, MergerSweeps, Deletes, StrideBegins, MergeBegins, MergeReads, MergeFails, MergePuts, MergePublishes,
      LoadBegins, LoadGetsPack, LoadFindsBase, LoadFinishes, LoadFails, Crashes, NamesBegin, NameReads,
      NamesEnd, Restarts, BootEnds;
    match step
    case PutRanksStep(snap) => PutRanksKeeps(c, s, t, snap);
    case PutIndexStep => PutIndexKeeps(c, s, t);
    case PersistFailsStep => PersistFailsKeeps(c, s, t);
    case SaveBeginsStep(job) => SaveBeginsKeeps(c, s, t, job);
    case SaveReadsStep => OpenedSaveReadsKeeps(c, s, t);
    case SaveFailsStep => SaveFailsKeeps(c, s, t);
    case SavePutsStep => SavePutsKeeps(c, s, t);
    case SavePublishesStep => SavePublishesKeeps(c, s, t);
    case SaverSweepsStep(next) => SaverSweepsKeep(c, s, t, next);
    case MergerSweepsStep(next) => MergerSweepsKeep(c, s, t, next);
    case DeletesStep(path) => DeletesKeeps(c, s, t, path);
    case StrideBeginsStep => StrideBeginsKeeps(c, s, t);
    case MergeBeginsStep => MergeBeginsKeeps(c, s, t);
    case MergeReadsStep(id, createdAt) => OpenedMergeReadsKeeps(c, s, t, id, createdAt);
    case MergeFailsStep => MergeFailsKeeps(c, s, t);
    case MergePutsStep => MergePutsKeeps(c, s, t);
    case MergePublishesStep => MergePublishesKeeps(c, s, t);
    case LoadBeginsStep(n, snap) => LoadBeginsKeeps(c, s, t, n, snap);
    case LoadGetsPackStep(n) => LoadGetsPackKeeps(c, s, t, n);
    case LoadFindsBaseStep(n) => LoadFindsBaseKeeps(c, s, t, n);
    case LoadFinishesStep(n) => LoadFinishesKeeps(c, s, t, n);
    case LoadFailsStep(n, error) => LoadFailsKeeps(c, s, t, n, error);
    case CrashesStep => CrashesKeeps(c, s, t);
    case NamesBeginStep(n, snap, asked) => NamesBeginKeeps(c, s, t, n, snap, asked);
    case NameReadsStep(n) => NameReadsKeeps(c, s, t, n);
    case NamesEndStep(n) => NamesEndKeeps(c, s, t, n);
    case RestartsStep(order, packsOf, algo) => RestartsKeeps(c, s, t, order, packsOf, algo);
    case BootEndsStep => BootEndsKeeps(c, s, t);
  }

  lemma OpenedSaveReadsKeeps(c: Setup, s: State, t: State)
    requires GoodSetup(c) && Inv(c, s) && SaveReads(Opened(c, s.algo), s, t)
    ensures Inv(c, t)
  {
    hide *;
    InvKind(c, s);
    OpenedAgrees(c, s, s.algo);
    SaveReadsKeeps(Opened(c, s.algo), s, t);
    OpenedAgrees(c, t, s.algo);
  }

  lemma OpenedMergeReadsKeeps(c: Setup, s: State, t: State, id: Id, createdAt: int)
    requires GoodSetup(c) && Inv(c, s) && MergeReads(Opened(c, s.algo), s, t, id, createdAt)
    ensures Inv(c, t)
  {
    hide *;
    InvKind(c, s);
    OpenedAgrees(c, s, s.algo);
    MergeReadsKeeps(Opened(c, s.algo), s, t, id, createdAt);
    OpenedAgrees(c, t, s.algo);
  }

  lemma {:induction false} RunKeeps(c: Setup, states: seq<State>, steps: seq<Step>, i: nat)
    requires GoodSetup(c) && Run(c, states, steps) && i < |states|
    ensures Inv(c, states[i])
  {
    hide Inv, GoodSetup, Next, Init;
    if i == 0 {
      InitKeeps(c, states[0]);
    } else {
      RunKeeps(c, states, steps, i - 1);
      StepKeeps(c, states[i - 1], states[i], steps[i - 1]);
    }
  }

  lemma NextAt(c: Setup, states: seq<State>, steps: seq<Step>, k: nat)
    requires Run(c, states, steps) && k < |steps|
    ensures |states| == |steps| + 1 && Next(c, states[k], states[k + 1], steps[k])
  {
    hide Next, Init;
  }

  // ── What an id stands for never changes ──────────────────────────

  lemma {:induction false} RunHistoryOnlyGrows(c: Setup, states: seq<State>, steps: seq<Step>, i: nat, j: nat)
    requires Run(c, states, steps) && i <= j < |states|
    ensures forall id ::
              id in states[i].history ==> id in states[j].history && states[j].history[id] == states[i].history[id]
    decreases j
  {
    hide Next, Init;
    if i < j {
      RunHistoryOnlyGrows(c, states, steps, i, j - 1);
      HistoryOnlyGrows(c, states[j - 1], states[j], steps[j - 1]);
    }
  }

  /** `job` was handed to a save somewhere in the first `i` steps. */
  predicate WasSaved(steps: seq<Step>, i: nat, job: SaveJob)
    requires i <= |steps|
  {
    exists j :: 0 <= j < i && steps[j] == SaveBeginsStep(job)
  }

  /** Which save each id stands for: a save its own, a merge the one its newest delta stands for. */
  function OriginsAfter(s: State, step: Step, origins: map<Id, SaveJob>): map<Id, SaveJob> {
    if step.SaveReadsStep? && s.saver.Diffing? then origins[s.saver.job.ctx.id := s.saver.job]
    else if step.MergeReadsStep? && s.merger.MReading? && s.merger.deltas != [] && LastOf(s.merger.deltas).id in origins
    then origins[step.id := origins[LastOf(s.merger.deltas).id]]
    else origins
  }

  function Origins(states: seq<State>, steps: seq<Step>, i: nat): map<Id, SaveJob>
    requires i < |states| && i <= |steps|
  {
    if i == 0 then map[] else OriginsAfter(states[i - 1], steps[i - 1], Origins(states, steps, i - 1))
  }

  /** Every record holds what its save was given, and nothing else is recorded. */
  ghost predicate OriginsHold(c: Setup, s: State, steps: seq<Step>, i: nat, origins: map<Id, SaveJob>)
    requires i <= |steps|
  {
    && origins.Keys == s.history.Keys
    && forall id :: id in origins ==>
         WasSaved(steps, i, origins[id])
         && s.history[id].contents == ContentsOf(c.env, c.config.tensors.policy, origins[id].tensors)
  }

  lemma SavedStays(steps: seq<Step>, i: nat, job: SaveJob)
    requires i < |steps| && WasSaved(steps, i, job)
    ensures WasSaved(steps, i + 1, job)
  {
  }

  predicate NoneChanges(before: map<Id, SaveJob>, after: map<Id, SaveJob>) {
    forall id :: id in before ==> id in after && after[id] == before[id]
  }

  lemma OriginsStep(c: Setup, s: State, t: State, steps: seq<Step>, i: nat, origins: map<Id, SaveJob>)
    requires i < |steps| && Next(c, s, t, steps[i]) && OriginsHold(c, s, steps, i, origins)
    requires s.saver.Diffing? ==> WasSaved(steps, i, s.saver.job)
    ensures OriginsHold(c, t, steps, i + 1, OriginsAfter(s, steps[i], origins))
    ensures t.saver.Diffing? ==> WasSaved(steps, i + 1, t.saver.job)
    ensures NoneChanges(origins, OriginsAfter(s, steps[i], origins))
  {
    hide ContentsOf, WasSaved;
    HistoryOnlyGrows(c, s, t, steps[i]);
    MakerRecords(c, s, t, steps[i]);
    hide Next;
    var more := OriginsAfter(s, steps[i], origins);
    forall id | id in more
      ensures WasSaved(steps, i + 1, more[id])
    {
      SavedStays(steps, i, more[id]);
    }
    if t.saver.Diffing? {
      SaverJobIsNew(c, s, t, steps[i]);
      if s.saver == t.saver {
        SavedStays(steps, i, s.saver.job);
      } else {
        BegunIsSaved(steps, i, t.saver.job);
      }
    }
  }

  lemma BegunIsSaved(steps: seq<Step>, i: nat, job: SaveJob)
    requires i < |steps| && steps[i] == SaveBeginsStep(job)
    ensures WasSaved(steps, i + 1, job)
  {
  }

  /** Everything the store ever records is what its own save was given: merges add nothing of their own. */
  lemma {:induction false} EveryRecordHasItsSave(c: Setup, states: seq<State>, steps: seq<Step>, i: nat)
    requires Run(c, states, steps) && i < |states|
    ensures OriginsHold(c, states[i], steps, i, Origins(states, steps, i))
    ensures states[i].saver.Diffing? ==> WasSaved(steps, i, states[i].saver.job)
  {
    hide Next, OriginsHold, WasSaved, OriginsAfter;
    if i > 0 {
      EveryRecordHasItsSave(c, states, steps, i - 1);
      OriginsStep(c, states[i - 1], states[i], steps, i - 1, Origins(states, steps, i - 1));
    } else {
      InitHasNoOrigins(c, states[0], steps);
    }
  }

  lemma InitHasNoOrigins(c: Setup, s: State, steps: seq<Step>)
    requires Init(c, s)
    ensures OriginsHold(c, s, steps, 0, map[])
  {
  }

  /** An id stands for the same save as long as the run goes on. */
  lemma {:induction false} OriginsStay(c: Setup, states: seq<State>, steps: seq<Step>, i: nat, j: nat)
    requires Run(c, states, steps) && i <= j < |states|
    ensures NoneChanges(Origins(states, steps, i), Origins(states, steps, j))
    decreases j
  {
    hide Next, OriginsHold, WasSaved, OriginsAfter, Init;
    if i < j {
      OriginsStay(c, states, steps, i, j - 1);
      EveryRecordHasItsSave(c, states, steps, j - 1);
      OriginsStep(c, states[j - 1], states[j], steps, j - 1, Origins(states, steps, j - 1));
    }
  }

  // ── Loading ──────────────────────────────────────────────────────

  /** A load of `id` from these files and this list gives exactly what `contents` reads as. */
  ghost predicate LoadsAs(c: Setup, files: Files, ss: seq<Snapshot>, id: Id, contents: Contents) {
    var out := Load.Load(c.env, files, ss, id, c.config.rank);
    && (out.Ok? <==> Load.Readable(c.env, contents))
    && (out.Ok? ==> out.value == Load.ReadAll(c.env, contents))
  }

  lemma ListedLoads(c: Setup, s: State, ss: seq<Snapshot>, snap: Snapshot)
    requires GoodSetup(c) && Inv(c, s) && Listed(s.history, ss) && snap in ss
    requires forall x :: x in ss ==> PackOfId(c, x.id) in s.files
    ensures snap.id in s.history && LoadsAs(c, s.files, ss, snap.id, s.history[snap.id].contents)
  {
    hide Inv, Load.Load, Load.Stored, Load.Readable, Load.ReadAll, GoodSetup;
    Merger.FindIs(ss, snap);
    RecordIsStored(c, s, snap);
    var h := s.history;
    var baseId := if snap.base.Some? then snap.base.value else snap.id;
    if snap.base.Some? {
      var b :| b in ss && b.id == snap.base.value;
      Merger.FindIs(ss, b);
      RecordIsStored(c, s, b);
    }
    assert Load.Resident(c.env, s.files, ss, snap, c.config.rank, h[snap.id].pack, h[snap.id].contents,
                         h[baseId].pack, h[baseId].contents);
    hide Load.Resident;
    Load.LoadIsContents(c.env, s.files, ss, snap, c.config.rank, h[snap.id].pack, h[snap.id].contents, h[baseId].pack,
                        h[baseId].contents);
  }

  /** In every state of every run, each snapshot the manifest lists loads exactly what it stands for. */
  lemma EveryListedSnapshotLoads(c: Setup, states: seq<State>, steps: seq<Step>, i: nat, snap: Snapshot)
    requires GoodSetup(c) && Run(c, states, steps) && i < |states| && snap in states[i].mem.snapshots
    ensures snap.id in states[i].history
    ensures LoadsAs(c, states[i].files, states[i].mem.snapshots, snap.id, states[i].history[snap.id].contents)
  {
    var s := states[i];
    hide Run, Inv, LoadsAs, Listed, GoodSetup;
    RunKeeps(c, states, steps, i);
    MemIsListed(c, s);
    forall x | x in s.mem.snapshots
      ensures PackOfId(c, x.id) in s.files
    {
      assert x.id in NeedPacks(s);
      PackIsThere(c, s, x.id);
    }
    ListedLoads(c, s, s.mem.snapshots, snap);
  }

  /**
   Whatever instant a run is cut at, between any two writes or deletes: the index then on
   storage reads back, no delta in it lacks its base, and every snapshot it names loads exactly
   what it stands for.
   */
  lemma EveryCrashIsConsistent(c: Setup, states: seq<State>, steps: seq<Step>, i: nat)
    requires GoodSetup(c) && Run(c, states, steps) && i < |states|
    ensures
      var read := LoadManifest(c.env, states[i].files, map[]);
      && read.Ok?
      && (read.value.Some? ==>
            var ss := read.value.value.snapshots;
            && Sound(ss)
            && forall snap :: snap in ss ==>
                 snap.id in states[i].history
                 && LoadsAs(c, states[i].files, ss, snap.id, states[i].history[snap.id].contents))
  {
    var s := states[i];
    hide Run, Inv, LoadsAs, LoadManifest, FilesAgree, GoodSetup;
    RunKeeps(c, states, steps, i);
    IndexReadsBack(c, s);
    if s.indexed.Some? {
      IndexedRanks(c, s);
      var ss := s.indexed.value.snapshots;
      forall snap | snap in ss
        ensures snap.id in s.history && LoadsAs(c, s.files, ss, snap.id, s.history[snap.id].contents)
      {
        ListedLoads(c, s, ss, snap);
      }
    }
  }

  /** A load that ran beside saves, merges and retention returned what the snapshot stands for, or an error. */
  lemma EveryFinishedLoadIsRight(c: Setup, states: seq<State>, steps: seq<Step>, i: nat, n: nat)
    requires GoodSetup(c) && Run(c, states, steps) && i < |states| && n in states[i].loaders
    ensures
      var l, h := states[i].loaders[n], states[i].history;
      && (l.Done? && l.result.Ok? ==>
            l.id in h && Load.Readable(c.env, h[l.id].contents)
              && l.result.value == Load.ReadAll(c.env, h[l.id].contents))
      && (l.Told? && l.result.Ok? ==> l.id in h && RightSoFar(c, h[l.id].contents, l.asked, l.result.value))
  {
    hide Run, Inv, LoadersOk, RightSoFar;
    RunKeeps(c, states, steps, i);
    LoaderIs(c, states[i], n);
  }

  /** What loader `n` looked the base up to holds from that step on, until the load ends. */
  ghost predicate LookedUpAt(states: seq<State>, steps: seq<Step>, k: nat, i: nat, n: nat) {
    && k < i < |states| && k < |steps| && steps[k] == LoadFindsBaseStep(n)
    && forall j :: k < j <= i ==> n in states[j].loaders && states[j].loaders[n].GotBase?
  }

  lemma {:induction false} LookupStands(c: Setup, states: seq<State>, steps: seq<Step>, k: nat, i: nat, n: nat)
    requires Run(c, states, steps) && LookedUpAt(states, steps, k, i, n)
    ensures n in states[k].loaders && states[k].loaders[n].GotPack?
    ensures
      var snap := states[k].loaders[n].snap;
      && states[i].loaders[n].snap == snap
      && states[i].loaders[n].base == (if snap.base.Some? then Find(states[k].mem.snapshots, snap.base.value) else None)
    decreases i
  {
    hide Next;
    NextAt(c, states, steps, i - 1);
    if i == k + 1 {
      FindsBaseIs(c, states[k], states[i], n);
    } else {
      LookupStands(c, states, steps, k, i - 1, n);
      GotBaseStays(c, states[i - 1], states[i], steps[i - 1], n);
    }
  }

  lemma FindsBaseIs(c: Setup, s: State, t: State, n: nat)
    requires Next(c, s, t, LoadFindsBaseStep(n))
    ensures n in s.loaders && s.loaders[n].GotPack?
    ensures
      var snap := s.loaders[n].snap;
      && n in t.loaders
      && t.loaders[n]
         == GotBase(snap, s.loaders[n].pack, if snap.base.Some? then Find(s.mem.snapshots, snap.base.value) else None)
  {
    hide Find;
  }

  /**
   A load beside everybody else, from its second lookup of the base at step `k` to its last step `i`:
   it gives exactly what the snapshot stands for, unless a cast cannot be undone, or an entry is kept
   against a base that the manifest no longer listed at that lookup.
   */
  lemma EveryLoadSucceedsExactly(c: Setup, states: seq<State>, steps: seq<Step>, k: nat, i: nat, n: nat)
    requires GoodSetup(c) && Run(c, states, steps) && LookedUpAt(states, steps, k, i, n)
    requires i < |steps| && steps[i] == LoadFinishesStep(n)
    ensures n in states[i + 1].loaders && states[i + 1].loaders[n].Done?
    ensures
      var snap, result := states[i].loaders[n].snap, states[i + 1].loaders[n].result;
      && snap.id in states[i].history && c.config.rank in snap.ranks
      && var contents := states[i].history[snap.id].contents;
         && (result.Ok? <==>
               Load.Readable(c.env, contents) && (BaseListed(states[k].mem.snapshots, snap) || NeedsNoBase(c, snap)))
         && (result.Ok? ==> result.value == Load.ReadAll(c.env, contents))
  {
    hide Run, Inv, GoodSetup, Load.Readable, Load.ReadAll, NeedsNoBase, ShardHolds, Holds, Known, Find, Raws;
    RunKeeps(c, states, steps, i);
    LookupStands(c, states, steps, k, i, n);
    LastStepIs(c, states, steps, i, n);
    LoadFinishesExactly(c, states[i], states[i + 1], n);
    OwnShard(c, states[i], n);
  }

  lemma LastStepIs(c: Setup, states: seq<State>, steps: seq<Step>, i: nat, n: nat)
    requires Run(c, states, steps) && i < |steps| && steps[i] == LoadFinishesStep(n)
    ensures |states| == |steps| + 1 && LoadFinishes(c, states[i], states[i + 1], n)
  {
    hide LoadFinishes, Init;
  }

  /** One name of a load of some, read beside everybody else: the same, with the base looked up at that very step. */
  lemma EveryNameReadsExactly(c: Setup, states: seq<State>, steps: seq<Step>, i: nat, n: nat)
    requires GoodSetup(c) && Run(c, states, steps) && i < |steps| && steps[i] == NameReadsStep(n)
    ensures n in states[i].loaders && states[i].loaders[n].Fetching? && n in states[i + 1].loaders
    ensures
      var l, after := states[i].loaders[n], states[i + 1].loaders[n];
      && l.k < |l.asked| && l.snap.id in states[i].history && c.config.rank in l.snap.ranks
      && var name, contents := l.asked[l.k], states[i].history[l.snap.id].contents;
         && (after.Fetching? <==>
               && name in contents && Read(c.env, contents[name]).Ok?
               && (BaseListed(states[i].mem.snapshots, l.snap)
                   || !Load.NameNeedsBase(l.snap.ranks[c.config.rank].tensors, name)))
         && (after.Fetching? ==>
               after == Fetching(l.snap, l.asked, l.k + 1, l.out[name := Read(c.env, contents[name]).value]))
         && (!after.Fetching? ==> after.Told? && after.result.Err?)
  {
    hide Run, Inv, GoodSetup, Read, BaseListed, Load.NameNeedsBase, NameRead;
    NameStepIs(c, states, steps, i, n);
    RunKeeps(c, states, steps, i);
    NameReadExactly(c, states[i], n);
  }

  lemma NameStepIs(c: Setup, states: seq<State>, steps: seq<Step>, i: nat, n: nat)
    requires Run(c, states, steps) && i < |steps| && steps[i] == NameReadsStep(n)
    ensures |states| == |steps| + 1 && NameReads(c, states[i], states[i + 1], n)
  {
    hide NameReads, Init;
  }

  /** While a load is under way the packs it pinned stay where they are. */
  lemma PinnedPacksStay(c: Setup, states: seq<State>, steps: seq<Step>, i: nat, n: nat)
    requires GoodSetup(c) && Run(c, states, steps) && i < |states|
    requires n in states[i].loaders && !Finished(states[i].loaders[n])
    ensures
      var snap := states[i].loaders[n].snap;
      PackOfId(c, snap.id) in states[i].files && (snap.base.Some? ==> PackOfId(c, snap.base.value) in states[i].files)
  {
    var s := states[i];
    assert forall snap: Snapshot :: snap.id in Pinning(snap) && (snap.base.Some? ==> snap.base.value in Pinning(snap));
    hide Run, Inv, LoadersOk;
    RunKeeps(c, states, steps, i);
    LoaderIs(c, s, n);
    PinsAreIn(s.pins, LoaderActor(n));
    forall id | id in Pinning(s.loaders[n].snap)
      ensures PackOfId(c, id) in s.files
    {
      assert id in NeedPacks(s);
      PackIsThere(c, s, id);
    }
  }

  // ── Deleting and waiting ─────────────────────────────────────────

  /**
   A file goes only when its snapshot is in neither the manifest nor the index on storage, no
   failed persist would bring it back, and nobody holds a pin on it.
   */
  lemma NothingNeededIsDeleted(c: Setup, states: seq<State>, steps: seq<Step>, i: nat, p: Path)
    requires GoodSetup(c) && Run(c, states, steps) && i < |steps| && p in states[i].files && p !in states[i + 1].files
    ensures
      var s := states[i];
      && DirOf(p).Some?
      && DirOf(p).value !in Ids(s.mem.snapshots) && DirOf(p).value !in IndexedIds(s) && DirOf(p).value !in UndoIds(s)
      && DirOf(p).value !in PinnedIds(s.pins)
  {
    hide Inv, Next;
    RunKeeps(c, states, steps, i);
    OnlyDeletesDelete(c, states[i], states[i + 1], steps[i], p);
    hide Run, Ids, PinnedIds, Dying;
    DyingIsUnneeded(c, states[i], DirOf(p).value);
  }

  /** Retention, folds, merges, crashes and recoveries all leave every delta its base. */
  lemma ManifestStaysSound(c: Setup, states: seq<State>, steps: seq<Step>, i: nat)
    requires GoodSetup(c) && Run(c, states, steps) && i < |states|
    ensures Sound(states[i].mem.snapshots)
  {
    hide Run, Inv;
    RunKeeps(c, states, steps, i);
    MemIsListed(c, states[i]);
  }

  // ── Uncast saves come back bit for bit ───────────────────────────

  /** No rule of the policy casts any of them. */
  predicate AllUncast(c: Setup, ts: seq<TensorData>) {
    forall i :: 0 <= i < |ts| ==> Uncast(c.config.tensors.policy, ts[i])
  }

  function DataTo(ts: seq<TensorData>, n: nat): map<string, Bytes>
    requires n <= |ts|
  {
    if n == 0 then map[] else DataTo(ts, n - 1)[ts[n - 1].name := ts[n - 1].data]
  }

  lemma {:induction false} UncastContents(c: Setup, ts: seq<TensorData>, n: nat)
    requires GoodSetup(c) && AllUncast(c, ts) && n <= |ts|
    ensures
      var contents := ContentsTo(c.env, c.config.tensors.policy, ts, n);
      && contents.Keys == DataTo(ts, n).Keys
      && forall m :: m in contents ==> Read(c.env, contents[m]) == Ok(DataTo(ts, n)[m])
  {
    hide Kept, Uncast, Lawful;
    if n > 0 {
      UncastContents(c, ts, n - 1);
      assert Injective(c.env.hash) by {
        InjectiveHash(c.env);
      }
      UncastIsHeldExactly(c.env, c.config.tensors.policy, ts, n - 1);
    }
  }

  lemma InjectiveHash(env: Env)
    requires Lawful(env)
    ensures Injective(env.hash)
  {
  }

  /** The contents of an uncast save read as the very tensors it was given. */
  lemma UncastReads(c: Setup, ts: seq<TensorData>)
    requires GoodSetup(c) && AllUncast(c, ts)
    ensures
      var contents := ContentsOf(c.env, c.config.tensors.policy, ts);
      Load.Readable(c.env, contents) && Load.ReadAll(c.env, contents) == DataTo(ts, |ts|)
  {
    UncastContents(c, ts, |ts|);
    hide Read, ContentsTo, DataTo;
  }

  /**
   The whole run against the abstract store: whatever was folded, merged, evicted, crashed and
   recovered in between, a snapshot in the manifest loads what the save it stands for was given,
   bit for bit where no rule cast it.
   */
  lemma EverySnapshotLoadsItsSave(c: Setup, states: seq<State>, steps: seq<Step>, i: nat, snap: Snapshot)
    requires GoodSetup(c) && Run(c, states, steps) && i < |states| && snap in states[i].mem.snapshots
    ensures snap.id in Origins(states, steps, i)
    ensures
      var job := Origins(states, steps, i)[snap.id];
      && WasSaved(steps, i, job)
      && LoadsAs(c, states[i].files, states[i].mem.snapshots, snap.id,
                 ContentsOf(c.env, c.config.tensors.policy, job.tensors))
      && (AllUncast(c, job.tensors) ==>
            Load.Load(c.env, states[i].files, states[i].mem.snapshots, snap.id, c.config.rank)
            == Ok(DataTo(job.tensors, |job.tensors|)))
  {
    EveryListedSnapshotLoads(c, states, steps, i, snap);
    EveryRecordHasItsSave(c, states, steps, i);
    var job := Origins(states, steps, i)[snap.id];
    hide Run, Load.Load, Load.Readable, Load.ReadAll, ContentsOf, DataTo, AllUncast, WasSaved, GoodSetup, Origins;
    if AllUncast(c, job.tensors) {
      UncastReads(c, job.tensors);
    }
  }

  predicate StandsFor(states: seq<State>, steps: seq<Step>, i: nat, id: Id, job: SaveJob)
    requires i < |states| && i <= |steps|
  {
    id in Origins(states, steps, i) && Origins(states, steps, i)[id] == job
  }

  lemma SavedStandsForItself(states: seq<State>, steps: seq<Step>, k: nat)
    requires k + 1 < |states| && k < |steps| && steps[k].SaveReadsStep? && states[k].saver.Diffing?
    ensures StandsFor(states, steps, k + 1, states[k].saver.job.ctx.id, states[k].saver.job)
  {
  }

  lemma StillStandsFor(c: Setup, states: seq<State>, steps: seq<Step>, i: nat, j: nat, id: Id, job: SaveJob)
    requires Run(c, states, steps) && i <= j < |states| && StandsFor(states, steps, i, id, job)
    ensures StandsFor(states, steps, j, id, job)
  {
    OriginsStay(c, states, steps, i, j);
    hide Next, Init, Origins;
  }

  lemma LoadsItsSave(c: Setup, states: seq<State>, steps: seq<Step>, i: nat, snap: Snapshot, job: SaveJob)
    requires GoodSetup(c) && Run(c, states, steps) && i < |states| && snap in states[i].mem.snapshots
    requires StandsFor(states, steps, i, snap.id, job) && AllUncast(c, job.tensors)
    ensures Load.Load(c.env, states[i].files, states[i].mem.snapshots, snap.id, c.config.rank)
            == Ok(DataTo(job.tensors, |job.tensors|))
  {
    hide Next, Init, Origins, Load.Load, DataTo, AllUncast, LoadsAs, GoodSetup, WasSaved, ContentsOf;
    EverySnapshotLoadsItsSave(c, states, steps, i, snap);
  }

  /** So a snapshot that was saved, not merged, loads its own save's tensors, for as long as it is listed. */
  lemma ASaveLoadsItself(c: Setup, states: seq<State>, steps: seq<Step>, k: nat, i: nat, snap: Snapshot)
    requires GoodSetup(c) && Run(c, states, steps) && k < i < |states|
    requires steps[k].SaveReadsStep? && states[k].saver.Diffing? && AllUncast(c, states[k].saver.job.tensors)
    requires snap in states[i].mem.snapshots && snap.id == states[k].saver.job.ctx.id
    ensures
      var ts := states[k].saver.job.tensors;
      Load.Load(c.env, states[i].files, states[i].mem.snapshots, snap.id, c.config.rank) == Ok(DataTo(ts, |ts|))
  {
    hide *;
    RunIsLong(c, states, steps);
    SavedStandsForItself(states, steps, k);
    StillStandsFor(c, states, steps, k + 1, i, snap.id, states[k].saver.job);
    LoadsItsSave(c, states, steps, i, snap, states[k].saver.job);
  }

  lemma RunIsLong(c: Setup, states: seq<State>, steps: seq<Step>)
    requires Run(c, states, steps)
    ensures |states| == |steps| + 1
  {
    hide Next, Init;
  }

  /**
   The fold in hand in state `k` was begun at step `b`, over a list that ends, of the deltas on its
   newest full, in `d`.
   */
  predicate BeganOver(states: seq<State>, steps: seq<Step>, b: nat, k: nat, base: Snapshot, d: Snapshot) {
    && b < k < |states| && k <= |steps| && steps[b] == MergeBeginsStep
    && LastFull(states[b].mem.snapshots) == Some(base) && IsNewestDelta(states[b].mem.snapshots, base.id, d)
    && forall j :: b < j <= k ==> Folding(states[j].merger) && states[j].merger.base == base
  }

  lemma MergeBeginsOver(s: State, t: State)
    requires MergeBegins(s, t)
    ensures t.merger.MReading? && t.merger.deltas != [] && LastFull(s.mem.snapshots) == Some(t.merger.base)
    ensures IsNewestDelta(s.mem.snapshots, t.merger.base.id, LastOf(t.merger.deltas))
  {
    Merger.FoldsIntoNewest(s.mem.snapshots);
    hide Merger.PlanFull, LastFull, Merger.Spent, PinnedIds;
  }

  lemma {:induction false} MergeHasBegun(c: Setup, states: seq<State>, steps: seq<Step>, k: nat) returns (b: nat)
    requires Run(c, states, steps) && k < |states| && k <= |steps| && Folding(states[k].merger)
    ensures b < k && states[k].merger.deltas != [] && MergeBegins(states[b], states[b + 1])
    ensures states[b + 1].merger.MReading? && states[b + 1].merger.deltas == states[k].merger.deltas
    ensures BeganOver(states, steps, b, k, states[k].merger.base, LastOf(states[k].merger.deltas))
  {
    hide Next, LastFull, IsNewestDelta, MergeBegins, LastOf;
    assert k > 0;
    NextAt(c, states, steps, k - 1);
    MergeIsNew(c, states[k - 1], states[k], steps[k - 1]);
    if steps[k - 1] == MergeBeginsStep && MergeBegins(states[k - 1], states[k]) {
      b := k - 1;
      MergeBeginsOver(states[b], states[k]);
    } else {
      b := MergeHasBegun(c, states, steps, k - 1);
    }
  }

  /**
   A merged full loads what the newest delta it folded loads, and carries its step: of the list the
   merge began over, the last delta against the newest full.
   */
  lemma AMergeLoadsItsNewestDelta(c: Setup, states: seq<State>, steps: seq<Step>, k: nat, i: nat, snap: Snapshot)
    requires GoodSetup(c) && Run(c, states, steps) && k < i < |states| && steps[k].MergeReadsStep?
    requires snap in states[i].mem.snapshots && snap.id == steps[k].id
    ensures exists b, base, d ::
              && BeganOver(states, steps, b, k, base, d) && d.id in states[k].history && snap.step == d.step
              && LoadsAs(c, states[i].files, states[i].mem.snapshots, snap.id, states[k].history[d.id].contents)
  {
    hide *;
    RunIsLong(c, states, steps);
    RunKeeps(c, states, steps, i);
    MergeMade(c, states, steps, k);
    MemIsKnown(c, states[i], snap);
    KnownIs(states[i].history, snap);
    EveryListedSnapshotLoads(c, states, steps, i, snap);
    RunHistoryOnlyGrows(c, states, steps, k + 1, i);
    var b := MergeHasBegun(c, states, steps, k);
    var base, d := states[k].merger.base, LastOf(states[k].merger.deltas);
    assert BeganOver(states, steps, b, k, base, d);
  }

  lemma KnownIs(h: History, snap: Snapshot)
    requires Known(h, snap)
    ensures snap.id in h && h[snap.id].snapshot == snap
  {
  }

  /** What a merge records at step `k`. */
  lemma MergeMade(c: Setup, states: seq<State>, steps: seq<Step>, k: nat)
    requires Run(c, states, steps) && k < |steps| && steps[k].MergeReadsStep?
    ensures |states| == |steps| + 1 && states[k].merger.MReading? && states[k].merger.deltas != []
    ensures Folding(states[k].merger)
    ensures
      var d := LastOf(states[k].merger.deltas);
      && d.id in states[k].history && steps[k].id in states[k + 1].history
      && states[k + 1].history[steps[k].id].contents == states[k].history[d.id].contents
      && states[k + 1].history[steps[k].id].snapshot.step == d.step
  {
    hide Run, Next, Makes, LastOf;
    NextAt(c, states, steps, k);
    MakerRecords(c, states[k], states[k + 1], steps[k]);
    MergedRecord(c, states[k], states[k + 1], steps[k]);
  }

  lemma MergedRecord(c: Setup, s: State, t: State, step: Step)
    requires Next(c, s, t, step) && step.MergeReadsStep?
    ensures s.merger.MReading? && s.merger.deltas != [] && step.id in t.history
    ensures
      var d := LastOf(s.merger.deltas);
      && d.id in s.history && t.history[step.id].contents == s.history[d.id].contents
      && t.history[step.id].snapshot.step == d.step
  {
    hide Merge.MergedRank, Merger.Decimal;
  }

  /** And it stands for the very save that delta stood for. */
  lemma AMergeStandsForItsNewestDelta(c: Setup, states: seq<State>, steps: seq<Step>, k: nat)
    requires Run(c, states, steps) && k < |steps| && steps[k].MergeReadsStep?
    ensures |states| == |steps| + 1
    ensures exists b, base, d ::
              && BeganOver(states, steps, b, k, base, d) && d.id in Origins(states, steps, k)
              && StandsFor(states, steps, k + 1, steps[k].id, Origins(states, steps, k)[d.id])
  {
    hide *;
    MergeMade(c, states, steps, k);
    EveryRecordHasItsSave(c, states, steps, k);
    MergeTakesOrigin(c, states, steps, k);
    var b := MergeHasBegun(c, states, steps, k);
    var base, d := states[k].merger.base, LastOf(states[k].merger.deltas);
    assert BeganOver(states, steps, b, k, base, d);
  }

  lemma MergeTakesOrigin(c: Setup, states: seq<State>, steps: seq<Step>, k: nat)
    requires |states| == |steps| + 1 && k < |steps| && steps[k].MergeReadsStep?
    requires states[k].merger.MReading? && states[k].merger.deltas != []
    requires LastOf(states[k].merger.deltas).id in states[k].history
    requires OriginsHold(c, states[k], steps, k, Origins(states, steps, k))
    ensures
      var d := LastOf(states[k].merger.deltas);
      d.id in Origins(states, steps, k)
      && StandsFor(states, steps, k + 1, steps[k].id, Origins(states, steps, k)[d.id])
  {
    hide WasSaved, ContentsOf;
  }
}
