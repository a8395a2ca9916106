/**
 One single-rank store as a state machine: a saver, a merger, any number of loaders, crashes and
 restarts, over files that are written and deleted one at a time. Critical sections of the
 manifest lock are one step each, except that a persist made under the lock takes one step per file.
 */
module Protocol {
  import opened Bytes
  import opened Compression
  import opened Manifest
  import opened Env
  import opened Tensor
  import opened Shard
  import opened Layout
  import opened Save
  import opened Core
  import opened ManifestIO
  import opened Retain
  import PackFile = Pack
  import Load
  import Merge
  import Merger
  import Recovery

  // ── The state ────────────────────────────────────────────────────

  datatype Setup = Setup(
    env: Env,
    config: RankConfig,
    merger: Merger.MergerConfig,
    page: nat,
    retention: Retention,
    lineage: Lineage
  )

  /** What one save or merge wrote: it never changes afterwards. */
  datatype Record = Record(snapshot: Snapshot, pack: Bytes, contents: Contents)

  type History = map<Id, Record>

  datatype Actor = SaverActor | MergerActor | LoaderActor(n: nat) | BootActor

  /** Who holds the manifest lock over a persist, which ranks files are still to be put, what a failure restores. */
  datatype Lock = Free | Taken(holder: Actor, todo: set<Id>, undo: Option<seq<Snapshot>>)

  datatype Sweep = Waiting(ids: set<Id>) | Deleting(ids: set<Id>)

  datatype SaveJob = SaveJob(ctx: Context, tensors: seq<TensorData>)

  datatype Saver =
    | Idle
    | Diffing(job: SaveJob, base: Option<Snapshot>)
    | Packing(record: Record, base: Option<Snapshot>)
    | Packed(record: Record, base: Option<Snapshot>)
    | Publishing(evicted: set<Id>)
    | Unlinking(sweep: Sweep)

  datatype Merging =
    | MIdle
    | MReading(base: Snapshot, deltas: seq<Snapshot>)
    | MPacking(record: Record, base: Snapshot, deltas: seq<Snapshot>)
    | MPacked(record: Record, base: Snapshot, deltas: seq<Snapshot>)
    | MPublishing(spent: set<Id>)
    | MUnlinking(sweep: Sweep)

  datatype Loader =
    | Pinned(snap: Snapshot)
    | GotPack(snap: Snapshot, pack: Bytes)
    | GotBase(snap: Snapshot, pack: Bytes, base: Option<Snapshot>)
    | Done(id: Id, result: Result<Load.State>)
    /** A load of some names, `k` of which it has. */
    | Fetching(snap: Snapshot, asked: seq<string>, k: nat, out: Load.State)
    | Told(id: Id, asked: seq<string>, result: Result<Load.State>)

  datatype Mode = Down | Reclaiming(rejects: set<Id>, changed: bool) | Recording | Running

  datatype State = State(
    files: Files,
    mode: Mode,
    mem: Manifest,
    /** The manifest the index on storage was last written from. */
    indexed: Option<Manifest>,
    lock: Lock,
    pins: map<Actor, set<Id>>,
    claim: set<Id>,
    saver: Saver,
    merger: Merging,
    loaders: map<nat, Loader>,
    retained: Option<RetainedBase>,
    history: History,
    /** How the store, as last opened, compresses what it writes and reads what it merges. */
    algo: Algo
  )

  /** The setup as the store was last opened with it. */
  function Opened(c: Setup, algo: Algo): Setup {
    c.(config := c.config.(tensors := c.config.tensors.(compression := algo)))
  }

  function EmptyManifest(c: Setup): Manifest {
    Manifest(c.config.worldSize, [], c.retention, c.lineage, {})
  }

  function PinnedIds(pins: map<Actor, set<Id>>): set<Id> {
    set a, id | a in pins && id in pins[a] :: id
  }

  function Pinning(snap: Snapshot): set<Id> {
    {snap.id} + if snap.base.Some? then {snap.base.value} else {}
  }

  predicate Quiet(s: State) {
    s.mode == Running && s.lock == Free
  }

  ghost predicate Init(c: Setup, s: State) {
    s == State(map[], Down, EmptyManifest(c), None, Free, map[], {}, Idle, MIdle, map[], None, map[],
               c.config.tensors.compression)
  }

  // ── Persisting under the lock ────────────────────────────────────

  /** The lock is taken over `snapshots` as the new list, every unwritten one still to be put. */
  function Locked(s: State, holder: Actor, snapshots: seq<Snapshot>, undo: Option<seq<Snapshot>>): State {
    var m := s.mem.(snapshots := snapshots);
    s.(mem := m, lock := Taken(holder, Unwritten(m), undo))
  }

  ghost predicate PutRanks(c: Setup, s: State, t: State, snap: Snapshot) {
    && s.lock.Taken? && snap in s.mem.snapshots && snap.id in s.lock.todo
    && t == s.(files := s.files[Ranks(snap.id) := Padded(RanksText(c.env, snap), c.page)],
               lock := s.lock.(todo := s.lock.todo - {snap.id}))
  }

  /** The list a failed persist leaves in memory. */
  function Restored(s: State): seq<Snapshot>
    requires s.lock.Taken?
  {
    if s.lock.undo.Some? then s.lock.undo.value else s.mem.snapshots
  }

  function IndexText(c: Setup, m: Manifest): Bytes {
    c.env.indexJson(IndexOf(m, WrittenAfter(m)))
  }

  function Recorded(m: Manifest): Manifest {
    m.(ranksWritten := WrittenAfter(m))
  }

  /** What the lock's holder goes on to once its persist is over. */
  function Released(s: State, ok: bool): State
    requires s.lock.Taken?
  {
    match s.lock.holder
    case SaverActor =>
      s.(lock := Free, pins := s.pins - {SaverActor},
         saver := if ok && s.saver.Publishing? then Unlinking(Waiting(s.saver.evicted)) else Idle)
    case MergerActor =>
      if ok && s.merger.MPublishing? then s.(lock := Free, merger := MUnlinking(Waiting(s.merger.spent)))
      else s.(lock := Free, merger := MIdle, claim := {})
    case BootActor => s.(lock := Free, mode := Running)
    case LoaderActor(_) => s.(lock := Free)
  }

  ghost predicate PutIndex(c: Setup, s: State, t: State) {
    && s.lock.Taken? && s.lock.todo == {}
    && t == Released(
              s.(files := s.files[Index := Padded(IndexText(c, s.mem), c.page)],
                 mem := Recorded(s.mem), indexed := Some(Recorded(s.mem))), true)
  }

  /** A put fails: of a ranks file, or of the index once every ranks file is down. */
  ghost predicate PersistFails(s: State, t: State) {
    && s.lock.Taken?
    && t == Released(
              s.(mem := (if s.lock.todo == {} then Recorded(s.mem) else s.mem).(snapshots := Restored(s))), false)
  }

  // ── The saver ────────────────────────────────────────────────────

  function ChosenBase(s: State, step: nat): Option<Snapshot> {
    if ShouldForceFull(s.mem, step) then None
    else
      match LastFull(s.mem.snapshots)
      case None => None
      case Some(full) => if full.id in s.claim then None else Some(full)
  }

  /** Chooses the base and pins it, in one critical section. */
  ghost predicate SaveBegins(c: Setup, s: State, t: State, job: SaveJob) {
    && Quiet(s) && s.saver.Idle? && DistinctTensors(job.tensors)
    && job.ctx.id !in s.history
    && var base := ChosenBase(s, job.ctx.step);
       && job.ctx.base == (if base.Some? then Some(base.value.id) else None)
       && t == s.(saver := Diffing(job, base),
                  pins := if base.Some? then s.pins[SaverActor := {base.value.id}] else s.pins)
  }

  function SavedSnapshot(c: Setup, ctx: Context, entry: RankEntry): Snapshot {
    Snapshot(ctx.id, ctx.step, ctx.createdAt, map[c.config.rank := entry], ctx.base, ctx.metadata,
             c.config.tensors.compression, true, false)
  }

  /** Reads what it needs of the base and works out the pack; a full's bytes are retained. */
  ghost predicate SaveReads(c: Setup, s: State, t: State) {
    && s.mode == Running && s.saver.Diffing?
    && var job, base := s.saver.job, s.saver.base;
       var cache := CacheFor(base, c.config.rank, s.retained);
       && ProcessedAll(c.env, s.files, c.config.tensors, cache, job.tensors).Ok?
       && var ps := ProcessedAll(c.env, s.files, c.config.tensors, cache, job.tensors).value;
          var w := Laid(c.env, ps, job.ctx, c.config.tensors.compression, c.config.rank, c.config.worldSize);
          var record :=
            Record(SavedSnapshot(c, job.ctx, w.entry), w.pack,
                   ContentsOf(c.env, c.config.tensors.policy, job.tensors));
          && |w.pack| < PackFile.U64_LIMIT && job.ctx.id !in s.history
          && t == s.(saver := Packing(record, base), history := s.history[job.ctx.id := record],
                     retained := RetainedAfter(c.config, s.retained, job.ctx, job.tensors, ps))
  }

  /** Before its pack is down a save can fail for any reason: nothing but its pin is undone. */
  ghost predicate SaveFails(s: State, t: State) {
    && s.mode == Running && (s.saver.Diffing? || s.saver.Packing?)
    && t == s.(saver := Idle, pins := s.pins - {SaverActor})
  }

  ghost predicate SavePuts(c: Setup, s: State, t: State) {
    && s.mode == Running && s.saver.Packing?
    && var r := s.saver.record;
       t == s.(files := s.files[Path.Pack(r.snapshot.id, c.config.rank) := Padded(r.pack, c.page)],
               saver := Packed(r, s.saver.base))
  }

  /** Pushes the snapshot, applies retention, and starts the persist. */
  ghost predicate SavePublishes(s: State, t: State) {
    && Quiet(s) && s.saver.Packed?
    && var pushed := s.mem.(snapshots := s.mem.snapshots + [s.saver.record.snapshot]);
       var left := RetainedOf(pushed);
       t == Locked(s.(saver := Publishing(Ids(pushed.snapshots) - Ids(left))), SaverActor, left, None)
  }

  // ── Unlinking ────────────────────────────────────────────────────

  ghost predicate Swept(s: State, sweep: Sweep, next: Option<Sweep>) {
    match sweep
    case Waiting(ids) =>
      // None of them is being read: go on to the deletes. Or the wait ran out: leave the files.
      (ids !! PinnedIds(s.pins) && next == Some(Deleting(ids))) || next == None
    case Deleting(ids) => next == None
  }

  ghost predicate SaverSweeps(s: State, t: State, next: Option<Sweep>) {
    && s.mode == Running && s.saver.Unlinking? && Swept(s, s.saver.sweep, next)
    && t == s.(saver := if next.Some? then Unlinking(next.value) else Idle)
  }

  ghost predicate MergerSweeps(s: State, t: State, next: Option<Sweep>) {
    && s.mode == Running && s.merger.MUnlinking? && Swept(s, s.merger.sweep, next)
    && t == if next.Some? then s.(merger := MUnlinking(next.value)) else s.(merger := MIdle, claim := {})
  }

  /** Ids whose files somebody is deleting. */
  function Dying(s: State): set<Id> {
    (if s.saver.Unlinking? && s.saver.sweep.Deleting? then s.saver.sweep.ids else {}) +
    (if s.merger.MUnlinking? && s.merger.sweep.Deleting? then s.merger.sweep.ids else {}) +
    (if s.mode.Reclaiming? then s.mode.rejects else {})
  }

  ghost predicate Deletes(s: State, t: State, path: Path) {
    && DirOf(path).Some? && DirOf(path).value in Dying(s)
    && t == s.(files := s.files - {path})
  }

  // ── The merger ───────────────────────────────────────────────────

  /** Drops superseded deltas; the claim, the new list and the persist start in one critical section. */
  ghost predicate StrideBegins(c: Setup, s: State, t: State) {
    && Quiet(s) && s.merger.MIdle?
    && var drops := Merger.StrideDrops(s.mem.snapshots, c.merger);
       && drops != {} && drops !! PinnedIds(s.pins)
       && t == Locked(s.(claim := drops, merger := MPublishing(drops)), MergerActor,
                      Without(s.mem.snapshots, drops), Some(s.mem.snapshots))
  }

  ghost predicate MergeBegins(s: State, t: State) {
    && Quiet(s) && s.merger.MIdle?
    && var plan := Merger.PlanFull(s.mem.snapshots);
       && plan.Fold?
       && var spent := Merger.Spent(plan.base, plan.deltas);
          && spent !! PinnedIds(s.pins)
          && t == s.(claim := spent, merger := MReading(plan.base, plan.deltas))
  }

  function LastOf(deltas: seq<Snapshot>): Snapshot
    requires deltas != []
  {
    deltas[|deltas| - 1]
  }

  ghost predicate MergeReads(c: Setup, s: State, t: State, id: Id, createdAt: int) {
    && s.mode == Running && s.merger.MReading? && id !in s.history && s.merger.deltas != []
    && var base, deltas := s.merger.base, s.merger.deltas;
       var last := LastOf(deltas);
       var ctx := Merger.MergedContext(id, createdAt, deltas);
       && Merge.HasRank(base, last, c.config.rank) && last.id in s.history
       && var w := Merge.MergedRank(c.env, s.files, base, last, c.config.rank, ctx, c.config.tensors.compression, 1);
          && w.Ok? && |w.value.pack| < PackFile.U64_LIMIT
          && var record := Record(
                   Merger.MergedSnapshot(ctx, c.config.tensors.compression, map[c.config.rank := w.value.entry]),
                   w.value.pack, s.history[last.id].contents);
             t == s.(merger := MPacking(record, base, deltas), history := s.history[id := record])
  }

  /** A read or the write fails: the claim is withdrawn and nothing else changes. */
  ghost predicate MergeFails(s: State, t: State) {
    && s.mode == Running && (s.merger.MReading? || s.merger.MPacking?)
    && t == s.(merger := MIdle, claim := {})
  }

  ghost predicate MergePuts(c: Setup, s: State, t: State) {
    && s.mode == Running && s.merger.MPacking?
    && var r := s.merger.record;
       t == s.(files := s.files[Path.Pack(r.snapshot.id, c.config.rank) := Padded(r.pack, c.page)],
               merger := MPacked(r, s.merger.base, s.merger.deltas))
  }

  ghost predicate MergePublishes(s: State, t: State) {
    && Quiet(s) && s.merger.MPacked?
    && var spent := Merger.Spent(s.merger.base, s.merger.deltas);
       t == Locked(s.(merger := MPublishing(spent)), MergerActor,
                   Merger.Published(s.mem.snapshots, spent, s.merger.record.snapshot), Some(s.mem.snapshots))
  }

  // ── Loaders ──────────────────────────────────────────────────────

  ghost predicate LoadBegins(s: State, t: State, n: nat, snap: Snapshot) {
    && Quiet(s) && n !in s.loaders && snap in s.mem.snapshots
    && t == s.(loaders := s.loaders[n := Pinned(snap)], pins := s.pins[LoaderActor(n) := Pinning(snap)])
  }

  ghost predicate LoadGetsPack(c: Setup, s: State, t: State, n: nat) {
    && s.mode == Running && n in s.loaders && s.loaders[n].Pinned?
    && var snap := s.loaders[n].snap;
       && Path.Pack(snap.id, c.config.rank) in s.files
       && t == s.(loaders := s.loaders[n := GotPack(snap, s.files[Path.Pack(snap.id, c.config.rank)])])
  }

  /** Looks the base up again, under the lock. */
  ghost predicate LoadFindsBase(s: State, t: State, n: nat) {
    && Quiet(s) && n in s.loaders && s.loaders[n].GotPack?
    && var l := s.loaders[n];
       var base := if l.snap.base.Some? then Find(s.mem.snapshots, l.snap.base.value) else None;
       t == s.(loaders := s.loaders[n := GotBase(l.snap, l.pack, base)])
  }

  /** How names are looked up in the base: in its table, or nowhere once the manifest has dropped it. */
  function LoaderFinder(c: Setup, files: Files, snap: Snapshot, base: Option<Snapshot>): Option<Finder> {
    if snap.base.None? then None
    else if base.None? || c.config.rank !in base.value.ranks || Path.Pack(base.value.id, c.config.rank) !in files
    then Some((_: string) => Err(NotFound))
    else Some(BaseCtx(EntryMap(base.value.ranks[c.config.rank].tensors), base.value.compression,
                      Whole(files[Path.Pack(base.value.id, c.config.rank)])).Finder())
  }

  ghost predicate LoadFinishes(c: Setup, s: State, t: State, n: nat) {
    && s.mode == Running && n in s.loaders && s.loaders[n].GotBase?
    && var l := s.loaders[n];
       && c.config.rank in l.snap.ranks
       && var find := LoaderFinder(c, s.files, l.snap, l.base);
          var result :=
            Load.LoadAll(c.env, s.files, l.snap.ranks[c.config.rank].tensors, find, l.snap.compression,
                         Whole(l.pack));
          t == s.(loaders := s.loaders[n := Done(l.snap.id, result)], pins := s.pins - {LoaderActor(n)})
  }

  /** Pins the snapshot and its base, as a whole load does. */
  ghost predicate NamesBegin(s: State, t: State, n: nat, snap: Snapshot, asked: seq<string>) {
    && Quiet(s) && n !in s.loaders && snap in s.mem.snapshots
    && t == s.(loaders := s.loaders[n := Fetching(snap, asked, 0, map[])],
               pins := s.pins[LoaderActor(n) := Pinning(snap)])
  }

  /** One name: its entry is the pinned snapshot's, but the base is looked up in the manifest anew, under the lock. */
  function NameRead(c: Setup, s: State, l: Loader): Result<Bytes>
    requires l.Fetching? && l.k < |l.asked| && c.config.rank in l.snap.ranks
  {
    var find := Load.FinderFor(s.files, s.mem.snapshots, c.config.rank, l.snap, None, false);
    Load.LoadOne(c.env, s.files, l.snap.ranks[c.config.rank].tensors, l.asked[l.k], find, l.snap.compression,
                 Ranged(Path.Pack(l.snap.id, c.config.rank)))
  }

  ghost predicate NameReads(c: Setup, s: State, t: State, n: nat) {
    && Quiet(s) && n in s.loaders && s.loaders[n].Fetching?
    && var l := s.loaders[n];
       && l.k < |l.asked| && c.config.rank in l.snap.ranks
       && match NameRead(c, s, l)
          case Err(error) => t == s.(loaders := s.loaders[n := Failed(l, error)], pins := s.pins - {LoaderActor(n)})
          case Ok(data) =>
            t == s.(loaders := s.loaders[n := Fetching(l.snap, l.asked, l.k + 1, l.out[l.asked[l.k] := data])])
  }

  ghost predicate NamesEnd(s: State, t: State, n: nat) {
    && s.mode == Running && n in s.loaders && s.loaders[n].Fetching?
    && var l := s.loaders[n];
       && l.k == |l.asked|
       && t == s.(loaders := s.loaders[n := Told(l.snap.id, l.asked, Ok(l.out))], pins := s.pins - {LoaderActor(n)})
  }

  predicate Finished(l: Loader) {
    l.Done? || l.Told?
  }

  function Failed(l: Loader, error: Error): Loader
    requires !Finished(l)
  {
    if l.Fetching? then Told(l.snap.id, l.asked, Err(error)) else Done(l.snap.id, Err(error))
  }

  /** Any read of a load can fail. */
  ghost predicate LoadFails(s: State, t: State, n: nat, error: Error) {
    && s.mode == Running && n in s.loaders && !Finished(s.loaders[n])
    && t == s.(loaders := s.loaders[n := Failed(s.loaders[n], error)], pins := s.pins - {LoaderActor(n)})
  }

  // ── Crash and restart ────────────────────────────────────────────

  /** Only what is on storage survives. */
  ghost predicate Crashes(c: Setup, s: State, t: State) {
    t == State(s.files, Down, EmptyManifest(c), s.indexed, Free, map[], {}, Idle, MIdle, map[], None, s.history,
               s.algo)
  }

  /** For each directory, the packs a listing shows under it. */
  ghost predicate ListsPacks(files: Files, packsOf: Id -> seq<Path>) {
    forall id :: (forall p :: p in packsOf(id) <==> p in files && p.Pack? && p.id == id)
                 && forall i, j :: 0 <= i < j < |packsOf(id)| ==> packsOf(id)[i] != packsOf(id)[j]
  }

  /**
   Opens the store, at any level of the same algorithm: the manifest is read back, orphans are
   judged, the rejected ones go.
   */
  ghost predicate Restarts(c: Setup, s: State, t: State, order: seq<Id>, packsOf: Id -> seq<Path>, algo: Algo) {
    && s.mode == Down && ListsPacks(s.files, packsOf) && SameKind(algo, c.config.tensors.compression)
    && var read := LoadManifest(c.env, s.files, map[]);
       && read.Ok?
       && var m := if read.value.Some? then read.value.value else EmptyManifest(c);
          && Recovery.MeetsOrphans(s.files, Ids(m.snapshots), order)
          && var readmitted := Recovery.Readmitted(c.env, s.files, m.snapshots, order, packsOf);
             t == s.(mode := Reclaiming((set id | id in order) - Ids(readmitted), |readmitted| > |m.snapshots|),
                     mem := m.(snapshots := Recovery.Recovered(c.env, s.files, m.snapshots, order, packsOf)),
                     algo := algo)
  }

  ghost predicate BootEnds(s: State, t: State) {
    && s.mode.Reclaiming?
    && t == if s.mode.changed then Locked(s.(mode := Recording), BootActor, s.mem.snapshots, None)
       else s.(mode := Running)
  }

  // ── Steps and runs ───────────────────────────────────────────────

  datatype Step =
    | PutRanksStep(snap: Snapshot)
    | PutIndexStep
    | PersistFailsStep
    | SaveBeginsStep(job: SaveJob)
    | SaveReadsStep
    | SaveFailsStep
    | SavePutsStep
    | SavePublishesStep
    | SaverSweepsStep(next: Option<Sweep>)
    | MergerSweepsStep(next: Option<Sweep>)
    | DeletesStep(path: Path)
    | StrideBeginsStep
    | MergeBeginsStep
    | MergeReadsStep(id: Id, createdAt: int)
    | MergeFailsStep
    | MergePutsStep
    | MergePublishesStep
    | LoadBeginsStep(n: nat, snap: Snapshot)
    | LoadGetsPackStep(n: nat)
    | LoadFindsBaseStep(n: nat)
    | LoadFinishesStep(n: nat)
    | LoadFailsStep(n: nat, error: Error)
    | CrashesStep
    | NamesBeginStep(n: nat, snap: Snapshot, asked: seq<string>)
    | NameReadsStep(n: nat)
    | NamesEndStep(n: nat)
    | RestartsStep(order: seq<Id>, packsOf: Id -> seq<Path>, algo: Algo)
    | BootEndsStep

  ghost predicate Next(c: Setup, s: State, t: State, step: Step) {
    match step
    case PutRanksStep(snap) => PutRanks(c, s, t, snap)
    case PutIndexStep => PutIndex(c, s, t)
    case PersistFailsStep => PersistFails(s, t)
    case SaveBeginsStep(job) => SaveBegins(c, s, t, job)
    case SaveReadsStep => SaveReads(Opened(c, s.algo), s, t)
    case SaveFailsStep => SaveFails(s, t)
    case SavePutsStep => SavePuts(c, s, t)
    case SavePublishesStep => SavePublishes(s, t)
    case SaverSweepsStep(next) => SaverSweeps(s, t, next)
    case MergerSweepsStep(next) => MergerSweeps(s, t, next)
    case DeletesStep(path) => Deletes(s, t, path)
    case StrideBeginsStep => StrideBegins(c, s, t)
    case MergeBeginsStep => MergeBegins(s, t)
    case MergeReadsStep(id, createdAt) => MergeReads(Opened(c, s.algo), s, t, id, createdAt)
    case MergeFailsStep => MergeFails(s, t)
    case MergePutsStep => MergePuts(c, s, t)
    case MergePublishesStep => MergePublishes(s, t)
    case LoadBeginsStep(n, snap) => LoadBegins(s, t, n, snap)
    case LoadGetsPackStep(n) => LoadGetsPack(c, s, t, n)
    case LoadFindsBaseStep(n) => LoadFindsBase(s, t, n)
    case LoadFinishesStep(n) => LoadFinishes(c, s, t, n)
    case LoadFailsStep(n, error) => LoadFails(s, t, n, error)
    case CrashesStep => Crashes(c, s, t)
    case NamesBeginStep(n, snap, asked) => NamesBegin(s, t, n, snap, asked)
    case NameReadsStep(n) => NameReads(c, s, t, n)
    case NamesEndStep(n) => NamesEnd(s, t, n)
    case RestartsStep(order, packsOf, algo) => Restarts(c, s, t, order, packsOf, algo)
    case BootEndsStep => BootEnds(s, t)
  }

  /** Any interleaving of any of them, from an empty store. */
  ghost predicate Run(c: Setup, states: seq<State>, steps: seq<Step>) {
    && |states| == |steps| + 1
    && Init(c, states[0])
    && forall i :: 0 <= i < |steps| ==> Next(c, states[i], states[i + 1], steps[i])
  }
}
