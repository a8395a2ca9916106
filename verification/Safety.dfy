/** What every step of the store keeps. */
module Safety {
  import opened Bytes
  import opened Compression
  import opened Manifest
  import opened Env
  import opened Tensor
  import opened Shard
  import opened Layout
  import opened Save
  import opened Core
  import opened ManifestIO
  import opened Retain
  import opened Protocol
  import PackFile = Pack
  import Load
  import Merger

  ghost predicate GoodSetup(c: Setup) {
    Lawful(c.env) && c.config.worldSize == 1
  }

  // ── Records ──────────────────────────────────────────────────────

  function PackOfId(c: Setup, id: Id): Path {
    Path.Pack(id, c.config.rank)
  }

  /** What a delta is read against. */
  function BaseRaws(h: History, s: Snapshot): map<string, Bytes> {
    if s.base.None? || s.base.value !in h then map[] else Raws(h[s.base.value].contents)
  }

  function DescriptorFor(c: Setup, s: Snapshot): Descriptor
    requires c.config.rank in s.ranks
  {
    Descriptor(s.id, s.step, s.createdAt, s.base, s.metadata, s.compression, 1, s.ranks[c.config.rank])
  }

  /** The pack carries the description its snapshot can be rebuilt from. */
  ghost predicate DescribesItself(c: Setup, r: Record) {
    && c.config.rank in r.snapshot.ranks && r.snapshot.ranks[c.config.rank].rank == c.config.rank
    && exists offset: nat, blobs: Bytes ::
         && offset == |blobs| && offset < PackFile.U64_LIMIT
         && var described := c.env.descriptorJson(DescriptorFor(c, r.snapshot));
            |described| < PackFile.U64_LIMIT
            && r.pack == blobs + described
            && PackFile.DecodeHeader(Slice(blobs, 0, PackFile.HEADER_LEN)) == Some((offset, |described|))
            && |blobs| >= PackFile.HEADER_LEN
  }

  ghost predicate GoodRecord(c: Setup, h: History, id: Id)
    requires id in h
  {
    var r, s := h[id], h[id].snapshot;
    && s.id == id && s.finalized && !s.pinned && SameKind(s.compression, c.config.tensors.compression)
    && s.ranks.Keys == {c.config.rank} && s.ranks[c.config.rank].packFile == Some(PackOfId(c, id))
    && (s.base.Some? ==> s.base.value in h && h[s.base.value].snapshot.base.None?)
    && DescribesItself(c, r)
    && ShardHolds(c.env, Shard(s.ranks[c.config.rank].tensors, r.pack, s.compression), BaseRaws(h, s), r.contents)
  }

  ghost predicate Records(c: Setup, h: History) {
    forall id :: id in h ==> GoodRecord(c, h, id)
  }

  predicate Known(h: History, s: Snapshot) {
    s.id in h && h[s.id].snapshot == s
  }

  predicate Listed(h: History, ss: seq<Snapshot>) {
    Sound(ss) && forall s :: s in ss ==> Known(h, s)
  }

  // ── Storage ──────────────────────────────────────────────────────

  ghost predicate FileOk(c: Setup, files: Files, h: History, p: Path)
    requires p in files
  {
    match p
    case Index => true
    case Pack(id, rank) => rank == c.config.rank && id in h && Holds(files[p], h[id].pack)
    case Ranks(id) => id in h && Holds(files[p], RanksText(c.env, h[id].snapshot))
    case Loose(_, _) => false
  }

  ghost predicate DiskOk(c: Setup, files: Files, h: History) {
    forall p :: p in files ==> FileOk(c, files, h, p)
  }

  ghost predicate IndexOk(c: Setup, files: Files, indexed: Option<Manifest>) {
    && (Index in files <==> indexed.Some?)
    && (indexed.Some? ==>
          var m := indexed.value;
          m.ranksWritten == Ids(m.snapshots) && Holds(files[Index], c.env.indexJson(IndexOf(m, m.ranksWritten))))
  }

  function IndexedIds(s: State): set<Id> {
    if s.indexed.Some? then Ids(s.indexed.value.snapshots) else {}
  }

  function UndoList(s: State): seq<Snapshot> {
    if s.lock.Taken? && s.lock.undo.Some? then s.lock.undo.value else []
  }

  function UndoIds(s: State): set<Id> {
    Ids(UndoList(s))
  }

  function SaverRecord(s: State): set<Id> {
    if s.saver.Packing? || s.saver.Packed? then {s.saver.record.snapshot.id} else {}
  }

  function MergerRecord(s: State): set<Id> {
    if s.merger.MPacking? || s.merger.MPacked? then {s.merger.record.snapshot.id} else {}
  }

  function PackedIds(s: State): set<Id> {
    (if s.saver.Packed? then {s.saver.record.snapshot.id} else {}) +
    (if s.merger.MPacked? then {s.merger.record.snapshot.id} else {})
  }

  /** Ids whose pack has to be on storage. */
  function NeedPacks(s: State): set<Id> {
    Ids(s.mem.snapshots) + IndexedIds(s) + UndoIds(s) + PinnedIds(s.pins) + PackedIds(s)
  }

  /** Ids whose ranks file has to be on storage. */
  function NeedRanks(s: State): set<Id> {
    s.mem.ranksWritten + IndexedIds(s) + if s.lock.Taken? then Ids(s.mem.snapshots) - s.lock.todo else {}
  }

  predicate Present(c: Setup, files: Files, packs: set<Id>, ranks: set<Id>) {
    (forall id :: id in packs ==> PackOfId(c, id) in files) && forall id :: id in ranks ==> Ranks(id) in files
  }

  // ── The threads ──────────────────────────────────────────────────

  /** The base a save diffs against: pinned, still in the manifest, and out of any merge's reach. */
  predicate BaseOk(pins: map<Actor, set<Id>>, ss: seq<Snapshot>, lock: Lock, claim: set<Id>, base: Option<Snapshot>) {
    match base
    case None => SaverActor !in pins
    case Some(b) =>
      && SaverActor in pins && pins[SaverActor] == {b.id}
      && b in ss && IsFull(b) && b.id !in claim
      && (lock.Taken? && lock.undo.Some? ==> b in lock.undo.value)
  }

  predicate SameBase(s: Snapshot, base: Option<Snapshot>) {
    s.base == if base.Some? then Some(base.value.id) else None
  }

  predicate RecordOk(h: History, r: Record) {
    r.snapshot.id in h && h[r.snapshot.id] == r
  }

  predicate SaverOk(s: State) {
    match s.saver
    case Idle => SaverActor !in s.pins
    case Diffing(job, base) =>
      DistinctTensors(job.tensors) && BaseOk(s.pins, s.mem.snapshots, s.lock, s.claim, base)
        && job.ctx.base == (if base.Some? then Some(base.value.id) else None)
    case Packing(r, base) =>
      RecordOk(s.history, r) && BaseOk(s.pins, s.mem.snapshots, s.lock, s.claim, base) && SameBase(r.snapshot, base)
    case Packed(r, base) =>
      RecordOk(s.history, r) && BaseOk(s.pins, s.mem.snapshots, s.lock, s.claim, base) && SameBase(r.snapshot, base)
    case Publishing(_) => s.lock.Taken? && s.lock.holder == SaverActor
    case Unlinking(_) => SaverActor !in s.pins
  }

  /** Whatever is taken against something claimed is claimed with it. */
  predicate ClaimClosed(ss: seq<Snapshot>, claim: set<Id>) {
    forall s :: s in ss && s.base.Some? && s.base.value in claim ==> s.id in claim
  }

  predicate InputsOk(h: History, claim: set<Id>, base: Snapshot, deltas: seq<Snapshot>) {
    && claim == Merger.Spent(base, deltas) && deltas != []
    && Known(h, base) && IsFull(base)
    && forall d :: d in deltas ==> Known(h, d) && d.base == Some(base.id)
  }

  predicate MergedOk(h: History, claim: set<Id>, r: Record, base: Snapshot, deltas: seq<Snapshot>) {
    RecordOk(h, r) && r.snapshot.base.None? && InputsOk(h, claim, base, deltas)
  }

  predicate MergerOk(s: State) {
    && ClaimClosed(s.mem.snapshots, s.claim) && ClaimClosed(UndoList(s), s.claim)
    && match s.merger
       case MIdle => s.claim == {}
       case MReading(base, deltas) => InputsOk(s.history, s.claim, base, deltas)
       case MPacking(r, base, deltas) => MergedOk(s.history, s.claim, r, base, deltas)
       case MPacked(r, base, deltas) => MergedOk(s.history, s.claim, r, base, deltas)
       case MPublishing(spent) => s.claim == spent && s.lock.Taken? && s.lock.holder == MergerActor && s.lock.undo.Some?
       case MUnlinking(_) => true
  }

  ghost predicate ResultOk(c: Setup, h: History, id: Id, result: Result<Load.State>) {
    && id in h
    && (result.Ok? ==> Load.Readable(c.env, h[id].contents) && result.value == Load.ReadAll(c.env, h[id].contents))
  }

  ghost predicate LoaderOk(c: Setup, h: History, pins: map<Actor, set<Id>>, n: nat, l: Loader) {
    match l
    case Done(id, result) => LoaderActor(n) !in pins && ResultOk(c, h, id, result)
    case Pinned(snap) => Known(h, snap) && LoaderActor(n) in pins && pins[LoaderActor(n)] == Pinning(snap)
    case GotPack(snap, pack) =>
      && Known(h, snap) && LoaderActor(n) in pins && pins[LoaderActor(n)] == Pinning(snap)
      && Holds(pack, h[snap.id].pack)
    case GotBase(snap, pack, base) =>
      && Known(h, snap) && LoaderActor(n) in pins && pins[LoaderActor(n)] == Pinning(snap)
      && Holds(pack, h[snap.id].pack)
      && (base.Some? ==> Known(h, base.value) && snap.base == Some(base.value.id))
    case Fetching(snap, asked, k, out) =>
      && Known(h, snap) && LoaderActor(n) in pins && pins[LoaderActor(n)] == Pinning(snap)
      && k <= |asked| && RightSoFar(c, h[snap.id].contents, asked[..k], out)
    case Told(id, asked, result) =>
      LoaderActor(n) !in pins && id in h && (result.Ok? ==> RightSoFar(c, h[id].contents, asked, result.value))
  }

  /** `out` is what `contents` reads as under the names in `asked`, all of which it has. */
  ghost predicate RightSoFar(c: Setup, contents: Contents, asked: seq<string>, out: Load.State) {
    && (forall m :: m in out <==> m in asked)
    && forall m :: m in asked ==> m in contents && Read(c.env, contents[m]) == Ok(out[m])
  }

  ghost predicate LoadersOk(c: Setup, h: History, pins: map<Actor, set<Id>>, loaders: map<nat, Loader>) {
    && (forall n :: n in loaders ==> LoaderOk(c, h, pins, n, loaders[n]))
    && forall a :: a in pins ==> a == SaverActor || (a.LoaderActor? && a.n in loaders)
  }

  predicate LockOk(s: State) {
    match s.lock
    case Free => !s.saver.Publishing? && !s.merger.MPublishing? && !s.mode.Recording?
    case Taken(holder, todo, undo) =>
      && (holder == SaverActor <==> s.saver.Publishing?) && (holder == MergerActor <==> s.merger.MPublishing?)
      && (holder == BootActor <==> s.mode.Recording?) && !holder.LoaderActor?
      && (holder == MergerActor <==> undo.Some?)
      && todo <= Ids(s.mem.snapshots)
  }

  /** Only a running store has anything but its files and its manifest. */
  predicate ModeOk(c: Setup, s: State) {
    && (!s.mode.Running? ==>
        s.saver.Idle? && s.merger.MIdle? && s.loaders == map[] && s.pins == map[] && s.retained.None?)
    && (s.mode.Down? ==> s.mem == EmptyManifest(c))
    && SameKind(s.algo, c.config.tensors.compression)
  }

  /** Ids on their way out of the manifest, not yet gone from the index. */
  function Parting(s: State): set<Id> {
    (if s.saver.Publishing? then s.saver.evicted else {}) + (if s.merger.MPublishing? then s.merger.spent else {})
  }

  function SweepIds(s: State): set<Id> {
    (if s.saver.Unlinking? then s.saver.sweep.ids else {}) +
    (if s.merger.MUnlinking? then s.merger.sweep.ids else {}) +
    (if s.mode.Reclaiming? then s.mode.rejects else {})
  }

  /** What is being swept, or about to be, is nothing anybody still lists, writes or reads. */
  predicate Apart(
      sweep: set<Id>, dying: set<Id>, parting: set<Id>, mem: set<Id>, indexed: set<Id>, undo: set<Id>, written: set<Id>,
      saving: set<Id>, merging: set<Id>, pinned: set<Id>, known: set<Id>)
  {
    && sweep !! mem && sweep !! indexed && sweep !! undo && sweep !! written && sweep !! saving && sweep !! merging
    && parting !! mem && parting !! saving && parting !! merging
    && sweep <= known && parting <= known
    && saving !! merging && saving !! mem && saving !! undo && merging !! mem && merging !! undo
    && dying <= sweep && dying !! pinned
  }

  predicate SweepsOk(s: State) {
    && Apart(SweepIds(s), Dying(s), Parting(s), Ids(s.mem.snapshots), IndexedIds(s), UndoIds(s), s.mem.ranksWritten,
             SaverRecord(s), MergerRecord(s), PinnedIds(s.pins), s.history.Keys)
    && s.claim !! SaverRecord(s) + MergerRecord(s) && s.claim <= s.history.Keys
  }

  ghost predicate RetainedOk(h: History, retained: Option<RetainedBase>) {
    retained.Some? ==> retained.value.id in h && RetainsContents(retained.value.tensors, h[retained.value.id].contents)
  }

  predicate ListsOk(s: State) {
    && Listed(s.history, s.mem.snapshots)
    && (s.indexed.Some? ==> Listed(s.history, s.indexed.value.snapshots))
    && Listed(s.history, UndoList(s))
  }

  ghost predicate Inv(c: Setup, s: State) {
    && Records(c, s.history)
    && DiskOk(c, s.files, s.history)
    && IndexOk(c, s.files, s.indexed)
    && Present(c, s.files, NeedPacks(s), NeedRanks(s))
    && ListsOk(s)
    && SaverOk(s)
    && MergerOk(s)
    && LoadersOk(c, s.history, s.pins, s.loaders)
    && LockOk(s)
    && ModeOk(c, s)
    && SweepsOk(s)
    && RetainedOk(s.history, s.retained)
  }

  lemma InitKeeps(c: Setup, s: State)
    requires Init(c, s)
    ensures Inv(c, s)
  {
    assert PinnedIds(map[]) == {};
  }

  /** Every snapshot a manifest lists here has ranks of its own to put in a file. */
  lemma AllOutOfLine(c: Setup, h: History, m: Manifest)
    requires Records(c, h) && Listed(h, m.snapshots)
    ensures Unwritten(m) == Ids(m.snapshots) - m.ranksWritten
    ensures WrittenAfter(m) == Ids(m.snapshots)
  {
    forall s | s in m.snapshots
      ensures OutOfLine(s)
    {
      assert GoodRecord(c, h, s.id);
      assert c.config.rank in s.ranks;
    }
  }

  lemma InvSays(c: Setup, s: State)
    requires Inv(c, s)
    ensures Records(c, s.history) && DiskOk(c, s.files, s.history) && IndexOk(c, s.files, s.indexed)
    ensures Present(c, s.files, NeedPacks(s), NeedRanks(s)) && ListsOk(s)
    ensures SaverOk(s) && MergerOk(s) && LoadersOk(c, s.history, s.pins, s.loaders)
    ensures LockOk(s) && ModeOk(c, s) && SweepsOk(s) && RetainedOk(s.history, s.retained)
  {
    hide Records, DiskOk, IndexOk, Present, ListsOk, SaverOk, MergerOk, LoadersOk, LockOk, ModeOk, SweepsOk, RetainedOk;
  }

  lemma InvIs(c: Setup, s: State)
    requires Records(c, s.history) && DiskOk(c, s.files, s.history) && IndexOk(c, s.files, s.indexed)
    requires Present(c, s.files, NeedPacks(s), NeedRanks(s)) && ListsOk(s)
    requires SaverOk(s) && MergerOk(s) && LoadersOk(c, s.history, s.pins, s.loaders)
    requires LockOk(s) && ModeOk(c, s) && SweepsOk(s) && RetainedOk(s.history, s.retained)
    ensures Inv(c, s)
  {
    hide Records, DiskOk, IndexOk, Present, ListsOk, SaverOk, MergerOk, LoadersOk, LockOk, ModeOk, SweepsOk, RetainedOk;
  }

  // ── Loaders ──────────────────────────────────────────────────────

  /** A loader moves, pinning at most what the manifest lists. */
  ghost predicate LoaderStep(c: Setup, s: State, t: State) {
    && t == s.(loaders := t.loaders, pins := t.pins)
    && s.mode.Running?
    && LoadersOk(c, t.history, t.pins, t.loaders)
    && (SaverActor in t.pins <==> SaverActor in s.pins)
       && (SaverActor in s.pins ==> t.pins[SaverActor] == s.pins[SaverActor])
    && PinnedIds(t.pins) <= PinnedIds(s.pins) + Ids(s.mem.snapshots)
  }

  lemma LoaderStepKeeps(c: Setup, s: State, t: State)
    requires Inv(c, s) && LoaderStep(c, s, t)
    ensures Inv(c, t)
  {
    InvSays(c, s);
    LoaderStepSaver(c, s, t);
    LoaderStepRest(c, s, t);
    LoaderStepSweeps(c, s, t);
    hide Inv, ListsOk, SaverOk, MergerOk, LockOk, ModeOk, SweepsOk, Present, NeedPacks, NeedRanks;
    InvIs(c, t);
  }

  lemma LoaderStepSaver(c: Setup, s: State, t: State)
    requires SaverOk(s) && LoaderStep(c, s, t)
    ensures SaverOk(t)
  {
    hide LoadersOk, PinnedIds, RecordOk;
  }

  lemma LoaderStepRest(c: Setup, s: State, t: State)
    requires LoaderStep(c, s, t) && ListsOk(s) && MergerOk(s) && LockOk(s) && ModeOk(c, s)
    requires Present(c, s.files, NeedPacks(s), NeedRanks(s))
    ensures ListsOk(t) && MergerOk(t) && LockOk(t) && ModeOk(c, t)
    ensures Present(c, t.files, NeedPacks(t), NeedRanks(t))
  {
    hide LoadersOk, PinnedIds, Listed, Ids, ClaimClosed, InputsOk, MergedOk;
  }

  lemma LoaderStepSweeps(c: Setup, s: State, t: State)
    requires LoaderStep(c, s, t) && SweepsOk(s)
    ensures SweepsOk(t)
  {
    hide LoadersOk, PinnedIds, Ids;
  }

  lemma PinReplaces(pins: map<Actor, set<Id>>, a: Actor, ids: set<Id>)
    ensures PinnedIds(pins[a := ids]) <= PinnedIds(pins) + ids
    ensures PinnedIds(pins - {a}) <= PinnedIds(pins)
  {
    assert forall b, id :: b in pins - {a} && id in (pins - {a})[b] ==> b in pins && id in pins[b];
  }

  lemma LoaderMoves(c: Setup, s: State, t: State, n: nat)
    requires LoadersOk(c, s.history, s.pins, s.loaders) && n in t.loaders
    requires t.loaders == s.loaders[n := t.loaders[n]] && LoaderOk(c, s.history, t.pins, n, t.loaders[n])
    requires forall a ::
               a != LoaderActor(n) ==> (a in s.pins <==> a in t.pins) && (a in s.pins ==> t.pins[a] == s.pins[a])
    ensures LoadersOk(c, s.history, t.pins, t.loaders)
  {
    forall m | m in t.loaders
      ensures LoaderOk(c, s.history, t.pins, m, t.loaders[m])
    {
      assert m != n ==> LoaderOk(c, s.history, s.pins, m, s.loaders[m]);
    }
  }

  lemma MemIsKnown(c: Setup, s: State, snap: Snapshot)
    requires Inv(c, s) && snap in s.mem.snapshots
    ensures Known(s.history, snap) && snap.id in Ids(s.mem.snapshots)
    ensures snap.base.Some? ==> snap.base.value in Ids(s.mem.snapshots)
  {
    hide Records, DiskOk, IndexOk, Present, SaverOk, MergerOk, LoadersOk, LockOk, ModeOk, SweepsOk, RetainedOk;
  }

  lemma MemIsListed(c: Setup, s: State)
    requires Inv(c, s)
    ensures Listed(s.history, s.mem.snapshots)
  {
    hide Records, DiskOk, IndexOk, Present, SaverOk, MergerOk, LoadersOk, LockOk, ModeOk, SweepsOk, RetainedOk, Listed;
  }

  lemma ListedIds(h: History, ss: seq<Snapshot>)
    requires Listed(h, ss)
    ensures Ids(ss) <= h.Keys
  {
    hide Sound;
  }

  lemma LoaderIs(c: Setup, s: State, n: nat)
    requires Inv(c, s) && n in s.loaders
    ensures LoadersOk(c, s.history, s.pins, s.loaders) && LoaderOk(c, s.history, s.pins, n, s.loaders[n])
  {
    hide Records, DiskOk, IndexOk, Present, ListsOk, SaverOk, MergerOk, LockOk, ModeOk, SweepsOk, RetainedOk, LoaderOk;
  }

  lemma FileIs(c: Setup, s: State, p: Path)
    requires Inv(c, s) && p in s.files
    ensures FileOk(c, s.files, s.history, p)
  {
    hide Records, IndexOk, Present, ListsOk, SaverOk, MergerOk, LoadersOk, LockOk, ModeOk, SweepsOk, RetainedOk, FileOk;
  }

  lemma LoadBeginsKeeps(c: Setup, s: State, t: State, n: nat, snap: Snapshot)
    requires Inv(c, s) && LoadBegins(s, t, n, snap)
    ensures Inv(c, t)
  {
    hide Inv, PinnedIds, LoadersOk, Ids, SaverOk, MergerOk, ListsOk, LockOk, ModeOk, SweepsOk, Present, IndexOk,
      Records, DiskOk, RetainedOk;
    InvSays(c, s);
    MemIsKnown(c, s, snap);
    PinReplaces(s.pins, LoaderActor(n), Pinning(snap));
    hide Known;
    LoaderMoves(c, s, t, n);
    LoaderStepKeeps(c, s, t);
  }

  lemma LoadGetsPackKeeps(c: Setup, s: State, t: State, n: nat)
    requires Inv(c, s) && LoadGetsPack(c, s, t, n)
    ensures Inv(c, t)
  {
    hide Inv, PinnedIds, LoadersOk, Ids, Known;
    LoaderIs(c, s, n);
    FileIs(c, s, Path.Pack(s.loaders[n].snap.id, c.config.rank));
    LoaderMoves(c, s, t, n);
    LoaderStepKeeps(c, s, t);
  }

  lemma LoadFindsBaseKeeps(c: Setup, s: State, t: State, n: nat)
    requires Inv(c, s) && LoadFindsBase(s, t, n)
    ensures Inv(c, t)
  {
    hide Inv, PinnedIds, LoadersOk, Ids, Known;
    LoaderIs(c, s, n);
    var snap := s.loaders[n].snap;
    if snap.base.Some? && Find(s.mem.snapshots, snap.base.value).Some? {
      MemIsKnown(c, s, Find(s.mem.snapshots, snap.base.value).value);
    }
    LoaderMoves(c, s, t, n);
    LoaderStepKeeps(c, s, t);
  }

  lemma LoadFailsKeeps(c: Setup, s: State, t: State, n: nat, error: Error)
    requires Inv(c, s) && LoadFails(s, t, n, error)
    ensures Inv(c, t)
  {
    hide Inv, PinnedIds, LoadersOk, Ids;
    LoaderIs(c, s, n);
    PinReplaces(s.pins, LoaderActor(n), {});
    LoaderMoves(c, s, t, n);
    LoaderStepKeeps(c, s, t);
  }

  // ── The saver, outside the lock ──────────────────────────────────

  /** The saver moves, pinning at most what the manifest lists, and sweeps no more than it did. */
  ghost predicate SaverStep(s: State, t: State) {
    && t == s.(saver := t.saver, pins := t.pins)
    && s.mode.Running? && !s.saver.Publishing? && !t.saver.Publishing? && !t.saver.Packed? && !t.saver.Packing?
    && (forall a :: a != SaverActor ==> (a in s.pins <==> a in t.pins) && (a in s.pins ==> t.pins[a] == s.pins[a]))
    && PinnedIds(t.pins) <= PinnedIds(s.pins) + Ids(s.mem.snapshots)
    && SweepIds(t) <= SweepIds(s) && Dying(t) <= SweepIds(t)
    && Dying(t) <= Dying(s) + (SweepIds(s) - PinnedIds(t.pins))
  }

  lemma SaverStepKeeps(c: Setup, s: State, t: State)
    requires Inv(c, s) && SaverStep(s, t) && SaverOk(t)
    ensures Inv(c, t)
  {
    InvSays(c, s);
    SaverStepRest(c, s, t);
    SaverStepSweeps(c, s, t);
    LoadersUnaffected(c, s.history, s.pins, t.pins, s.loaders);
    hide Inv, ListsOk, SaverOk, MergerOk, LockOk, ModeOk, SweepsOk, Present, NeedPacks, NeedRanks, LoadersOk;
    InvIs(c, t);
  }

  /** Loaders only look at their own pins. */
  lemma LoadersUnaffected(
      c: Setup, h: History, pins: map<Actor, set<Id>>, more: map<Actor, set<Id>>, loaders: map<nat, Loader>)
    requires LoadersOk(c, h, pins, loaders)
    requires forall a :: a != SaverActor ==> (a in pins <==> a in more) && (a in pins ==> more[a] == pins[a])
    ensures LoadersOk(c, h, more, loaders)
  {
    forall n | n in loaders
      ensures LoaderOk(c, h, more, n, loaders[n])
    {
      assert LoaderOk(c, h, pins, n, loaders[n]);
    }
  }

  lemma SaverStepRest(c: Setup, s: State, t: State)
    requires SaverStep(s, t) && ListsOk(s) && MergerOk(s) && LockOk(s) && ModeOk(c, s)
    requires Present(c, s.files, NeedPacks(s), NeedRanks(s))
    ensures ListsOk(t) && MergerOk(t) && LockOk(t) && ModeOk(c, t)
    ensures Present(c, t.files, NeedPacks(t), NeedRanks(t))
  {
    hide PinnedIds, Listed, Ids, ClaimClosed, InputsOk, MergedOk;
  }

  lemma SaverStepSweeps(c: Setup, s: State, t: State)
    requires SaverStep(s, t) && SweepsOk(s)
    ensures SweepsOk(t)
  {
    hide PinnedIds, Ids;
  }

  lemma SaveBeginsKeeps(c: Setup, s: State, t: State, job: SaveJob)
    requires Inv(c, s) && SaveBegins(c, s, t, job)
    ensures Inv(c, t)
  {
    hide Inv, PinnedIds, Ids, LoadersOk, MergerOk, ListsOk, LockOk, ModeOk, SweepsOk, Present, IndexOk, Records,
      DiskOk, RetainedOk, ShouldForceFull, LastFull, Known, DistinctTensors;
    InvSays(c, s);
    var base := ChosenBase(s, job.ctx.step);
    if base.Some? {
      MemIsKnown(c, s, base.value);
      PinReplaces(s.pins, SaverActor, {base.value.id});
    }
    assert SaverOk(t);
    hide SaverOk, ChosenBase;
    SaverStepKeeps(c, s, t);
  }

  lemma SaveFailsKeeps(c: Setup, s: State, t: State)
    requires Inv(c, s) && SaveFails(s, t)
    ensures Inv(c, t)
  {
    hide Inv, PinnedIds, Ids, LoadersOk;
    PinReplaces(s.pins, SaverActor, {});
    SaverStepKeeps(c, s, t);
  }

  lemma SaverSweepsKeep(c: Setup, s: State, t: State, next: Option<Sweep>)
    requires Inv(c, s) && SaverSweeps(s, t, next)
    ensures Inv(c, t)
  {
    hide Inv, PinnedIds, Ids, LoadersOk, MergerOk, ListsOk, LockOk, ModeOk, SweepsOk, Present, IndexOk, Records,
      DiskOk, RetainedOk, ClaimClosed;
    InvSays(c, s);
    assert SaverOk(t);
    hide SaverOk;
    SaverStepKeeps(c, s, t);
  }

  // ── The merger, outside the lock ─────────────────────────────────

  /** The merger moves; what it newly claims nobody is reading. */
  ghost predicate MergerStep(s: State, t: State) {
    && t == s.(merger := t.merger, claim := t.claim)
    && s.mode.Running? && !s.merger.MPublishing? && !t.merger.MPublishing? && !t.merger.MPacked? && !t.merger.MPacking?
    && (t.claim <= s.claim || (t.claim !! PinnedIds(s.pins) && t.claim <= Ids(s.mem.snapshots)))
    && SweepIds(t) <= SweepIds(s) && Dying(t) <= SweepIds(t)
    && Dying(t) <= Dying(s) + (SweepIds(s) - PinnedIds(s.pins))
  }

  lemma MergerStepKeeps(c: Setup, s: State, t: State)
    requires Inv(c, s) && MergerStep(s, t) && MergerOk(t)
    ensures Inv(c, t)
  {
    InvSays(c, s);
    MergerStepSaver(c, s, t);
    MergerStepRest(c, s, t);
    MemIsListed(c, s);
    ListedIds(s.history, s.mem.snapshots);
    MergerStepSweeps(c, s, t);
    hide Inv, ListsOk, SaverOk, MergerOk, LockOk, ModeOk, SweepsOk, Present, NeedPacks, NeedRanks, LoadersOk;
    InvIs(c, t);
  }

  lemma MergerStepSaver(c: Setup, s: State, t: State)
    requires MergerStep(s, t) && SaverOk(s)
    ensures SaverOk(t)
  {
    PinReplaces(s.pins, SaverActor, {});
    if SaverActor in s.pins {
      PinsAreIn(s.pins, SaverActor);
    }
    hide PinnedIds, RecordOk;
  }

  lemma PinsAreIn(pins: map<Actor, set<Id>>, a: Actor)
    requires a in pins
    ensures pins[a] <= PinnedIds(pins)
  {
  }

  lemma MergerStepRest(c: Setup, s: State, t: State)
    requires MergerStep(s, t) && ListsOk(s) && LockOk(s) && ModeOk(c, s)
    requires Present(c, s.files, NeedPacks(s), NeedRanks(s))
    ensures ListsOk(t) && LockOk(t) && ModeOk(c, t)
    ensures Present(c, t.files, NeedPacks(t), NeedRanks(t))
  {
    hide PinnedIds, Listed, Ids;
  }

  lemma MergerStepSweeps(c: Setup, s: State, t: State)
    requires MergerStep(s, t) && SweepsOk(s) && Ids(s.mem.snapshots) <= s.history.Keys
    ensures SweepsOk(t)
  {
    hide PinnedIds, Ids;
  }

  lemma MergeFailsKeeps(c: Setup, s: State, t: State)
    requires Inv(c, s) && MergeFails(s, t)
    ensures Inv(c, t)
  {
    hide Inv, PinnedIds, Ids, LoadersOk, SaverOk, ListsOk, LockOk, ModeOk, SweepsOk, Present, IndexOk, Records,
      DiskOk, RetainedOk;
    InvSays(c, s);
    assert MergerOk(t);
    hide MergerOk;
    MergerStepKeeps(c, s, t);
  }

  lemma MergerSweepsKeep(c: Setup, s: State, t: State, next: Option<Sweep>)
    requires Inv(c, s) && MergerSweeps(s, t, next)
    ensures Inv(c, t)
  {
    hide Inv, PinnedIds, Ids, LoadersOk, SaverOk, ListsOk, LockOk, ModeOk, SweepsOk, Present, IndexOk, Records,
      DiskOk, RetainedOk;
    InvSays(c, s);
    assert MergerOk(t);
    hide MergerOk;
    MergerStepKeeps(c, s, t);
  }

  lemma SpentIsClosed(h: History, ss: seq<Snapshot>)
    requires Listed(h, ss) && Merger.PlanFull(ss).Fold?
    ensures
      var plan := Merger.PlanFull(ss);
      && ClaimClosed(ss, Merger.Spent(plan.base, plan.deltas))
      && InputsOk(h, Merger.Spent(plan.base, plan.deltas), plan.base, plan.deltas)
      && Merger.Spent(plan.base, plan.deltas) <= Ids(ss)
  {
    var plan := Merger.PlanFull(ss);
    forall d | d in ss && d.base.Some? && d.base.value in Merger.Spent(plan.base, plan.deltas)
      ensures d.id in Merger.Spent(plan.base, plan.deltas)
    {
      if d.base.value == plan.base.id {
        assert d in plan.deltas;
      }
      assert forall b :: b in plan.deltas ==> d.base != Some(b.id);
    }
  }

  lemma MergeBeginsKeeps(c: Setup, s: State, t: State)
    requires Inv(c, s) && MergeBegins(s, t)
    ensures Inv(c, t)
  {
    hide Inv, PinnedIds, Ids, LoadersOk, Merger.PlanFull, Merger.Spent, Listed, SaverOk, InputsOk, ListsOk, LockOk,
      ModeOk, SweepsOk, Present, IndexOk, Records, DiskOk, RetainedOk;
    InvSays(c, s);
    MemIsListed(c, s);
    SpentIsClosed(s.history, s.mem.snapshots);
    assert MergerOk(t);
    hide MergerOk;
    MergerStepKeeps(c, s, t);
  }
}
