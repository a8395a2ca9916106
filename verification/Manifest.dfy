/** The manifest: what every snapshot holds, and the queries saving, merging and retention make of it. */
module Manifest {
  import opened Bytes
  import opened Compression

  type Id = nat

  datatype Path =
    | Index
    | Pack(id: Id, rank: nat)
    | Ranks(id: Id)
    | Loose(id: Id, file: string)

  type Files = map<Path, Bytes>

  /** The snapshot directory a file lies in. */
  function DirOf(p: Path): Option<Id> {
    if p.Index? then None else Some(p.id)
  }

  datatype Storage = Full | DeltaXor | Skipped | Alias

  datatype TensorEntry = TensorEntry(
    name: string,
    shape: seq<nat>,
    dtype: string,
    originalDtype: Option<string>,
    quantScale: Option<int>,
    storage: Storage,
    aliasOf: Option<string>,
    filename: Option<Path>,
    offset: nat,
    compressedSize: nat,
    rawSize: nat,
    hashRaw: string,
    hashCompressed: Option<string>,
    shuffled: bool
  )

  datatype RankEntry = RankEntry(
    rank: nat,
    tensors: seq<TensorEntry>,
    packFile: Option<Path>,
    totalCompressed: nat,
    totalRaw: nat,
    skippedCount: nat,
    deltaCount: nat,
    fullCount: nat
  )

  datatype Snapshot = Snapshot(
    id: Id,
    step: nat,
    createdAt: int,
    ranks: map<nat, RankEntry>,
    base: Option<Id>,
    metadata: map<string, string>,
    compression: Algo,
    finalized: bool,
    pinned: bool
  )

  datatype Lineage = Lineage(rollbackIntervalSteps: nat, maxRollbackSnapshots: nat)

  datatype Retention = Retention(
    maxFullSnapshots: nat,
    maxDeltasPerFull: nat,
    fullSnapshotEverySteps: nat,
    maxTotalSnapshots: Option<nat>
  ) {
    function EffectiveTotalCap(): nat {
      if maxTotalSnapshots.Some? then maxTotalSnapshots.value
      else maxFullSnapshots * (1 + maxDeltasPerFull)
    }
  }

  datatype Manifest = Manifest(
    worldSize: nat,
    snapshots: seq<Snapshot>,
    retention: Retention,
    lineage: Lineage,
    ranksWritten: set<Id>
  )

  /** What one rank's pack says about itself and the snapshot it belongs to. */
  datatype Descriptor = Descriptor(
    snapshotId: Id,
    step: nat,
    createdAt: int,
    base: Option<Id>,
    metadata: map<string, string>,
    compression: Algo,
    worldSize: nat,
    rank: RankEntry
  )

  // ── Snapshot lists ───────────────────────────────────────────────

  predicate IsFull(s: Snapshot) {
    s.base.None? && s.finalized
  }

  function Ids(ss: seq<Snapshot>): set<Id> {
    set s | s in ss :: s.id
  }

  predicate Distinct(ss: seq<Snapshot>) {
    forall i, j :: 0 <= i < j < |ss| ==> ss[i].id != ss[j].id
  }

  /** Whatever a snapshot is a delta against is there too. */
  predicate Closed(ss: seq<Snapshot>) {
    forall s :: s in ss && s.base.Some? ==> s.base.value in Ids(ss)
  }

  /** Only fulls serve as bases. */
  predicate BasesAreFull(ss: seq<Snapshot>) {
    forall s, b :: s in ss && b in ss && s.base == Some(b.id) ==> b.base.None?
  }

  function Find(ss: seq<Snapshot>, id: Id): (r: Option<Snapshot>)
    ensures r.Some? ==> r.value in ss && r.value.id == id
    ensures r.Some? <==> id in Ids(ss)
  {
    if ss == [] then None
    else if ss[0].id == id then Some(ss[0])
    else
      assert forall s :: s in ss <==> s == ss[0] || s in ss[1..];
      Find(ss[1..], id)
  }

  /** `ss[k]` is a full, and nothing after it is. */
  predicate IsNewestFull(ss: seq<Snapshot>, k: nat)
    requires k < |ss|
  {
    IsFull(ss[k]) && forall i :: k < i < |ss| ==> !IsFull(ss[i])
  }

  /** `full` is the last full the list has. */
  predicate IsLastFull(ss: seq<Snapshot>, full: Snapshot) {
    exists k :: 0 <= k < |ss| && IsNewestFull(ss, k) && ss[k] == full
  }

  lemma NoFullAfter(ss: seq<Snapshot>, k: nat, i: nat)
    requires k < |ss| && i < |ss| && IsNewestFull(ss, k) && IsFull(ss[i])
    ensures i <= k
  {
  }

  lemma LastFullIsOne(ss: seq<Snapshot>, full: Snapshot, other: Snapshot)
    requires IsLastFull(ss, full) && IsLastFull(ss, other)
    ensures full == other
  {
    var j: nat :| j < |ss| && IsNewestFull(ss, j) && ss[j] == full;
    var k: nat :| k < |ss| && IsNewestFull(ss, k) && ss[k] == other;
    NoFullAfter(ss, j, k);
    NoFullAfter(ss, k, j);
  }

  /** `d` is a delta against `base`, and no snapshot listed after it is one. */
  predicate IsNewestDelta(ss: seq<Snapshot>, base: Id, d: Snapshot) {
    exists k :: 0 <= k < |ss| && ss[k] == d && d.base == Some(base) && forall i ::
      k < i < |ss| ==> ss[i].base != Some(base)
  }

  /** The newest finalized snapshot that is not a delta. */
  function LastFull(ss: seq<Snapshot>): (r: Option<Snapshot>)
    ensures r.Some? ==> r.value in ss && IsFull(r.value) && IsLastFull(ss, r.value)
    ensures r.None? ==> forall s :: s in ss ==> !IsFull(s)
  {
    if ss == [] then None
    else if IsFull(ss[|ss| - 1]) then
      assert IsNewestFull(ss, |ss| - 1);
      Some(ss[|ss| - 1])
    else
      var r := LastFull(ss[..|ss| - 1]);
      assert r.Some? ==> IsLastFull(ss, r.value) by {
        if r.Some? {
          LastFullStays(ss, r.value);
        }
      }
      r
  }

  lemma LastFullStays(ss: seq<Snapshot>, full: Snapshot)
    requires ss != [] && !IsFull(ss[|ss| - 1]) && IsLastFull(ss[..|ss| - 1], full)
    ensures IsLastFull(ss, full)
  {
    var init := ss[..|ss| - 1];
    var k :| 0 <= k < |init| && IsNewestFull(init, k) && init[k] == full;
    assert IsNewestFull(ss, k) && ss[k] == full;
  }

  /** How many snapshots at the tail are deltas. */
  function PendingDeltas(ss: seq<Snapshot>): (n: nat)
    ensures n <= |ss|
    ensures forall i :: |ss| - n <= i < |ss| ==> ss[i].base.Some?
    ensures n < |ss| ==> ss[|ss| - n - 1].base.None?
  {
    if ss == [] || ss[|ss| - 1].base.None? then 0 else 1 + PendingDeltas(ss[..|ss| - 1])
  }

  function SaturatingSub(a: nat, b: nat): nat {
    if a < b then 0 else a - b
  }

  predicate ShouldForceFull(m: Manifest, step: nat) {
    || m.snapshots == []
    || m.retention.EffectiveTotalCap() <= 1
    || (match LastFull(m.snapshots)
        case None => true
        case Some(full) => SaturatingSub(step, full.step) >= m.retention.fullSnapshotEverySteps)
    || PendingDeltas(m.snapshots) >= m.retention.maxDeltasPerFull
  }

  /** The last `n` snapshots are all deltas. */
  predicate EndsInDeltas(ss: seq<Snapshot>, n: nat) {
    n <= |ss| && forall i :: |ss| - n <= i < |ss| ==> ss[i].base.Some?
  }

  /** A save of `step` may be written as a delta against `full`, by this list and what a merge has claimed. */
  predicate MayBuildOn(ss: seq<Snapshot>, r: Retention, claimed: set<Id>, step: nat, full: Snapshot) {
    && IsLastFull(ss, full)
    && full.id !in claimed
    && 0 < r.fullSnapshotEverySteps && step < full.step + r.fullSnapshotEverySteps
    && !EndsInDeltas(ss, r.maxDeltasPerFull)
    && r.EffectiveTotalCap() > 1
  }

  lemma PendingIsEnd(ss: seq<Snapshot>, n: nat)
    ensures PendingDeltas(ss) >= n <==> EndsInDeltas(ss, n)
  {
  }

  lemma LastFullIs(ss: seq<Snapshot>, full: Snapshot)
    ensures LastFull(ss) == Some(full) <==> IsLastFull(ss, full)
  {
    if IsLastFull(ss, full) {
      var k :| 0 <= k < |ss| && IsNewestFull(ss, k) && ss[k] == full;
      assert ss[k] in ss;
      LastFullIsOne(ss, full, LastFull(ss).value);
    }
  }

  /** A full is forced exactly when the last one could not serve as a base for `step`, even claimed by nobody. */
  lemma ForcedExactly(m: Manifest, step: nat, full: Snapshot)
    requires IsLastFull(m.snapshots, full)
    ensures !ShouldForceFull(m, step) <==> MayBuildOn(m.snapshots, m.retention, {}, step, full)
  {
    PendingIsEnd(m.snapshots, m.retention.maxDeltasPerFull);
    LastFullIs(m.snapshots, full);
    assert full in m.snapshots;
    hide PendingDeltas, EndsInDeltas, LastFull, IsLastFull;
  }

  // ── Protection ───────────────────────────────────────────────────

  predicate OnInterval(s: Snapshot, l: Lineage) {
    l.rollbackIntervalSteps > 0 && IsFull(s) && s.step % l.rollbackIntervalSteps == 0
  }

  /** The newest `max` fulls that land on the rollback interval. */
  function RollbackOf(ss: seq<Snapshot>, l: Lineage, max: nat): (r: seq<Id>)
    ensures |r| <= max
    ensures forall id :: id in r ==> exists s :: s in ss && s.id == id && OnInterval(s, l)
  {
    if ss == [] || max == 0 then []
    else
      var last := ss[|ss| - 1];
      if OnInterval(last, l) then RollbackOf(ss[..|ss| - 1], l, max - 1) + [last.id]
      else RollbackOf(ss[..|ss| - 1], l, max)
  }

  function Rollback(m: Manifest): seq<Id> {
    RollbackOf(m.snapshots, m.lineage, m.lineage.maxRollbackSnapshots)
  }

  function Protected(m: Manifest): set<Id> {
    (set id | id in Rollback(m)) +
    (set s | s in m.snapshots && s.pinned :: s.id) +
    (set s | s in m.snapshots && s.pinned && s.base.Some? :: s.base.value)
  }

  lemma SameId(ss: seq<Snapshot>, a: Snapshot, b: Snapshot)
    requires Distinct(ss) && a in ss && b in ss && a.id == b.id
    ensures a == b
  {
    var i :| 0 <= i < |ss| && ss[i] == a;
    var j :| 0 <= j < |ss| && ss[j] == b;
    assert !(i < j) && !(j < i);
  }

  /** Protection reaches the base of whatever it covers, so it never leaves a delta unreadable. */
  lemma ProtectedIsClosed(m: Manifest)
    requires Distinct(m.snapshots) && BasesAreFull(m.snapshots)
    ensures forall s :: s in m.snapshots && s.id in Protected(m) && s.base.Some? ==> s.base.value in Protected(m)
  {
    forall s | s in m.snapshots && s.base.Some?
      ensures s.id in Protected(m) ==> s.base.value in Protected(m)
    {
      forall other | other in m.snapshots && other.id == s.id
        ensures other == s
      {
        SameId(m.snapshots, s, other);
      }
    }
  }
}
