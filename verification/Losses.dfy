/** Nothing is lost but to retention or a merge: what every failure, crash and restart of a run leaves listed. */
module Losses {
  import opened Bytes
  import opened Manifest
  import opened Env
  import opened Layout
  import opened Save
  import opened Core
  import opened ManifestIO
  import opened Retain
  import opened Protocol
  import opened Safety
  import opened SafetyBoot
  import opened Steps
  import opened Theorems
  import Load
  import Merge
  import Merger
  import Recovery

  /**
   The index on storage names it, so does the manifest of an open store, and so would one restored by
   a failed put.
   */
  predicate Durable(s: State, snap: Snapshot) {
    && s.indexed.Some? && snap in s.indexed.value.snapshots
    && (!s.mode.Down? ==> snap in s.mem.snapshots)
    && (s.lock.Taken? && s.lock.undo.Some? ==> snap in s.lock.undo.value)
  }

  /** The list a save leaves to retention. */
  function Pushed(s: State): Manifest
    requires s.saver.Packed?
  {
    s.mem.(snapshots := s.mem.snapshots + [s.saver.record.snapshot])
  }

  /** The steps that take a snapshot out of the list: retention, a stride fold, a full merge. */
  predicate Takes(c: Setup, s: State, step: Step, snap: Snapshot) {
    || (step.SavePublishesStep? && s.saver.Packed? && snap !in RetainedOf(Pushed(s)))
    || (step.StrideBeginsStep? && snap.id in Merger.StrideDrops(s.mem.snapshots, c.merger)
        && snap.id !in PinnedIds(s.pins))
    || (step.MergePublishesStep? && s.merger.MPacked? && snap.id in Merger.Spent(s.merger.base, s.merger.deltas))
  }

  // ── One step ─────────────────────────────────────────────────────

  lemma ListsUnchanged(s: State, t: State, snap: Snapshot)
    requires Durable(s, snap) && t.mem == s.mem && t.indexed == s.indexed && t.lock == s.lock && t.mode == s.mode
    ensures Durable(t, snap)
  {
  }

  lemma LoadersLose(c: Setup, s: State, t: State, step: Step, snap: Snapshot)
    requires Next(c, s, t, step) && (LoadersOwn(step) || NamesOwn(step)) && Durable(s, snap)
    ensures Durable(t, snap)
  {
    hide Load.LoadAll, LoaderFinder, Find, Pinning, NameRead, PutRanks, PutIndex, PersistFails, SaveBegins, SaveReads,
      SaveFails, SavePuts, SavePublishes, SaverSweeps, MergerSweeps, Deletes, StrideBegins, MergeBegins, MergeReads,
      MergeFails, MergePuts, MergePublishes, Crashes, Restarts, BootEnds, Durable;
    ListsUnchanged(s, t, snap);
  }

  lemma SaverLoses(c: Setup, s: State, t: State, step: Step, snap: Snapshot)
    requires Next(c, s, t, step) && SaversOwn(step) && !step.SavePublishesStep? && Durable(s, snap)
    ensures Durable(t, snap)
  {
    hide ProcessedAll, Laid, CacheFor, ContentsOf, RetainedAfter, SavedSnapshot, RetainedOf, Padded, ChosenBase,
      PutRanks,
      PutIndex, PersistFails, Deletes, StrideBegins, MergeBegins, MergeReads, MergeFails, MergePuts, MergePublishes,
      LoadBegins, LoadGetsPack, LoadFindsBase, LoadFinishes, LoadFails, NamesBegin, NameReads, NamesEnd, Crashes,
      Restarts,
      BootEnds, Durable;
    ListsUnchanged(s, t, snap);
  }

  lemma SaveTakes(c: Setup, s: State, t: State, snap: Snapshot)
    requires SavePublishes(s, t) && Durable(s, snap) && !Takes(c, s, SavePublishesStep, snap)
    ensures Durable(t, snap)
  {
    hide RetainedOf, Unwritten;
  }

  lemma MergerLoses(c: Setup, s: State, t: State, step: Step, snap: Snapshot)
    requires Next(c, s, t, step) && MergersOwn(step) && !step.StrideBeginsStep? && !step.MergePublishesStep?
    requires Durable(s, snap)
    ensures Durable(t, snap)
  {
    hide Merge.MergedRank, Merger.MergedContext, Merger.PlanFull, Padded, PutRanks, PutIndex, PersistFails, SaveBegins,
      SaveReads, SaveFails, SavePuts, SavePublishes, SaverSweeps, MergerSweeps, Deletes, LoadBegins, LoadGetsPack,
      LoadFindsBase, LoadFinishes, LoadFails, NamesBegin, NameReads, NamesEnd, Crashes, Restarts, BootEnds, Durable;
    ListsUnchanged(s, t, snap);
  }

  lemma StrideTakes(c: Setup, s: State, t: State, snap: Snapshot)
    requires StrideBegins(c, s, t) && Durable(s, snap) && !Takes(c, s, StrideBeginsStep, snap)
    ensures Durable(t, snap)
  {
    hide Merger.StrideDrops, Unwritten, PinnedIds;
  }

  lemma MergeTakes(c: Setup, s: State, t: State, snap: Snapshot)
    requires MergePublishes(s, t) && Durable(s, snap) && !Takes(c, s, MergePublishesStep, snap)
    ensures Durable(t, snap)
  {
    hide Merger.Spent, Unwritten;
  }

  lemma PutRanksLoses(c: Setup, s: State, t: State, put: Snapshot, snap: Snapshot)
    requires PutRanks(c, s, t, put) && Durable(s, snap)
    ensures Durable(t, snap)
  {
    hide Padded, RanksText;
  }

  lemma PutIndexLoses(c: Setup, s: State, t: State, snap: Snapshot)
    requires PutIndex(c, s, t) && Durable(s, snap) && !s.mode.Down?
    ensures Durable(t, snap)
  {
    hide Padded, IndexText, WrittenAfter;
  }

  lemma PersistFailsLoses(s: State, t: State, snap: Snapshot)
    requires PersistFails(s, t) && Durable(s, snap) && !s.mode.Down?
    ensures Durable(t, snap)
  {
    hide WrittenAfter;
  }

  lemma PersistLoses(c: Setup, s: State, t: State, step: Step, snap: Snapshot)
    requires Next(c, s, t, step) && PersistsOwn(step) && Durable(s, snap) && (s.lock.Taken? ==> !s.mode.Down?)
    ensures Durable(t, snap)
  {
    if step.PutIndexStep? || step.PersistFailsStep? {
      assert s.lock.Taken?;
    }
    hide PutRanks, PutIndex, PersistFails, SaveBegins, SaveReads, SaveFails, SavePuts, SavePublishes, SaverSweeps,
      MergerSweeps, Deletes, StrideBegins, MergeBegins, MergeReads, MergeFails, MergePuts, MergePublishes, LoadBegins,
      LoadGetsPack, LoadFindsBase, LoadFinishes, LoadFails, NamesBegin, NameReads, NamesEnd, Crashes, Restarts,
      BootEnds, Durable;
    if step.PutRanksStep? {
      PutRanksLoses(c, s, t, step.snap, snap);
    } else if step.PutIndexStep? {
      PutIndexLoses(c, s, t, snap);
    } else {
      PersistFailsLoses(s, t, snap);
    }
  }

  lemma RestartLoses(c: Setup, s: State, t: State, step: Step, snap: Snapshot)
    requires GoodSetup(c) && Inv(c, s) && Next(c, s, t, step) && step.RestartsStep? && Durable(s, snap)
    ensures snap in t.mem.snapshots && t.indexed == s.indexed && t.lock == s.lock
  {
    hide Inv, GoodSetup, LoadManifest, Recovery.Readmitted, Recovery.Recovered, Recovery.MeetsOrphans, ListsPacks,
      Closed;
    IndexReadsBack(c, s);
    IndexIsClosed(c, s);
    Recovery.RecoveryIsSafe(c.env, s.files, s.indexed.value.snapshots, step.order, step.packsOf);
  }

  lemma IndexIsClosed(c: Setup, s: State)
    requires Inv(c, s) && s.indexed.Some?
    ensures Closed(s.indexed.value.snapshots)
  {
    InvSays(c, s);
    hide Inv, Records, DiskOk, IndexOk, Present, SaverOk, MergerOk, LoadersOk, LockOk, ModeOk, SweepsOk, RetainedOk,
      Known,
      Closed;
  }

  lemma LockNotDown(c: Setup, s: State)
    requires Inv(c, s)
    ensures s.lock.Taken? ==> !s.mode.Down?
  {
    InvSays(c, s);
    hide Inv, Records, DiskOk, IndexOk, Present, SaverOk, MergerOk, LoadersOk, SweepsOk, RetainedOk, ListsOk;
  }

  lemma BootLoses(c: Setup, s: State, t: State, step: Step, snap: Snapshot)
    requires GoodSetup(c) && Inv(c, s) && Next(c, s, t, step) && BootsOwn(step) && Durable(s, snap)
    ensures Durable(t, snap)
  {
    if step.RestartsStep? {
      hide Inv, GoodSetup, Next;
      RestartLoses(c, s, t, step, snap);
      RestartIsFree(c, s);
    } else {
      hide Inv, GoodSetup, Next;
      CrashLoses(c, s, t, step, snap);
    }
  }

  lemma CrashLoses(c: Setup, s: State, t: State, step: Step, snap: Snapshot)
    requires Next(c, s, t, step) && (step.CrashesStep? || step.BootEndsStep?) && Durable(s, snap)
    ensures Durable(t, snap)
  {
    hide PutRanks, PutIndex, PersistFails, SaveBegins, SaveReads, SaveFails, SavePuts, SavePublishes, SaverSweeps,
      MergerSweeps, Deletes, StrideBegins, MergeBegins, MergeReads, MergeFails, MergePuts, MergePublishes, LoadBegins,
      LoadGetsPack, LoadFindsBase, LoadFinishes, LoadFails, NamesBegin, NameReads, NamesEnd, Restarts, Unwritten;
  }

  lemma RestartIsFree(c: Setup, s: State)
    requires Inv(c, s)
    ensures s.mode.Down? ==> s.lock == Free
  {
    LockNotDown(c, s);
    hide Inv;
  }

  /** A step takes a durable snapshot away only by retention, a stride fold or a full merge. */
  lemma OnlyTakersTake(c: Setup, s: State, t: State, step: Step, snap: Snapshot)
    requires GoodSetup(c) && Inv(c, s) && Next(c, s, t, step) && Durable(s, snap) && !Takes(c, s, step, snap)
    ensures Durable(t, snap)
  {
    hide Inv, GoodSetup, Durable, Takes;
    if LoadersOwn(step) || NamesOwn(step) {
      hide Next;
      LoadersLose(c, s, t, step, snap);
    } else if PersistsOwn(step) {
      hide Next;
      LockNotDown(c, s);
      PersistLoses(c, s, t, step, snap);
    } else if BootsOwn(step) {
      hide Next;
      BootLoses(c, s, t, step, snap);
    } else if step.SavePublishesStep? {
      SaveTakes(c, s, t, snap);
    } else if step.StrideBeginsStep? {
      StrideTakes(c, s, t, snap);
    } else if step.MergePublishesStep? {
      MergeTakes(c, s, t, snap);
    } else if SaversOwn(step) {
      hide Next;
      SaverLoses(c, s, t, step, snap);
    } else if MergersOwn(step) {
      hide Next;
      MergerLoses(c, s, t, step, snap);
    } else {
      ListsUnchanged(s, t, snap);
    }
  }

  // ── A run ────────────────────────────────────────────────────────

  /**
   The merge that publishes at step `k` folded `id`: at some earlier step `b` it began over a list in
   which `id` was the newest full or a delta against it, and nobody had it pinned.
   */
  ghost predicate FoldedAt(states: seq<State>, steps: seq<Step>, k: nat, id: Id) {
    exists b: nat, base, d :: BeganOver(states, steps, b, k, base, d) && Foldable(states[b], base, id)
  }

  predicate Foldable(s: State, base: Snapshot, id: Id) {
    && id !in PinnedIds(s.pins)
    && (id == base.id || exists x :: x in s.mem.snapshots && x.id == id && x.base == Some(base.id))
  }

  /** Why a snapshot left the list at step `k`. */
  ghost predicate LeftAt(c: Setup, states: seq<State>, steps: seq<Step>, k: nat, snap: Snapshot)
    requires k < |steps| && k < |states|
  {
    var s, step := states[k], steps[k];
    || (step.SavePublishesStep? && s.saver.Packed? && snap !in RetainedOf(Pushed(s)))
    || (step.StrideBeginsStep? && snap.id in Merger.StrideDrops(s.mem.snapshots, c.merger)
        && snap.id !in PinnedIds(s.pins))
    || (step.MergePublishesStep? && FoldedAt(states, steps, k, snap.id))
  }

  lemma BegunFolds(s: State, t: State, id: Id)
    requires MergeBegins(s, t) && id in Merger.Spent(t.merger.base, t.merger.deltas)
    ensures Foldable(s, t.merger.base, id)
  {
    var plan := Merger.PlanFull(s.mem.snapshots);
    if id != plan.base.id {
      var x :| x in plan.deltas && x.id == id;
    }
    hide Merger.PlanFull, PinnedIds;
  }

  lemma TakenIsLeft(c: Setup, states: seq<State>, steps: seq<Step>, k: nat, snap: Snapshot)
    requires Run(c, states, steps) && k < |steps| && k < |states| && Takes(c, states[k], steps[k], snap)
    ensures LeftAt(c, states, steps, k, snap)
  {
    if steps[k].MergePublishesStep? {
      hide Run, MergeBegins, Merger.Spent, BeganOver, Foldable, RetainedOf, Merger.StrideDrops;
      var b := MergeHasBegun(c, states, steps, k);
      SameBase(states, steps, b, k, states[k].merger.base, LastOf(states[k].merger.deltas));
      BegunFolds(states[b], states[b + 1], snap.id);
      assert BeganOver(states, steps, b, k, states[k].merger.base, LastOf(states[k].merger.deltas));
    }
  }

  lemma SameBase(states: seq<State>, steps: seq<Step>, b: nat, k: nat, base: Snapshot, d: Snapshot)
    requires BeganOver(states, steps, b, k, base, d)
    ensures b < k < |states| && Folding(states[b + 1].merger) && states[b + 1].merger.base == base
  {
  }

  /**
   Once the index on storage names it, a snapshot stays in the index, and in the manifest of an open
   store, through every failed write, crash and restart, until one of three things takes it:
   retention, a stride fold nobody's pin stands in the way of, or a full merge that began over a list
   in which it was the newest full or a delta against it and nobody had it pinned.
   */
  lemma EveryLossHasItsReason(c: Setup, states: seq<State>, steps: seq<Step>, i: nat, j: nat, snap: Snapshot)
    requires GoodSetup(c) && Run(c, states, steps) && i <= j < |states|
    requires Durable(states[i], snap) && !Durable(states[j], snap)
    ensures |states| == |steps| + 1
    ensures exists k :: i <= k < j && LeftAt(c, states, steps, k, snap)
  {
    hide *;
    RunIsLong(c, states, steps);
    var k := FirstLoss(states, i, j, snap);
    NextAt(c, states, steps, k);
    RunKeeps(c, states, steps, k);
    if !Takes(c, states[k], steps[k], snap) {
      OnlyTakersTake(c, states[k], states[k + 1], steps[k], snap);
    }
    TakenIsLeft(c, states, steps, k, snap);
  }

  lemma {:induction false} FirstLoss(states: seq<State>, i: nat, j: nat, snap: Snapshot) returns (k: nat)
    requires i <= j < |states| && Durable(states[i], snap) && !Durable(states[j], snap)
    ensures i <= k < j && Durable(states[k], snap) && !Durable(states[k + 1], snap)
  {
    hide Durable;
    k := i;
    while Durable(states[k + 1], snap)
      invariant i <= k < j && Durable(states[k], snap)
      decreases j - k
    {
      k := k + 1;
    }
  }

  /** A list becomes durable with its index: what a save or merge listed is durable once that put is made. */
  lemma PutMakesDurable(c: Setup, s: State, t: State, snap: Snapshot)
    requires PutIndex(c, s, t) && snap in s.mem.snapshots
    ensures Durable(t, snap)
  {
    hide Padded, IndexText, WrittenAfter;
  }

  // ── A fold that could not be written down ────────────────────────

  /** The merger holds the lock over its new list, and `undo` is what it will put back if a put fails. */
  predicate HoldsLock(s: State, undo: seq<Snapshot>) {
    s.lock.Taken? && s.lock.holder == MergerActor && s.lock.undo == Some(undo)
  }

  lemma MergerHolds(c: Setup, s: State, t: State, step: Step)
    requires Next(c, s, t, step) && (step.StrideBeginsStep? || step.MergePublishesStep?)
    ensures HoldsLock(t, s.mem.snapshots)
  {
    hide Merger.StrideDrops, Merger.Published, Merger.Spent, Unwritten, PinnedIds, PutRanks, PutIndex, PersistFails,
      SaveBegins, SaveReads, SaveFails, SavePuts, SavePublishes, SaverSweeps, MergerSweeps, Deletes, MergeBegins,
      MergeReads,
      MergeFails, MergePuts, LoadBegins, LoadGetsPack, LoadFindsBase, LoadFinishes, LoadFails, NamesBegin, NameReads,
      NamesEnd, Crashes, Restarts, BootEnds;
  }

  lemma HolderRuns(c: Setup, s: State, undo: seq<Snapshot>)
    requires Inv(c, s) && HoldsLock(s, undo)
    ensures s.mode == Running && s.merger.MPublishing?
  {
    InvSays(c, s);
    hide Inv, Records, DiskOk, IndexOk, Present, SaverOk, MergerOk, LoadersOk, SweepsOk, RetainedOk, ListsOk;
  }

  /** Nobody else touches the lock while the merger has it. */
  lemma HoldsOn(c: Setup, s: State, t: State, step: Step, undo: seq<Snapshot>)
    requires Inv(c, s) && Next(c, s, t, step) && HoldsLock(s, undo) && t.lock.Taken?
    ensures HoldsLock(t, undo)
  {
    HolderRuns(c, s, undo);
    hide Inv;
    if LoadersOwn(step) || NamesOwn(step) {
      hide Next;
      LoadersLeaveLock(c, s, t, step);
    } else if PersistsOwn(step) {
      hide Next;
      PersistLeavesLock(c, s, t, step);
    } else if SaversOwn(step) {
      hide Next;
      SaverLeavesLock(c, s, t, step);
    } else if MergersOwn(step) {
      hide Next;
      MergerLeavesLock(c, s, t, step);
    } else {
      hide Restarts, Unwritten;
    }
  }

  lemma PersistLeavesLock(c: Setup, s: State, t: State, step: Step)
    requires Next(c, s, t, step) && PersistsOwn(step) && t.lock.Taken?
    ensures s.lock.Taken? && t.lock.holder == s.lock.holder && t.lock.undo == s.lock.undo
  {
    hide Padded, RanksText, IndexText, WrittenAfter, Restored, SaveBegins, SaveReads, SaveFails, SavePuts,
      SavePublishes, SaverSweeps, MergerSweeps, Deletes, StrideBegins, MergeBegins, MergeReads, MergeFails,
      MergePuts, MergePublishes, LoadBegins, LoadGetsPack, LoadFindsBase, LoadFinishes, LoadFails, NamesBegin,
      NameReads, NamesEnd, Crashes, Restarts, BootEnds;
  }

  lemma SaverLeavesLock(c: Setup, s: State, t: State, step: Step)
    requires Next(c, s, t, step) && SaversOwn(step) && s.lock.Taken?
    ensures t.lock == s.lock
  {
    hide ProcessedAll, Laid, CacheFor, ContentsOf, RetainedAfter, SavedSnapshot, RetainedOf, Padded, ChosenBase,
      PutRanks,
      PutIndex, PersistFails, Deletes, StrideBegins, MergeBegins, MergeReads, MergeFails, MergePuts, MergePublishes,
      LoadBegins, LoadGetsPack, LoadFindsBase, LoadFinishes, LoadFails, NamesBegin, NameReads, NamesEnd, Crashes,
      Restarts,
      BootEnds;
  }

  lemma MergerLeavesLock(c: Setup, s: State, t: State, step: Step)
    requires Next(c, s, t, step) && MergersOwn(step) && s.lock.Taken?
    ensures t.lock == s.lock
  {
    hide Merge.MergedRank, Merger.MergedContext, Merger.PlanFull, Merger.StrideDrops, Padded, PutRanks, PutIndex,
      PersistFails,
      SaveBegins, SaveReads, SaveFails, SavePuts, SavePublishes, SaverSweeps, MergerSweeps, Deletes, LoadBegins,
      LoadGetsPack, LoadFindsBase, LoadFinishes, LoadFails, NamesBegin, NameReads, NamesEnd, Crashes, Restarts,
      BootEnds;
  }

  lemma LoadersLeaveLock(c: Setup, s: State, t: State, step: Step)
    requires Next(c, s, t, step) && (LoadersOwn(step) || NamesOwn(step))
    ensures t.lock == s.lock
  {
    hide Load.LoadAll, LoaderFinder, Find, Pinning, NameRead, PutRanks, PutIndex, PersistFails, SaveBegins, SaveReads,
      SaveFails, SavePuts, SavePublishes, SaverSweeps, MergerSweeps, Deletes, StrideBegins, MergeBegins, MergeReads,
      MergeFails, MergePuts, MergePublishes, Crashes, Restarts, BootEnds;
  }

  lemma {:induction false} HeldSince(c: Setup, states: seq<State>, steps: seq<Step>, k: nat, i: nat)
    requires GoodSetup(c) && Run(c, states, steps) && k < i < |states| && k < |steps|
    requires steps[k].StrideBeginsStep? || steps[k].MergePublishesStep?
    requires forall j :: k < j <= i ==> states[j].lock.Taken?
    ensures HoldsLock(states[i], states[k].mem.snapshots)
    decreases i
  {
    hide Run, Inv, GoodSetup, Next, HoldsLock;
    RunIsLong(c, states, steps);
    NextAt(c, states, steps, i - 1);
    if i == k + 1 {
      MergerHolds(c, states[k], states[i], steps[k]);
    } else {
      HeldSince(c, states, steps, k, i - 1);
      RunKeeps(c, states, steps, i - 1);
      HoldsOn(c, states[i - 1], states[i], steps[i - 1], states[k].mem.snapshots);
    }
  }

  lemma PersistFailsAt(c: Setup, s: State, t: State, undo: seq<Snapshot>)
    requires Next(c, s, t, PersistFailsStep) && HoldsLock(s, undo)
    ensures t.mem.snapshots == undo && t.indexed == s.indexed && t.lock == Free && t.merger == MIdle && t.claim == {}
  {
    hide PutRanks, PutIndex, SaveBegins, SaveReads, SaveFails, SavePuts, SavePublishes, SaverSweeps, MergerSweeps,
      Deletes,
      StrideBegins, MergeBegins, MergeReads, MergeFails, MergePuts, MergePublishes, LoadBegins, LoadGetsPack,
      LoadFindsBase,
      LoadFinishes, LoadFails, NamesBegin, NameReads, NamesEnd, Crashes, Restarts, BootEnds, WrittenAfter;
  }

  /**
   A fold that could not be written down changes nothing: the lock taken by a stride fold or a merge's
   publish at step `k` and held until a put fails at step `i`, the list is what it was before.
   */
  lemma AFailedFoldChangesNothing(c: Setup, states: seq<State>, steps: seq<Step>, k: nat, i: nat)
    requires GoodSetup(c) && Run(c, states, steps) && k < i < |steps| && steps[i] == PersistFailsStep
    requires steps[k].StrideBeginsStep? || steps[k].MergePublishesStep?
    requires |states| == |steps| + 1 && forall j :: k < j <= i ==> states[j].lock.Taken?
    ensures states[i + 1].mem.snapshots == states[k].mem.snapshots
    ensures states[i + 1].indexed == states[i].indexed && states[i + 1].merger == MIdle && states[i + 1].claim == {}
  {
    hide Run, Inv, GoodSetup, Next, HoldsLock;
    HeldSince(c, states, steps, k, i);
    NextAt(c, states, steps, i);
    PersistFailsAt(c, states[i], states[i + 1], states[k].mem.snapshots);
  }
}
