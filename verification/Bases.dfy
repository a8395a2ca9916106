/** Which base a save is written against, and that no delta of any run is further from it than the policy allows. */
module Bases {
  import opened Bytes
  import opened Manifest
  import opened Env
  import opened Layout
  import opened Save
  import opened Core
  import opened ManifestIO
  import opened Retain
  import opened Protocol
  import opened Safety
  import opened SafetyBoot
  import opened Steps
  import opened Theorems
  import Merge
  import Merger
  import Recovery

  /** The base is the newest full, when the policy lets a delta be written on it and no merge has claimed it. */
  lemma ChosenExactly(s: State, step: nat, full: Snapshot)
    ensures ChosenBase(s, step) == Some(full) <==> MayBuildOn(s.mem.snapshots, s.mem.retention, s.claim, step, full)
  {
    var ss := s.mem.snapshots;
    LastFullIs(ss, full);
    if LastFull(ss).Some? {
      ForcedExactly(s.mem, step, LastFull(ss).value);
    }
    hide ShouldForceFull, LastFull, IsLastFull, EndsInDeltas;
  }

  // ── The policy never changes ─────────────────────────────────────

  predicate PolicyIs(s: State, r: Retention) {
    s.mem.retention == r && (s.indexed.Some? ==> s.indexed.value.retention == r)
  }

  lemma RestartReadsPolicy(c: Setup, s: State, t: State, step: Step)
    requires GoodSetup(c) && Inv(c, s) && Next(c, s, t, step) && step.RestartsStep? && PolicyIs(s, c.retention)
    ensures t.mem.retention == c.retention
  {
    hide Inv, GoodSetup, LoadManifest, Recovery.Readmitted, Recovery.Recovered, Recovery.MeetsOrphans, ListsPacks;
    IndexReadsBack(c, s);
  }

  lemma PolicyStays(c: Setup, s: State, t: State, step: Step)
    requires GoodSetup(c) && Inv(c, s) && Next(c, s, t, step) && PolicyIs(s, c.retention)
    ensures PolicyIs(t, c.retention)
  {
    hide Inv, GoodSetup, Next;
    if step.RestartsStep? {
      RestartReadsPolicy(c, s, t, step);
    }
    if LoadersOwn(step) {
      LoadersKeepFiles(c, s, t, step);
    } else if NamesOwn(step) {
      NamesKeepFiles(c, s, t, step);
    } else if SaversOwn(step) {
      SaverKeepsFiles(c, s, t, step);
    } else if MergersOwn(step) {
      MergerKeepsFiles(c, s, t, step);
    } else if PersistsOwn(step) {
      PersistKeepsPolicy(c, s, t, step);
    } else if BootsOwn(step) {
      BootKeepsFiles(c, s, t, step);
    } else {
      DeletesKeepLists(c, s, t, step);
    }
  }

  lemma DeletesKeepLists(c: Setup, s: State, t: State, step: Step)
    requires Next(c, s, t, step) && step.DeletesStep?
    ensures t.mem == s.mem && t.indexed == s.indexed
  {
  }

  lemma {:induction false} RunKeepsPolicy(c: Setup, states: seq<State>, steps: seq<Step>, i: nat)
    requires GoodSetup(c) && Run(c, states, steps) && i < |states|
    ensures PolicyIs(states[i], c.retention)
  {
    hide Inv, GoodSetup, Next, PolicyIs;
    if i == 0 {
      InitHasPolicy(c, states[0]);
    } else {
      RunKeepsPolicy(c, states, steps, i - 1);
      RunKeeps(c, states, steps, i - 1);
      PolicyStays(c, states[i - 1], states[i], steps[i - 1]);
    }
  }

  lemma InitHasPolicy(c: Setup, s: State)
    requires Init(c, s)
    ensures PolicyIs(s, c.retention)
  {
  }

  // ── What a save that begins takes ────────────────────────────────

  lemma BeginsWith(s: State, t: State, c: Setup, job: SaveJob)
    requires Next(c, s, t, SaveBeginsStep(job))
    ensures t.saver == Diffing(job, ChosenBase(s, job.ctx.step))
    ensures job.ctx.base.Some? <==> ChosenBase(s, job.ctx.step).Some?
    ensures job.ctx.base.Some? ==> job.ctx.base.value == ChosenBase(s, job.ctx.step).value.id
  {
    hide ChosenBase;
  }

  /**
   Whatever else is going on, a save that begins is a delta exactly when the list's newest full may
   still be built on: it is within `full_snapshot_every_steps` of it, the list does not end in
   `max_deltas_per_full` deltas, more than one snapshot may be kept, and no merge has claimed it.
   */
  lemma EverySaveTakesItsBase(c: Setup, states: seq<State>, steps: seq<Step>, i: nat, job: SaveJob)
    requires GoodSetup(c) && Run(c, states, steps) && i < |steps| && steps[i] == SaveBeginsStep(job)
    ensures |states| == |steps| + 1
    ensures
      var s := states[i];
      && (job.ctx.base.Some? <==>
            exists full :: MayBuildOn(s.mem.snapshots, c.retention, s.claim, job.ctx.step, full))
      && forall full :: MayBuildOn(s.mem.snapshots, c.retention, s.claim, job.ctx.step, full) ==>
           states[i + 1].saver == Diffing(job, Some(full)) && job.ctx.base == Some(full.id)
  {
    var s := states[i];
    hide *;
    NextAt(c, states, steps, i);
    RunKeepsPolicy(c, states, steps, i);
    PolicyOf(s, c.retention);
    BeginsWith(s, states[i + 1], c, job);
    forall full
      ensures ChosenBase(s, job.ctx.step) == Some(full) <==>
              MayBuildOn(s.mem.snapshots, c.retention, s.claim, job.ctx.step, full)
    {
      ChosenExactly(s, job.ctx.step, full);
    }
  }

  lemma PolicyOf(s: State, r: Retention)
    requires PolicyIs(s, r)
    ensures s.mem.retention == r
  {
  }

  // ── What is recorded ─────────────────────────────────────────────

  /** Step `j` handed in the save that is being worked out in state `k`. */
  predicate BegunAt(states: seq<State>, steps: seq<Step>, j: nat, k: nat) {
    && j < k < |states| && k <= |steps|
    && states[k].saver.Diffing? && steps[j] == SaveBeginsStep(states[k].saver.job)
       && states[j + 1].saver == states[k].saver
  }

  lemma {:induction false} SaveHasBegun(c: Setup, states: seq<State>, steps: seq<Step>, k: nat) returns (j: nat)
    requires Run(c, states, steps) && k < |states| && k <= |steps| && states[k].saver.Diffing?
    ensures BegunAt(states, steps, j, k)
  {
    hide Next;
    assert k > 0;
    NextAt(c, states, steps, k - 1);
    SaverJobIsNew(c, states[k - 1], states[k], steps[k - 1]);
    if states[k].saver == states[k - 1].saver {
      j := SaveHasBegun(c, states, steps, k - 1);
    } else {
      j := k - 1;
    }
  }

  lemma ReadsRecord(c: Setup, s: State, t: State, step: Step)
    requires Next(c, s, t, step) && step.SaveReadsStep?
    ensures s.saver.Diffing? && s.saver.job.ctx.id in t.history
    ensures
      var ctx, snap := s.saver.job.ctx, t.history[s.saver.job.ctx.id].snapshot;
      && snap.id == ctx.id && snap.step == ctx.step && snap.base == ctx.base
      && snap.createdAt == ctx.createdAt && snap.metadata == ctx.metadata && snap.compression == s.algo
  {
    hide ProcessedAll, Laid, CacheFor, ContentsOf, RetainedAfter;
  }

  /** A save records the base it was handed, so it records a delta exactly when the list it began over allowed one. */
  lemma EveryRecordHasItsBase(c: Setup, states: seq<State>, steps: seq<Step>, k: nat) returns (j: nat)
    requires GoodSetup(c) && Run(c, states, steps) && k < |steps| && steps[k].SaveReadsStep?
    ensures |states| == |steps| + 1 && BegunAt(states, steps, j, k)
    ensures
      var ctx, s := states[k].saver.job.ctx, states[j];
      && ctx.id in states[k + 1].history
      && var snap := states[k + 1].history[ctx.id].snapshot;
         && snap.step == ctx.step && snap.createdAt == ctx.createdAt && snap.metadata == ctx.metadata
         && (snap.base.Some? <==> exists full :: MayBuildOn(s.mem.snapshots, c.retention, s.claim, ctx.step, full))
         && forall full ::
              MayBuildOn(s.mem.snapshots, c.retention, s.claim, ctx.step, full) ==> snap.base == Some(full.id)
  {
    hide *;
    NextAt(c, states, steps, k);
    ReadsRecord(c, states[k], states[k + 1], steps[k]);
    j := SaveHasBegun(c, states, steps, k);
    BegunSays(states, steps, j, k);
    EverySaveTakesItsBase(c, states, steps, j, states[k].saver.job);
  }

  lemma BegunSays(states: seq<State>, steps: seq<Step>, j: nat, k: nat)
    requires BegunAt(states, steps, j, k)
    ensures j < k < |states| && k <= |steps| && states[k].saver.Diffing?
            && steps[j] == SaveBeginsStep(states[k].saver.job)
  {
  }

  // ── How far a delta can be from its base ─────────────────────────

  /** Every delta recorded is less than `every` steps past its base. */
  predicate InReach(h: History, every: nat) {
    forall id :: id in h && h[id].snapshot.base.Some? ==>
      var b := h[id].snapshot.base.value;
      b in h && h[id].snapshot.step < h[b].snapshot.step + every
  }

  /** And so will be what the saver has in hand. */
  predicate JobInReach(s: State, every: nat) {
    s.saver.Diffing? && s.saver.job.ctx.base.Some? ==>
      var b := s.saver.job.ctx.base.value;
      b in s.history && s.saver.job.ctx.step < s.history[b].snapshot.step + every
  }

  lemma BegunInReach(c: Setup, s: State, t: State, job: SaveJob)
    requires GoodSetup(c) && Inv(c, s) && Next(c, s, t, SaveBeginsStep(job)) && PolicyIs(s, c.retention)
    ensures JobInReach(t, c.retention.fullSnapshotEverySteps)
  {
    BeginsWith(s, t, c, job);
    var base := ChosenBase(s, job.ctx.step);
    HistoryOnlyGrows(c, s, t, SaveBeginsStep(job));
    hide Inv, GoodSetup, Next, ChosenBase, MayBuildOn;
    if base.Some? {
      ChosenExactly(s, job.ctx.step, base.value);
      AllowedIs(s.mem.snapshots, s.mem.retention, s.claim, job.ctx.step, base.value);
      MemIsKnown(c, s, base.value);
      KnownIs(s.history, base.value);
    }
  }

  lemma AllowedIs(ss: seq<Snapshot>, r: Retention, claimed: set<Id>, step: nat, full: Snapshot)
    requires MayBuildOn(ss, r, claimed, step, full)
    ensures full in ss && step < full.step + r.fullSnapshotEverySteps
  {
    hide EndsInDeltas;
  }

  lemma MergedHasNoBase(c: Setup, s: State, t: State, step: Step)
    requires Next(c, s, t, step) && step.MergeReadsStep?
    ensures step.id in t.history && t.history[step.id].snapshot.base.None?
    ensures t.history.Keys == s.history.Keys + {step.id}
  {
    hide Merge.MergedRank, Merger.Decimal;
  }

  lemma ReadsOne(c: Setup, s: State, t: State, step: Step)
    requires Next(c, s, t, step) && step.SaveReadsStep?
    ensures s.saver.Diffing? && t.history.Keys == s.history.Keys + {s.saver.job.ctx.id}
  {
    hide ProcessedAll, Laid, CacheFor, ContentsOf, RetainedAfter, SavedSnapshot;
  }

  lemma ReachStays(c: Setup, s: State, t: State, step: Step, every: nat)
    requires GoodSetup(c) && Inv(c, s) && Next(c, s, t, step) && PolicyIs(s, c.retention)
    requires every == c.retention.fullSnapshotEverySteps && InReach(s.history, every) && JobInReach(s, every)
    ensures InReach(t.history, every)
  {
    hide Inv, GoodSetup, Next, Makes;
    HistoryOnlyGrows(c, s, t, step);
    if step.SaveReadsStep? {
      ReadsRecord(c, s, t, step);
      ReadsOne(c, s, t, step);
    } else if step.MergeReadsStep? {
      MergedHasNoBase(c, s, t, step);
    } else {
      OthersKeepHistory(c, s, t, step);
    }
  }

  lemma JobReachStays(c: Setup, s: State, t: State, step: Step, every: nat)
    requires GoodSetup(c) && Inv(c, s) && Next(c, s, t, step) && PolicyIs(s, c.retention)
    requires every == c.retention.fullSnapshotEverySteps && JobInReach(s, every)
    ensures JobInReach(t, every)
  {
    hide Inv, GoodSetup, Next, Makes;
    HistoryOnlyGrows(c, s, t, step);
    if t.saver.Diffing? {
      SaverJobIsNew(c, s, t, step);
      if t.saver != s.saver {
        BegunInReach(c, s, t, t.saver.job);
      }
    }
  }

  /**
   In every state of every run, each delta ever recorded has its base on record and is less than
   `full_snapshot_every_steps` steps past it.
   */
  lemma {:induction false} EveryDeltaIsInReach(c: Setup, states: seq<State>, steps: seq<Step>, i: nat)
    requires GoodSetup(c) && Run(c, states, steps) && i < |states|
    ensures InReach(states[i].history, c.retention.fullSnapshotEverySteps)
    ensures JobInReach(states[i], c.retention.fullSnapshotEverySteps)
  {
    hide Inv, GoodSetup, Next, PolicyIs, InReach, JobInReach;
    var every := c.retention.fullSnapshotEverySteps;
    if i == 0 {
      InitInReach(c, states[0], every);
    } else {
      EveryDeltaIsInReach(c, states, steps, i - 1);
      RunKeeps(c, states, steps, i - 1);
      RunKeepsPolicy(c, states, steps, i - 1);
      ReachStays(c, states[i - 1], states[i], steps[i - 1], every);
      JobReachStays(c, states[i - 1], states[i], steps[i - 1], every);
    }
  }

  lemma InitInReach(c: Setup, s: State, every: nat)
    requires Init(c, s)
    ensures InReach(s.history, every) && JobInReach(s, every)
  {
  }
}
