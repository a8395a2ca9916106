/** What each kind of step can change. */
module Steps {
  import opened Manifest
  import opened Env
  import opened Shard
  import opened Layout
  import opened Save
  import opened Core
  import opened ManifestIO
  import opened Retain
  import opened Protocol
  import Load
  import Merge
  import Merger
  import Recovery

  // ── Files ────────────────────────────────────────────────────────

  predicate LoadersOwn(step: Step) {
    step.LoadBeginsStep? || step.LoadGetsPackStep? || step.LoadFindsBaseStep? || step.LoadFinishesStep?
      || step.LoadFailsStep?
  }

  predicate SaversOwn(step: Step) {
    || step.SaveBeginsStep? || step.SaveReadsStep? || step.SaveFailsStep? || step.SavePutsStep?
       || step.SavePublishesStep?
    || step.SaverSweepsStep? || step.MergerSweepsStep?
  }

  predicate MergersOwn(step: Step) {
    || step.StrideBeginsStep? || step.MergeBeginsStep? || step.MergeReadsStep? || step.MergeFailsStep?
       || step.MergePutsStep?
    || step.MergePublishesStep?
  }

  predicate PersistsOwn(step: Step) {
    step.PutRanksStep? || step.PutIndexStep? || step.PersistFailsStep?
  }

  predicate BootsOwn(step: Step) {
    step.CrashesStep? || step.RestartsStep? || step.BootEndsStep?
  }

  predicate NamesOwn(step: Step) {
    step.NamesBeginStep? || step.NameReadsStep? || step.NamesEndStep?
  }

  /** The merger has a fold in hand: what it began over and what goes into it. */
  predicate Folding(m: Merging) {
    m.MReading? || m.MPacking? || m.MPacked?
  }

  lemma OnlyDeletesDelete(c: Setup, s: State, t: State, step: Step, p: Path)
    requires Next(c, s, t, step) && p in s.files && p !in t.files
    ensures step == DeletesStep(p) && Deletes(s, t, p)
  {
    if LoadersOwn(step) {
      LoadersKeepFiles(c, s, t, step);
    } else if NamesOwn(step) {
      NamesKeepFiles(c, s, t, step);
    } else if SaversOwn(step) {
      SaverKeepsFiles(c, s, t, step);
    } else if MergersOwn(step) {
      MergerKeepsFiles(c, s, t, step);
    } else if PersistsOwn(step) {
      PersistKeepsFiles(c, s, t, step);
    } else if BootsOwn(step) {
      BootKeepsFiles(c, s, t, step);
    }
    hide PutRanks, PutIndex, PersistFails, SaveBegins, SaveReads, SaveFails, SavePuts, SavePublishes, SaverSweeps,
      MergerSweeps, Deletes,
      StrideBegins, MergeBegins, MergeReads, MergeFails, MergePuts, MergePublishes, LoadBegins, LoadGetsPack,
      LoadFindsBase,
      LoadFinishes, LoadFails, NamesBegin, NameReads, NamesEnd, Crashes, Restarts, BootEnds;
  }

  lemma LoadersKeepFiles(c: Setup, s: State, t: State, step: Step)
    requires Next(c, s, t, step)
    requires LoadersOwn(step)
    ensures t.files == s.files && t.history == s.history && t.saver == s.saver && t.merger == s.merger
    ensures t.mem == s.mem && t.indexed == s.indexed
  {
    hide Load.LoadAll, LoaderFinder, Find, Pinning, PutRanks, PutIndex, PersistFails, SaveBegins, SaveReads,
      SaveFails, SavePuts, SavePublishes, SaverSweeps, MergerSweeps, Deletes, StrideBegins, MergeBegins,
      MergeReads, MergeFails, MergePuts, MergePublishes, NamesBegin, NameReads, NamesEnd, Crashes, Restarts,
      BootEnds;
  }

  lemma NamesKeepFiles(c: Setup, s: State, t: State, step: Step)
    requires Next(c, s, t, step)
    requires NamesOwn(step)
    ensures t.files == s.files && t.history == s.history && t.saver == s.saver && t.merger == s.merger
    ensures t.mem == s.mem && t.indexed == s.indexed
  {
    hide NameRead, Pinning, PutRanks, PutIndex, PersistFails, SaveBegins, SaveReads, SaveFails, SavePuts,
      SavePublishes, SaverSweeps, MergerSweeps, Deletes, StrideBegins, MergeBegins, MergeReads, MergeFails,
      MergePuts, MergePublishes, LoadBegins, LoadGetsPack, LoadFindsBase, LoadFinishes, LoadFails, Crashes,
      Restarts, BootEnds;
  }

  lemma SaverKeepsFiles(c: Setup, s: State, t: State, step: Step)
    requires Next(c, s, t, step)
    requires SaversOwn(step)
    ensures t.loaders == s.loaders
    ensures s.files.Keys <= t.files.Keys
    ensures step.SaveReadsStep? || t.history == s.history
    ensures t.merger == s.merger || !Folding(t.merger)
    ensures t.saver.Diffing? ==> t.saver == s.saver || step == SaveBeginsStep(t.saver.job)
    ensures t.mem.retention == s.mem.retention && t.indexed == s.indexed
  {
    hide ProcessedAll, Laid, CacheFor, ContentsOf, RetainedAfter, SavedSnapshot, RetainedOf, Padded, Unwritten,
      ShouldForceFull, PutRanks, PutIndex, PersistFails, Deletes, StrideBegins, MergeBegins, MergeReads,
      MergeFails, MergePuts, MergePublishes, LoadBegins, LoadGetsPack, LoadFindsBase, LoadFinishes, LoadFails,
      NamesBegin, NameReads, NamesEnd, Crashes, Restarts, BootEnds;
  }

  lemma PersistKeepsFiles(c: Setup, s: State, t: State, step: Step)
    requires Next(c, s, t, step)
    requires PersistsOwn(step)
    ensures t.loaders == s.loaders || t.loaders == map[]
    ensures s.files.Keys <= t.files.Keys && t.history == s.history && (t.saver == s.saver || !t.saver.Diffing?)
    ensures t.merger == s.merger || !Folding(t.merger)
  {
    hide Padded, RanksText, IndexText, WrittenAfter, Restored, SaveBegins, SaveReads, SaveFails, SavePuts,
      SavePublishes, SaverSweeps, MergerSweeps, Deletes, StrideBegins, MergeBegins, MergeReads, MergeFails,
      MergePuts, MergePublishes, LoadBegins, LoadGetsPack, LoadFindsBase, LoadFinishes, LoadFails, NamesBegin,
      NameReads, NamesEnd, Crashes, Restarts, BootEnds;
  }

  lemma PersistKeepsPolicy(c: Setup, s: State, t: State, step: Step)
    requires Next(c, s, t, step)
    requires PersistsOwn(step)
    ensures t.mem.retention == s.mem.retention
    ensures t.indexed == s.indexed || (t.indexed.Some? && t.indexed.value.retention == s.mem.retention)
  {
    hide Padded, RanksText, IndexText, WrittenAfter, Restored, SaveBegins, SaveReads, SaveFails, SavePuts,
      SavePublishes, SaverSweeps, MergerSweeps, Deletes, StrideBegins, MergeBegins, MergeReads, MergeFails,
      MergePuts, MergePublishes, LoadBegins, LoadGetsPack, LoadFindsBase, LoadFinishes, LoadFails, NamesBegin,
      NameReads, NamesEnd, Crashes, Restarts, BootEnds;
  }

  lemma BootKeepsFiles(c: Setup, s: State, t: State, step: Step)
    requires Next(c, s, t, step)
    requires BootsOwn(step)
    ensures t.loaders == s.loaders || t.loaders == map[]
    ensures s.files.Keys <= t.files.Keys && t.history == s.history && (t.saver == s.saver || !t.saver.Diffing?)
    ensures t.merger == s.merger || !Folding(t.merger)
    ensures t.indexed == s.indexed
    ensures t.mem.retention == s.mem.retention || t.mem.retention == c.retention || step.RestartsStep?
  {
    hide LoadManifest, Recovery.Readmitted, Recovery.Recovered, Unwritten, PutRanks, PutIndex, PersistFails,
      SaveBegins, SaveReads, SaveFails, SavePuts, SavePublishes, SaverSweeps, MergerSweeps, Deletes,
      StrideBegins, MergeBegins, MergeReads, MergeFails, MergePuts, MergePublishes, LoadBegins, LoadGetsPack,
      LoadFindsBase, LoadFinishes, LoadFails, NamesBegin, NameReads, NamesEnd;
  }

  lemma MergerKeepsFiles(c: Setup, s: State, t: State, step: Step)
    requires Next(c, s, t, step)
    requires MergersOwn(step)
    ensures t.loaders == s.loaders
    ensures s.files.Keys <= t.files.Keys
    ensures (step.MergeReadsStep? || t.history == s.history) && t.saver == s.saver
    ensures Folding(t.merger) ==>
              step == MergeBeginsStep
                || (Folding(s.merger) && t.merger.base == s.merger.base && t.merger.deltas == s.merger.deltas)
    ensures t.mem.retention == s.mem.retention && t.indexed == s.indexed
  {
    hide Merge.MergedRank, Merger.MergedContext, Merger.Published, Merger.StrideDrops, Merger.PlanFull, Padded,
      Unwritten, PutRanks, PutIndex, PersistFails, SaveBegins, SaveReads, SaveFails, SavePuts, SavePublishes,
      SaverSweeps, MergerSweeps, Deletes, LoadBegins, LoadGetsPack, LoadFindsBase, LoadFinishes, LoadFails,
      NamesBegin, NameReads, NamesEnd, Crashes, Restarts, BootEnds;
  }

  // ── Records ──────────────────────────────────────────────────────

  /** A step that makes a record makes it of the tensors a save was given, or of the newest delta a merge folds. */
  ghost predicate Makes(c: Setup, s: State, step: Step, id: Id, contents: Contents) {
    || (step.SaveReadsStep? && s.saver.Diffing? && id == s.saver.job.ctx.id
        && contents == ContentsOf(c.env, c.config.tensors.policy, s.saver.job.tensors))
    || (step.MergeReadsStep? && id == step.id && s.merger.MReading? && s.merger.deltas != []
        && LastOf(s.merger.deltas).id in s.history && contents == s.history[LastOf(s.merger.deltas).id].contents)
  }

  lemma HistoryOnlyGrows(c: Setup, s: State, t: State, step: Step)
    requires Next(c, s, t, step)
    ensures forall id :: id in s.history ==> id in t.history && t.history[id] == s.history[id]
    ensures forall id :: id in t.history && id !in s.history ==> Makes(c, s, step, id, t.history[id].contents)
  {
    if !step.SaveReadsStep? && !step.MergeReadsStep? {
      OthersKeepHistory(c, s, t, step);
    }
    hide ProcessedAll, Laid, CacheFor, ContentsOf, RetainedAfter, SavedSnapshot, Merge.MergedRank,
      Merger.MergedContext, PutRanks,
      PutIndex, PersistFails, SaveBegins, SavePublishes, StrideBegins, MergeBegins, MergePublishes, LoadBegins,
      LoadGetsPack,
      LoadFindsBase, LoadFinishes, LoadFails, NamesBegin, NameReads, NamesEnd, Crashes, Restarts, BootEnds, Deletes;
  }

  lemma OthersKeepHistory(c: Setup, s: State, t: State, step: Step)
    requires Next(c, s, t, step) && !step.SaveReadsStep? && !step.MergeReadsStep?
    ensures t.history == s.history
  {
    if LoadersOwn(step) {
      LoadersKeepFiles(c, s, t, step);
    } else if NamesOwn(step) {
      NamesKeepFiles(c, s, t, step);
    } else if SaversOwn(step) {
      SaverKeepsFiles(c, s, t, step);
    } else if MergersOwn(step) {
      MergerKeepsFiles(c, s, t, step);
    } else if PersistsOwn(step) {
      PersistKeepsFiles(c, s, t, step);
    } else if BootsOwn(step) {
      BootKeepsFiles(c, s, t, step);
    }
    hide PutRanks, PutIndex, PersistFails, SaveBegins, SaveReads, SaveFails, SavePuts, SavePublishes,
      SaverSweeps, MergerSweeps, StrideBegins, MergeBegins, MergeReads, MergeFails, MergePuts, MergePublishes,
      LoadBegins, LoadGetsPack, LoadFindsBase, LoadFinishes, LoadFails, NamesBegin, NameReads, NamesEnd,
      Crashes, Restarts, BootEnds;
  }

  lemma SaverJobIsNew(c: Setup, s: State, t: State, step: Step)
    requires Next(c, s, t, step) && t.saver.Diffing?
    ensures t.saver == s.saver || step == SaveBeginsStep(t.saver.job)
  {
    if LoadersOwn(step) {
      LoadersKeepFiles(c, s, t, step);
    } else if NamesOwn(step) {
      NamesKeepFiles(c, s, t, step);
    } else if SaversOwn(step) {
      SaverKeepsFiles(c, s, t, step);
    } else if MergersOwn(step) {
      MergerKeepsFiles(c, s, t, step);
    } else if PersistsOwn(step) {
      PersistKeepsFiles(c, s, t, step);
    } else if BootsOwn(step) {
      BootKeepsFiles(c, s, t, step);
    }
    hide PutRanks, PutIndex, PersistFails, SaveBegins, SaveReads, SaveFails, SavePuts, SavePublishes,
      SaverSweeps, MergerSweeps, StrideBegins, MergeBegins, MergeReads, MergeFails, MergePuts, MergePublishes,
      LoadBegins, LoadGetsPack, LoadFindsBase, LoadFinishes, LoadFails, NamesBegin, NameReads, NamesEnd,
      Crashes, Restarts, BootEnds;
  }

  lemma MergeIsNew(c: Setup, s: State, t: State, step: Step)
    requires Next(c, s, t, step) && Folding(t.merger)
    ensures (step == MergeBeginsStep && MergeBegins(s, t))
            || (Folding(s.merger) && t.merger.base == s.merger.base && t.merger.deltas == s.merger.deltas)
  {
    if LoadersOwn(step) {
      LoadersKeepFiles(c, s, t, step);
    } else if NamesOwn(step) {
      NamesKeepFiles(c, s, t, step);
    } else if SaversOwn(step) {
      SaverKeepsFiles(c, s, t, step);
    } else if MergersOwn(step) {
      MergerKeepsFiles(c, s, t, step);
    } else if PersistsOwn(step) {
      PersistKeepsFiles(c, s, t, step);
    } else if BootsOwn(step) {
      BootKeepsFiles(c, s, t, step);
    }
    hide PutRanks, PutIndex, PersistFails, SaveBegins, SaveReads, SaveFails, SavePuts, SavePublishes,
      SaverSweeps, MergerSweeps, StrideBegins, MergeBegins, MergeReads, MergeFails, MergePuts, MergePublishes,
      LoadBegins, LoadGetsPack, LoadFindsBase, LoadFinishes, LoadFails, NamesBegin, NameReads, NamesEnd,
      Crashes, Restarts, BootEnds;
  }

  /** The two steps that make a record do make it. */
  lemma MakerRecords(c: Setup, s: State, t: State, step: Step)
    requires Next(c, s, t, step)
    ensures step.SaveReadsStep? ==>
              s.saver.Diffing? && s.saver.job.ctx.id !in s.history && s.saver.job.ctx.id in t.history
    ensures step.MergeReadsStep? ==>
              s.merger.MReading? && s.merger.deltas != [] && LastOf(s.merger.deltas).id in s.history
              && step.id !in s.history && step.id in t.history
  {
    hide ProcessedAll, Laid, CacheFor, ContentsOf, RetainedAfter, SavedSnapshot, Merge.MergedRank,
      Merger.MergedContext, NameRead,
      PutRanks, PutIndex, PersistFails, Restarts, LoadFinishes, SavePublishes, StrideBegins, MergeBegins,
      MergePublishes;
  }

  // ── Loaders ──────────────────────────────────────────────────────

  /** A load between its lookup and its last step stays as it is, whatever else is done. */
  lemma GotBaseStays(c: Setup, s: State, t: State, step: Step, n: nat)
    requires Next(c, s, t, step)
    requires n in s.loaders && s.loaders[n].GotBase? && n in t.loaders && t.loaders[n].GotBase?
    ensures t.loaders[n] == s.loaders[n]
  {
    if SaversOwn(step) {
      SaverKeepsFiles(c, s, t, step);
    } else if MergersOwn(step) {
      MergerKeepsFiles(c, s, t, step);
    } else if PersistsOwn(step) {
      PersistKeepsFiles(c, s, t, step);
    } else if BootsOwn(step) {
      BootKeepsFiles(c, s, t, step);
    }
    hide PutRanks, PutIndex, PersistFails, SaveBegins, SaveReads, SaveFails, SavePuts, SavePublishes,
      SaverSweeps, MergerSweeps, StrideBegins, MergeBegins, MergeReads, MergeFails, MergePuts, MergePublishes,
      Crashes, Restarts, BootEnds, Load.LoadAll, LoaderFinder, Find, NameRead, Failed;
  }
}
