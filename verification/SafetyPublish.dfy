/** The steps that write a pack, take the lock, persist under it and unlink. */
module SafetyPublish {
  import opened Bytes
  import opened Manifest
  import opened Env
  import opened Shard
  import opened Core
  import opened ManifestIO
  import opened Retain
  import opened Protocol
  import opened Safety
  import Merger

  // ── A pack goes down ─────────────────────────────────────────────

  lemma PresentGrows(
      c: Setup, files: Files, path: Path, data: Bytes, packs: set<Id>, ranks: set<Id>, more: set<Id>,
      moreRanks: set<Id>)
    requires Present(c, files, packs, ranks)
    requires forall id :: id in more - packs ==> path == PackOfId(c, id)
    requires forall id :: id in moreRanks - ranks ==> path == Ranks(id)
    ensures Present(c, files[path := data], more, moreRanks)
  {
  }

  lemma DiskGrowsByPack(c: Setup, files: Files, h: History, id: Id)
    requires DiskOk(c, files, h) && id in h
    ensures DiskOk(c, files[PackOfId(c, id) := Padded(h[id].pack, c.page)], h)
  {
    var more := files[PackOfId(c, id) := Padded(h[id].pack, c.page)];
    PaddedHolds(h[id].pack, c.page);
    hide Holds, RanksText, Padded;
    forall p | p in more
      ensures FileOk(c, more, h, p)
    {
      assert p != PackOfId(c, id) ==> FileOk(c, files, h, p);
    }
  }

  lemma DiskGrowsByRanks(c: Setup, files: Files, h: History, s: Snapshot)
    requires DiskOk(c, files, h) && Known(h, s)
    ensures DiskOk(c, files[Ranks(s.id) := Padded(RanksText(c.env, s), c.page)], h)
  {
    var more := files[Ranks(s.id) := Padded(RanksText(c.env, s), c.page)];
    PaddedHolds(RanksText(c.env, s), c.page);
    hide Holds, RanksText, Padded;
    forall p | p in more
      ensures FileOk(c, more, h, p)
    {
      assert p != Ranks(s.id) ==> FileOk(c, files, h, p);
    }
  }

  /** The index stays what it was while other files come. */
  lemma IndexUntouched(c: Setup, files: Files, path: Path, data: Bytes, indexed: Option<Manifest>)
    requires IndexOk(c, files, indexed) && path != Index
    ensures IndexOk(c, files[path := data], indexed)
    ensures IndexOk(c, files - {path}, indexed)
  {
    hide Holds;
  }

  /** The pack of a record in flight goes down. */
  ghost predicate PackStep(c: Setup, s: State, t: State, r: Record) {
    && s.mode.Running?
    && ( (s.saver.Packing? && s.saver.record == r
          && t == s.(files := s.files[PackOfId(c, r.snapshot.id) := Padded(r.pack, c.page)],
                     saver := Packed(r, s.saver.base)))
      || (s.merger.MPacking? && s.merger.record == r
          && t == s.(files := s.files[PackOfId(c, r.snapshot.id) := Padded(r.pack, c.page)],
                     merger := MPacked(r, s.merger.base, s.merger.deltas))))
  }

  lemma PackStepKeeps(c: Setup, s: State, t: State, r: Record)
    requires Inv(c, s) && PackStep(c, s, t, r)
    ensures Inv(c, t)
  {
    hide *;
    InvSays(c, s);
    PackStepSame(c, s, t, r);
    DiskGrowsByPack(c, s.files, s.history, r.snapshot.id);
    IndexUntouched(c, s.files, PackOfId(c, r.snapshot.id), Padded(r.pack, c.page), s.indexed);
    PackStepThreads(c, s, t, r);
    PackStepSweeps(c, s, t, r);
    PackStepNeeds(c, s, t, r);
    PresentGrows(c, s.files, PackOfId(c, r.snapshot.id), Padded(r.pack, c.page), NeedPacks(s), NeedRanks(s),
                 NeedPacks(t), NeedRanks(t));
    InvIs(c, t);
  }

  lemma PackStepSame(c: Setup, s: State, t: State, r: Record)
    requires PackStep(c, s, t, r) && SaverOk(s) && MergerOk(s)
    ensures t.files == s.files[PackOfId(c, r.snapshot.id) := Padded(r.pack, c.page)]
            && PackOfId(c, r.snapshot.id) != Index
    ensures t.history == s.history && t.indexed == s.indexed && t.pins == s.pins && t.loaders == s.loaders
            && t.retained == s.retained
    ensures r.snapshot.id in s.history && s.history[r.snapshot.id] == r
  {
    hide BaseOk, InputsOk, ClaimClosed, Padded;
  }

  lemma PackStepNeeds(c: Setup, s: State, t: State, r: Record)
    requires PackStep(c, s, t, r)
    ensures forall id :: id in NeedPacks(t) - NeedPacks(s) ==> PackOfId(c, r.snapshot.id) == PackOfId(c, id)
    ensures NeedRanks(t) == NeedRanks(s)
  {
    hide PinnedIds, Ids, Padded;
  }

  lemma PackStepThreads(c: Setup, s: State, t: State, r: Record)
    requires PackStep(c, s, t, r) && ListsOk(s) && LockOk(s) && ModeOk(c, s) && SaverOk(s) && MergerOk(s)
    ensures ListsOk(t) && LockOk(t) && ModeOk(c, t) && SaverOk(t) && MergerOk(t)
  {
    PackStepActors(c, s, t, r);
    PackStepLists(c, s, t, r);
    hide PinnedIds, Ids, Padded, SaverOk, MergerOk, ListsOk, EmptyManifest;
  }

  lemma PackStepLists(c: Setup, s: State, t: State, r: Record)
    requires PackStep(c, s, t, r) && ListsOk(s)
    ensures ListsOk(t)
  {
    hide Listed, Padded;
  }

  lemma PackStepActors(c: Setup, s: State, t: State, r: Record)
    requires PackStep(c, s, t, r) && SaverOk(s) && MergerOk(s)
    ensures SaverOk(t) && MergerOk(t)
  {
    hide PinnedIds, Ids, ClaimClosed, InputsOk, Padded, RecordOk, Known, BaseOk, SameBase, MergedOk;
  }

  lemma PackStepSweeps(c: Setup, s: State, t: State, r: Record)
    requires PackStep(c, s, t, r) && SweepsOk(s)
    ensures SweepsOk(t)
  {
    hide PinnedIds, Ids, Padded, Apart;
  }

  lemma SavePutsKeeps(c: Setup, s: State, t: State)
    requires Inv(c, s) && SavePuts(c, s, t)
    ensures Inv(c, t)
  {
    hide Inv, Padded;
    PackStepKeeps(c, s, t, s.saver.record);
  }

  lemma MergePutsKeeps(c: Setup, s: State, t: State)
    requires Inv(c, s) && MergePuts(c, s, t)
    ensures Inv(c, t)
  {
    hide Inv, Padded;
    PackStepKeeps(c, s, t, s.merger.record);
  }

  // ── A file goes away ─────────────────────────────────────────────

  /** A file somebody deletes is of a snapshot nobody lists and nobody reads. */
  lemma DyingIsUnneeded(c: Setup, s: State, id: Id)
    requires Inv(c, s) && id in Dying(s)
    ensures id !in Ids(s.mem.snapshots) && id !in IndexedIds(s) && id !in UndoIds(s) && id !in PinnedIds(s.pins)
    ensures id !in SaverRecord(s) && id !in MergerRecord(s) && id !in s.mem.ranksWritten
    ensures id !in NeedPacks(s) && id !in NeedRanks(s)
  {
    hide Records, DiskOk, IndexOk, Present, ListsOk, SaverOk, MergerOk, LoadersOk, LockOk, ModeOk, RetainedOk, Dying,
      SweepIds,
      PinnedIds, Ids, Parting;
  }

  lemma DiskShrinks(c: Setup, files: Files, h: History, path: Path)
    requires DiskOk(c, files, h)
    ensures DiskOk(c, files - {path}, h)
  {
    hide Holds, RanksText;
    forall p | p in files - {path}
      ensures FileOk(c, files - {path}, h, p)
    {
      assert FileOk(c, files, h, p);
    }
  }

  lemma DeletesKeeps(c: Setup, s: State, t: State, path: Path)
    requires Inv(c, s) && Deletes(s, t, path)
    ensures Inv(c, t)
  {
    assert path != Index;
    var id := DirOf(path).value;
    assert id in Dying(s) && t == s.(files := s.files - {path});
    assert forall other :: PackOfId(c, other) == path || Ranks(other) == path ==> other == id;
    hide *;
    InvSays(c, s);
    DyingIsUnneeded(c, s, id);
    DiskShrinks(c, s.files, s.history, path);
    IndexUntouched(c, s.files, path, [], s.indexed);
    PresentShrinks(c, s.files, path, id, NeedPacks(s), NeedRanks(s));
    FilesOnly(c, s, t);
    InvIs(c, t);
  }

  lemma PresentShrinks(c: Setup, files: Files, path: Path, id: Id, packs: set<Id>, ranks: set<Id>)
    requires Present(c, files, packs, ranks) && id !in packs && id !in ranks
    requires forall other :: PackOfId(c, other) == path || Ranks(other) == path ==> other == id
    ensures Present(c, files - {path}, packs, ranks)
  {
  }

  /** Nothing but what is said of files depends on files. */
  lemma FilesOnly(c: Setup, s: State, t: State)
    requires t == s.(files := t.files)
    requires ListsOk(s) && LockOk(s) && ModeOk(c, s) && SweepsOk(s) && SaverOk(s) && MergerOk(s)
    ensures ListsOk(t) && LockOk(t) && ModeOk(c, t) && SweepsOk(t) && SaverOk(t) && MergerOk(t)
    ensures NeedPacks(t) == NeedPacks(s) && NeedRanks(t) == NeedRanks(s)
  {
    hide PinnedIds, Listed, Ids, ClaimClosed, InputsOk, RecordOk, Known, Apart;
  }

  // ── Ranks files ──────────────────────────────────────────────────

  lemma PutRanksKeeps(c: Setup, s: State, t: State, snap: Snapshot)
    requires Inv(c, s) && PutRanks(c, s, t, snap)
    ensures Inv(c, t)
  {
    PutRanksIs(c, s, t, snap);
    hide *;
    InvSays(c, s);
    MemIsKnown(c, s, snap);
    DiskGrowsByRanks(c, s.files, s.history, snap);
    IndexUntouched(c, s.files, Ranks(snap.id), Padded(RanksText(c.env, snap), c.page), s.indexed);
    PutRanksRest(c, s, t, snap.id);
    PresentGrows(c, s.files, Ranks(snap.id), Padded(RanksText(c.env, snap), c.page), NeedPacks(s), NeedRanks(s),
                 NeedPacks(t), NeedRanks(t));
    InvIs(c, t);
  }

  lemma PutRanksIs(c: Setup, s: State, t: State, snap: Snapshot)
    requires PutRanks(c, s, t, snap)
    ensures t.files == s.files[Ranks(snap.id) := Padded(RanksText(c.env, snap), c.page)] && Ranks(snap.id) != Index
    ensures s.lock.Taken? && snap in s.mem.snapshots
    ensures t == s.(files := t.files, lock := s.lock.(todo := s.lock.todo - {snap.id}))
  {
    hide Padded, RanksText;
  }

  lemma PutRanksRest(c: Setup, s: State, t: State, id: Id)
    requires s.lock.Taken? && t == s.(files := t.files, lock := s.lock.(todo := s.lock.todo - {id}))
    requires ListsOk(s) && LockOk(s) && ModeOk(c, s) && SweepsOk(s) && SaverOk(s) && MergerOk(s)
    ensures ListsOk(t) && LockOk(t) && ModeOk(c, t) && SweepsOk(t) && SaverOk(t) && MergerOk(t)
    ensures NeedPacks(t) <= NeedPacks(s) && forall other ::
              other in NeedRanks(t) - NeedRanks(s) ==> Ranks(id) == Ranks(other)
  {
    hide PinnedIds, Listed, Ids, ClaimClosed, InputsOk, RecordOk, Known, Apart;
  }

  // ── Taking the lock ──────────────────────────────────────────────

  /** The new list is made, and what a failure would restore is kept beside it. */
  ghost predicate LockStep(s: State, t: State, holder: Actor, undo: Option<seq<Snapshot>>) {
    && s.lock.Free?
    && t == s.(mem := s.mem.(snapshots := t.mem.snapshots), lock := Taken(holder, Unwritten(t.mem), undo),
               saver := t.saver, merger := t.merger, claim := t.claim, mode := t.mode)
    && (undo.Some? ==> undo.value == s.mem.snapshots)
  }

  lemma LockStepLists(c: Setup, s: State, t: State, holder: Actor, undo: Option<seq<Snapshot>>)
    requires Records(c, s.history) && ListsOk(s) && LockStep(s, t, holder, undo) && Listed(s.history, t.mem.snapshots)
    ensures ListsOk(t)
    ensures NeedRanks(t) <= NeedRanks(s)
  {
    AllOutOfLine(c, s.history, t.mem);
    hide Records, Listed, Unwritten, WrittenAfter, Ids, Sound;
    NothingListed(s.history);
  }

  lemma NothingListed(h: History)
    ensures Listed(h, []) && Ids([]) == {}
  {
  }

  lemma LockStepKeeps(c: Setup, s: State, t: State, holder: Actor, undo: Option<seq<Snapshot>>)
    requires Inv(c, s) && LockStep(s, t, holder, undo) && Listed(s.history, t.mem.snapshots)
    requires NeedPacks(t) <= NeedPacks(s)
    requires SaverOk(t) && MergerOk(t) && LockOk(t) && ModeOk(c, t) && SweepsOk(t)
    ensures Inv(c, t)
  {
    assert t.files == s.files && t.history == s.history && t.indexed == s.indexed && t.pins == s.pins
           && t.loaders == s.loaders
           && t.retained == s.retained;
    hide *;
    InvSays(c, s);
    LockStepLists(c, s, t, holder, undo);
    PresentLess(c, s.files, NeedPacks(s), NeedRanks(s), NeedPacks(t), NeedRanks(t));
    InvIs(c, t);
  }

  lemma PresentLess(c: Setup, files: Files, packs: set<Id>, ranks: set<Id>, fewer: set<Id>, fewerRanks: set<Id>)
    requires Present(c, files, packs, ranks) && fewer <= packs && fewerRanks <= ranks
    ensures Present(c, files, fewer, fewerRanks)
  {
  }

  // ── A save publishes ─────────────────────────────────────────────

  lemma PushKeepsSound(h: History, ss: seq<Snapshot>, s: Snapshot)
    requires Listed(h, ss) && Known(h, s) && s.id !in Ids(ss)
    requires s.base.Some? ==> exists b :: b in ss && b.id == s.base.value && b.base.None?
    ensures Listed(h, ss + [s]) && Ids(ss + [s]) == Ids(ss) + {s.id}
  {
    var more := ss + [s];
    assert forall x :: x in more <==> x in ss || x == s;
    forall x, b | x in more && b in more && x.base == Some(b.id)
      ensures b.base.None?
    {
      if x == s {
        var f :| f in ss && f.id == s.base.value && f.base.None?;
        assert b in ss ==> h[b.id].snapshot == b && h[f.id].snapshot == f;
      }
    }
  }

  lemma RetainedIsListed(h: History, m: Manifest)
    requires Listed(h, m.snapshots)
    ensures Listed(h, RetainedOf(m)) && Ids(RetainedOf(m)) <= Ids(m.snapshots)
  {
    RetentionKeeps(m);
    hide RetainedOf, Protected, Sound;
  }

  lemma PackedIsNew(s: State)
    requires ListsOk(s) && SaverOk(s) && SweepsOk(s) && s.saver.Packed?
    ensures
      var r := s.saver.record.snapshot;
      && Known(s.history, r) && r.id !in Ids(s.mem.snapshots)
      && (r.base.Some? ==> exists b :: b in s.mem.snapshots && b.id == r.base.value && b.base.None?)
  {
    hide PinnedIds;
  }

  /** What a save pushes, what retention leaves of it, and that the lists stay sound. */
  lemma PublishedBySave(c: Setup, s: State, t: State) returns (pushed: Manifest, left: seq<Snapshot>)
    requires SavePublishes(s, t) && ListsOk(s) && SaverOk(s) && SweepsOk(s)
    ensures s.saver.Packed? && s.lock.Free? && s.mode.Running?
    ensures pushed == s.mem.(snapshots := s.mem.snapshots + [s.saver.record.snapshot]) && left == RetainedOf(pushed)
    ensures Listed(s.history, pushed.snapshots) && Listed(s.history, left) && Ids(left) <= Ids(pushed.snapshots)
    ensures Ids(pushed.snapshots) == Ids(s.mem.snapshots) + SaverRecord(s)
    ensures forall x :: x in left ==> x in s.mem.snapshots || x == s.saver.record.snapshot
    ensures t == Locked(s.(saver := Publishing(Ids(pushed.snapshots) - Ids(left))), SaverActor, left, None)
  {
    hide RetainedOf, Locked, PinnedIds, Without, Distinct, Closed, BasesAreFull, SweepsOk;
    PackedIsNew(s);
    var r := s.saver.record;
    pushed := s.mem.(snapshots := s.mem.snapshots + [r.snapshot]);
    left := RetainedOf(pushed);
    hide Sound, Ids, SaverOk;
    PushKeepsSound(s.history, s.mem.snapshots, r.snapshot);
    RetainedIsListed(s.history, pushed);
    ListedMembers(s.history, pushed, left);
  }

  lemma ListedMembers(h: History, m: Manifest, left: seq<Snapshot>)
    requires Listed(h, m.snapshots) && left == RetainedOf(m)
    ensures forall x :: x in left ==> x in m.snapshots
  {
    RetentionKeeps(m);
  }

  lemma SavePublishesKeeps(c: Setup, s: State, t: State)
    requires Inv(c, s) && SavePublishes(s, t)
    ensures Inv(c, t)
  {
    hide Inv, RetainedOf, Sound, PinnedIds, Ids, ListsOk, SaverOk, SweepsOk, MergerOk, LockOk, ModeOk, Locked, Listed,
      SavePublishes,
      Present, NeedPacks, Records, DiskOk, IndexOk, LoadersOk;
    InvSays(c, s);
    var pushed, left := PublishedBySave(c, s, t);
    SavePublishesThreads(c, s, t, pushed, left);
    SavePublishesSets(c, s, t, pushed, left);
    assert LockStep(s, t, SaverActor, None) && t.mem.snapshots == left by {
      LockedIs(s.(saver := Publishing(Ids(pushed.snapshots) - Ids(left))), SaverActor, left, None);
    }
    LockStepKeeps(c, s, t, SaverActor, None);
  }

  lemma UnwrittenAreListed(m: Manifest)
    ensures Unwritten(m) <= Ids(m.snapshots)
  {
  }

  lemma LockedIs(s: State, holder: Actor, snapshots: seq<Snapshot>, undo: Option<seq<Snapshot>>)
    ensures
      var t := Locked(s, holder, snapshots, undo);
      && t.mem == s.mem.(snapshots := snapshots) && t.lock == Taken(holder, Unwritten(t.mem), undo)
      && t == s.(mem := t.mem, lock := t.lock)
  {
  }

  lemma SavePublishesThreads(c: Setup, s: State, t: State, pushed: Manifest, left: seq<Snapshot>)
    requires s.saver.Packed? && s.lock.Free? && s.mode.Running?
    requires t == Locked(s.(saver := Publishing(Ids(pushed.snapshots) - Ids(left))), SaverActor, left, None)
    requires forall x :: x in left ==> x in s.mem.snapshots || x == s.saver.record.snapshot
    requires SaverOk(s) && MergerOk(s) && LockOk(s) && ModeOk(c, s)
    ensures SaverOk(t) && MergerOk(t) && LockOk(t) && ModeOk(c, t)
  {
    UnwrittenAreListed(s.mem.(snapshots := left));
    hide Ids, PinnedIds, InputsOk, RecordOk, Unwritten;
  }

  lemma SavePublishesSets(c: Setup, s: State, t: State, pushed: Manifest, left: seq<Snapshot>)
    requires s.saver.Packed? && s.lock.Free? && s.mode.Running? && LockOk(s)
    requires t == Locked(s.(saver := Publishing(Ids(pushed.snapshots) - Ids(left))), SaverActor, left, None)
    requires Ids(left) <= Ids(pushed.snapshots) && Ids(pushed.snapshots) == Ids(s.mem.snapshots) + SaverRecord(s)
    requires SweepsOk(s) && Listed(s.history, pushed.snapshots)
    ensures SweepsOk(t) && NeedPacks(t) <= NeedPacks(s)
  {
    ListedIds(s.history, pushed.snapshots);
    NothingListed(s.history);
    hide Ids, PinnedIds, Listed, Unwritten;
  }

  // ── The merger publishes ─────────────────────────────────────────

  /** A list the merger is about to put in place, with what it takes out. */
  ghost predicate MergerTakesLock(s: State, t: State, drops: set<Id>, listed: seq<Snapshot>) {
    && s.lock.Free? && s.mode.Running? && (s.merger.MIdle? || s.merger.MPacked?)
    && t == Locked(s.(claim := drops, merger := MPublishing(drops)), MergerActor, listed, Some(s.mem.snapshots))
    && (s.claim == drops || drops !! PinnedIds(s.pins))
    && drops <= s.history.Keys && drops !! SaverRecord(s)
    && drops !! Ids(listed)
    && Ids(listed) <= Ids(s.mem.snapshots) + (if s.merger.MPacked? then MergerRecord(s) else {})
    && Listed(s.history, listed)
    && ClaimClosed(s.mem.snapshots, drops) && ClaimClosed(listed, drops)
    && forall b :: b in s.mem.snapshots && b.id !in drops ==> b in listed
  }

  lemma MergerTakesLockKeeps(c: Setup, s: State, t: State, drops: set<Id>, listed: seq<Snapshot>)
    requires Inv(c, s) && MergerTakesLock(s, t, drops, listed)
    ensures Inv(c, t)
  {
    hide *;
    InvSays(c, s);
    MergerTakesLockSaver(s, t, drops, listed);
    MergerTakesLockThreads(c, s, t, drops, listed);
    MergerTakesLockSets(c, s, t, drops, listed);
    MergerLockStep(s, t, drops, listed);
    LockStepKeeps(c, s, t, MergerActor, Some(s.mem.snapshots));
  }

  lemma MergerLockStep(s: State, t: State, drops: set<Id>, listed: seq<Snapshot>)
    requires MergerTakesLock(s, t, drops, listed)
    ensures LockStep(s, t, MergerActor, Some(s.mem.snapshots)) && Listed(s.history, t.mem.snapshots)
  {
    hide Ids, PinnedIds, Unwritten, Listed, ClaimClosed;
  }

  lemma MergerTakesLockSaver(s: State, t: State, drops: set<Id>, listed: seq<Snapshot>)
    requires MergerTakesLock(s, t, drops, listed) && SaverOk(s) && LockOk(s)
    ensures SaverOk(t)
  {
    if SaverActor in s.pins {
      PinsAreIn(s.pins, SaverActor);
    }
    hide Ids, PinnedIds, Unwritten, Listed, ClaimClosed, RecordOk;
  }

  lemma MergerTakesLockThreads(c: Setup, s: State, t: State, drops: set<Id>, listed: seq<Snapshot>)
    requires MergerTakesLock(s, t, drops, listed) && MergerOk(s) && LockOk(s) && ModeOk(c, s)
    ensures MergerOk(t) && LockOk(t) && ModeOk(c, t)
  {
    UnwrittenAreListed(s.mem.(snapshots := listed));
    hide Ids, PinnedIds, Unwritten, Listed, ClaimClosed;
  }

  lemma MergerTakesLockSets(c: Setup, s: State, t: State, drops: set<Id>, listed: seq<Snapshot>)
    requires MergerTakesLock(s, t, drops, listed) && SweepsOk(s) && LockOk(s)
    ensures SweepsOk(t) && NeedPacks(t) <= NeedPacks(s)
  {
    NothingListed(s.history);
    hide Ids, PinnedIds, Unwritten, Listed, ClaimClosed;
  }

  lemma StrideIsListed(h: History, ss: seq<Snapshot>, cfg: Merger.MergerConfig)
    requires Listed(h, ss)
    ensures
      var drops := Merger.StrideDrops(ss, cfg);
      && Listed(h, Without(ss, drops)) && Ids(Without(ss, drops)) <= Ids(ss)
      && drops <= Ids(ss) && drops !! Ids(Without(ss, drops))
      && ClaimClosed(ss, drops) && ClaimClosed(Without(ss, drops), drops)
  {
    Merger.StrideKeepsSound(ss, cfg);
    var drops := Merger.StrideDrops(ss, cfg);
    forall id | id in drops
      ensures id in Ids(ss)
    {
      var s :| s in ss && s.id == id && s.finalized;
    }
    forall d | d in ss && d.base.Some?
      ensures d.base.value !in drops
    {
      var b :| b in ss && b.id == d.base.value;
      assert b.base.None? && b in Without(ss, drops);
    }
  }

  lemma StrideBeginsKeeps(c: Setup, s: State, t: State)
    requires Inv(c, s) && StrideBegins(c, s, t)
    ensures Inv(c, t)
  {
    hide Inv, PinnedIds, Ids, Merger.StrideDrops, Locked, Listed, ClaimClosed, ListsOk, SaverOk, MergerOk, LockOk,
      ModeOk,
      Present, Records, DiskOk, IndexOk, LoadersOk, RetainedOk, NeedPacks, NeedRanks, Apart;
    InvSays(c, s);
    MemIsListed(c, s);
    ListedIds(s.history, s.mem.snapshots);
    StrideIsListed(s.history, s.mem.snapshots, c.merger);
    var drops := Merger.StrideDrops(s.mem.snapshots, c.merger);
    SaverRecordNotListed(s);
    MergerTakesLockKeeps(c, s, t, drops, Without(s.mem.snapshots, drops));
  }

  lemma SaverRecordNotListed(s: State)
    requires SweepsOk(s)
    ensures SaverRecord(s) !! Ids(s.mem.snapshots) && MergerRecord(s) !! Ids(s.mem.snapshots)
            && SaverRecord(s) !! MergerRecord(s)
    ensures s.claim !! SaverRecord(s) && s.claim !! MergerRecord(s) && s.claim <= s.history.Keys
  {
    hide Ids, PinnedIds;
  }

  lemma PublishedIsListed(h: History, ss: seq<Snapshot>, spent: set<Id>, merged: Snapshot)
    requires Listed(h, ss) && Known(h, merged) && merged.base.None? && merged.id !in Ids(ss) && merged.id !in spent
    requires ClaimClosed(ss, spent)
    ensures
      var r := Merger.Published(ss, spent, merged);
      && Listed(h, r) && Ids(r) <= Ids(ss) + {merged.id} && spent !! Ids(r) && ClaimClosed(r, spent)
      && forall b :: b in ss && b.id !in spent ==> b in r
  {
    Merger.PublishKeepsSound(ss, spent, merged);
  }

  lemma MergePublishesIs(s: State, t: State)
    requires MergePublishes(s, t) && MergerOk(s)
    ensures s.lock.Free? && s.mode.Running? && s.merger.MPacked?
    ensures
      var merged := s.merger.record.snapshot;
      && Known(s.history, merged) && merged.base.None? && MergerRecord(s) == {merged.id}
      && ClaimClosed(s.mem.snapshots, s.claim)
      && t == Locked(s.(claim := s.claim, merger := MPublishing(s.claim)), MergerActor,
                     Merger.Published(s.mem.snapshots, s.claim, merged), Some(s.mem.snapshots))
  {
    MergedIsKnown(s);
    assert s.(claim := s.claim, merger := MPublishing(s.claim)) == s.(merger := MPublishing(s.claim));
    hide Merger.Published, Locked, ClaimClosed, PinnedIds, Ids, MergerOk, Known, Merger.Spent;
  }

  lemma MergedIsKnown(s: State)
    requires s.merger.MPacked? && MergerOk(s)
    ensures
      var merged := s.merger.record.snapshot;
      && Known(s.history, merged) && merged.base.None? && MergerRecord(s) == {merged.id}
      && ClaimClosed(s.mem.snapshots, s.claim) && s.claim == Merger.Spent(s.merger.base, s.merger.deltas)
  {
    hide ClaimClosed, Merger.Spent;
  }

  lemma MergePublishesKeeps(c: Setup, s: State, t: State)
    requires Inv(c, s) && MergePublishes(s, t)
    ensures Inv(c, t)
  {
    hide *;
    InvSays(c, s);
    MergePublishesIs(s, t);
    MemIsListed(c, s);
    SaverRecordNotListed(s);
    PublishedIsListed(s.history, s.mem.snapshots, s.claim, s.merger.record.snapshot);
    MergePublishesTakesLock(s, t, s.merger.record.snapshot);
    MergerTakesLockKeeps(c, s, t, s.claim, Merger.Published(s.mem.snapshots, s.claim, s.merger.record.snapshot));
  }

  lemma MergePublishesTakesLock(s: State, t: State, merged: Snapshot)
    requires s.lock.Free? && s.mode.Running? && s.merger.MPacked? && merged == s.merger.record.snapshot
    requires s.claim <= s.history.Keys && s.claim !! SaverRecord(s)
    requires
      var listed := Merger.Published(s.mem.snapshots, s.claim, merged);
      && Listed(s.history, listed) && Ids(listed) <= Ids(s.mem.snapshots) + {merged.id} && s.claim !! Ids(listed)
      && ClaimClosed(listed, s.claim) && ClaimClosed(s.mem.snapshots, s.claim)
      && (forall b :: b in s.mem.snapshots && b.id !in s.claim ==> b in listed)
      && t == Locked(s.(claim := s.claim, merger := MPublishing(s.claim)), MergerActor, listed, Some(s.mem.snapshots))
    ensures MergerTakesLock(s, t, s.claim, Merger.Published(s.mem.snapshots, s.claim, merged))
  {
    hide Ids, PinnedIds, Listed, ClaimClosed, Locked, Merger.Published;
  }

  // ── Recovery ends ────────────────────────────────────────────────

  lemma BootEndsKeeps(c: Setup, s: State, t: State)
    requires Inv(c, s) && BootEnds(s, t)
    ensures Inv(c, t)
  {
    hide Inv, PinnedIds, Ids, Listed, ClaimClosed, Present, Records, DiskOk, IndexOk, LoadersOk, RetainedOk, Unwritten;
    InvSays(c, s);
    MemIsListed(c, s);
    NothingListed(s.history);
    BootEndsThreads(c, s, t);
    BootEndsSets(c, s, t);
    hide ListsOk, SaverOk, MergerOk, LockOk, ModeOk, SweepsOk, NeedPacks, NeedRanks;
    if s.mode.changed {
      LockStepKeeps(c, s, t, BootActor, None);
    } else {
      assert t == s.(mode := Running);
      ModeOnly(c, s, t);
      InvIs(c, t);
    }
  }

  lemma ModeOnly(c: Setup, s: State, t: State)
    requires t == s.(mode := Running) && ListsOk(s) && Present(c, s.files, NeedPacks(s), NeedRanks(s))
    ensures ListsOk(t) && Present(c, t.files, NeedPacks(t), NeedRanks(t))
  {
    hide Listed, Ids, PinnedIds;
  }

  lemma BootEndsThreads(c: Setup, s: State, t: State)
    requires BootEnds(s, t) && SaverOk(s) && MergerOk(s) && LockOk(s) && ModeOk(c, s)
    ensures SaverOk(t) && MergerOk(t) && LockOk(t) && ModeOk(c, t)
    ensures s.lock.Free?
  {
    UnwrittenAreListed(s.mem);
    assert s.mem.(snapshots := s.mem.snapshots) == s.mem;
    hide Ids, PinnedIds, Unwritten, Listed, ClaimClosed;
  }

  lemma BootEndsSets(c: Setup, s: State, t: State)
    requires BootEnds(s, t) && SweepsOk(s) && LockOk(s) && ModeOk(c, s)
    ensures SweepsOk(t) && NeedPacks(t) <= NeedPacks(s)
  {
    NothingListed(s.history);
    hide Ids, PinnedIds, Unwritten, Listed;
  }

  // ── A persist ends ───────────────────────────────────────────────

  lemma PutIndexIs(c: Setup, s: State, t: State)
    requires PutIndex(c, s, t)
    ensures s.lock.Taken? && s.lock.todo == {}
    ensures t.files == s.files[Index := Padded(IndexText(c, s.mem), c.page)]
    ensures t.mem == Recorded(s.mem) && t.indexed == Some(Recorded(s.mem)) && t.lock == Free
    ensures t.history == s.history && t.loaders == s.loaders && t.retained == s.retained
    ensures t == Released(s.(files := t.files, mem := t.mem, indexed := t.indexed), true)
  {
    hide Padded, IndexText, WrittenAfter;
  }

  lemma DiskGrowsByIndex(c: Setup, files: Files, h: History, data: Bytes)
    requires DiskOk(c, files, h)
    ensures DiskOk(c, files[Index := data], h)
  {
    var more := files[Index := data];
    hide Holds, RanksText;
    forall p | p in more
      ensures FileOk(c, more, h, p)
    {
      assert p != Index ==> FileOk(c, files, h, p);
    }
  }

  lemma IndexIsWritten(c: Setup, files: Files, h: History, m: Manifest)
    requires Records(c, h) && Listed(h, m.snapshots)
    ensures IndexOk(c, files[Index := Padded(IndexText(c, m), c.page)], Some(Recorded(m)))
    ensures Recorded(m).ranksWritten == Ids(m.snapshots)
  {
    AllOutOfLine(c, h, m);
    PaddedHolds(IndexText(c, m), c.page);
    assert IndexOf(Recorded(m), Ids(m.snapshots)) == IndexOf(m, WrittenAfter(m));
    hide Records, Listed, Holds, Padded, HeadsOf, Ids;
  }

  /** What the holder of the lock becomes once its persist is over; nobody else changes. */
  predicate HolderMoves(s: State, t: State, ok: bool) {
    && t.lock == Free && t.history == s.history && t.loaders == s.loaders && t.retained == s.retained
    && !t.saver.Publishing? && !t.merger.MPublishing?
    && (t.mode == s.mode || (s.mode.Recording? && t.mode == Running)) && !t.mode.Recording?
    && (t.saver == s.saver ||
        (s.saver.Publishing? && (if ok then t.saver == Unlinking(Waiting(s.saver.evicted)) else t.saver == Idle)))
    && ((t.merger == s.merger && t.claim == s.claim) ||
        (s.merger.MPublishing?
         && (if ok then t.merger == MUnlinking(Waiting(s.merger.spent)) && t.claim == s.claim
             else t.merger == MIdle && t.claim == {})))
  }

  lemma ReleasedMoves(s: State, u: State, t: State, ok: bool)
    requires s.lock.Taken? && LockOk(s) && u == s.(files := u.files, mem := u.mem, indexed := u.indexed)
    requires t == Released(u, ok)
    ensures HolderMoves(s, t, ok) && t.mem == u.mem && t.indexed == u.indexed
  {
  }

  lemma PutIndexThreads(c: Setup, s: State, t: State)
    requires s.lock.Taken? && t == Released(s.(files := t.files, mem := Recorded(s.mem), indexed := t.indexed), true)
    requires SaverOk(s) && MergerOk(s) && LockOk(s) && ModeOk(c, s) && SweepsOk(s)
    ensures SaverOk(t) && MergerOk(t) && LockOk(t) && ModeOk(c, t)
    ensures t.pins == s.pins || t.pins == s.pins - {SaverActor}
  {
    PutIndexActors(c, s, t);
    hide Ids, PinnedIds, SaverOk, MergerOk, WrittenAfter, EmptyManifest, SweepsOk;
  }

  lemma PutIndexActors(c: Setup, s: State, t: State)
    requires s.lock.Taken? && t == Released(s.(files := t.files, mem := Recorded(s.mem), indexed := t.indexed), true)
    requires SaverOk(s) && MergerOk(s) && LockOk(s) && SweepsOk(s)
    ensures SaverOk(t) && MergerOk(t)
  {
    ReleasedMoves(s, s.(files := t.files, mem := Recorded(s.mem), indexed := t.indexed), t, true);
    PutIndexMerger(s, t);
    hide Ids, PinnedIds, RecordOk, WrittenAfter, MergerOk, SweepsOk, SameBase;
  }

  lemma PutIndexMerger(s: State, t: State)
    requires MergerOk(s) && HolderMoves(s, t, true) && t.mem.snapshots == s.mem.snapshots
    ensures MergerOk(t)
  {
    NothingListed(s.history);
    hide InputsOk, MergedOk, Ids;
  }

  /** What the index's being down makes of the sets: what was on its way out is now being swept. */
  lemma PutIndexMoves(c: Setup, s: State, t: State)
    requires s.lock.Taken? && s.lock.todo == {} && LockOk(s) && ModeOk(c, s)
    requires t == Released(s.(files := t.files, mem := Recorded(s.mem), indexed := Some(Recorded(s.mem))), true)
    ensures SweepIds(t) <= SweepIds(s) + Parting(s) && Dying(t) == Dying(s) && Dying(t) <= SweepIds(t)
            && Parting(t) == {}
    ensures SaverRecord(t) <= SaverRecord(s) && MergerRecord(t) <= MergerRecord(s) && PackedIds(t) <= PackedIds(s)
    ensures t.claim <= s.claim && t.history == s.history && t.lock == Free
    ensures t.mem == Recorded(s.mem) && t.indexed == Some(Recorded(s.mem)) && UndoIds(t) == {}
  {
    ReleasedMoves(s, s.(files := t.files, mem := Recorded(s.mem), indexed := Some(Recorded(s.mem))), t, true);
    NothingListed(s.history);
    hide Ids, PinnedIds, Listed, WrittenAfter, EmptyManifest, Released, LockOk, ModeOk;
  }

  lemma SweptIsApart(
      sweep: set<Id>, dying: set<Id>, parting: set<Id>, mem: set<Id>, indexed: set<Id>, undo: set<Id>, written: set<Id>,
      saving: set<Id>, merging: set<Id>, pinned: set<Id>, known: set<Id>,
      swept: set<Id>, fewerSaving: set<Id>, fewerMerging: set<Id>, fewerPinned: set<Id>)
    requires Apart(sweep, dying, parting, mem, indexed, undo, written, saving, merging, pinned, known)
    requires swept <= sweep + parting && dying <= swept
    requires fewerSaving <= saving && fewerMerging <= merging && fewerPinned <= pinned
    ensures Apart(swept, dying, {}, mem, mem, {}, mem, fewerSaving, fewerMerging, fewerPinned, known)
  {
  }

  lemma PutIndexSets(c: Setup, s: State, t: State)
    requires s.lock.Taken? && s.lock.todo == {}
    requires t == Released(s.(files := t.files, mem := Recorded(s.mem), indexed := Some(Recorded(s.mem))), true)
    requires WrittenAfter(s.mem) == Ids(s.mem.snapshots) && PinnedIds(t.pins) <= PinnedIds(s.pins)
    requires SweepsOk(s) && LockOk(s) && ModeOk(c, s)
    ensures SweepsOk(t) && NeedPacks(t) <= NeedPacks(s) && NeedRanks(t) <= NeedRanks(s)
  {
    PutIndexMoves(c, s, t);
    hide Ids, PinnedIds, WrittenAfter, Apart, SweepIds, Dying, Parting, SaverRecord, MergerRecord, PackedIds,
      Released, UndoIds, LockOk,
      ModeOk;
    SweptIsApart(SweepIds(s), Dying(s), Parting(s), Ids(s.mem.snapshots), IndexedIds(s), UndoIds(s), s.mem.ranksWritten,
                 SaverRecord(s), MergerRecord(s), PinnedIds(s.pins), s.history.Keys,
                 SweepIds(t), SaverRecord(t), MergerRecord(t), PinnedIds(t.pins));
  }

  lemma PutIndexLists(c: Setup, s: State, t: State)
    requires ListsOk(s) && t.mem == Recorded(s.mem) && t.indexed == Some(Recorded(s.mem)) && t.lock == Free
             && t.history == s.history
    ensures ListsOk(t)
  {
    NothingListed(s.history);
    hide Listed, WrittenAfter;
  }

  lemma PutIndexKeeps(c: Setup, s: State, t: State)
    requires Inv(c, s) && PutIndex(c, s, t)
    ensures Inv(c, t)
  {
    hide *;
    InvSays(c, s);
    PutIndexIs(c, s, t);
    MemIsListed(c, s);
    DiskGrowsByIndex(c, s.files, s.history, Padded(IndexText(c, s.mem), c.page));
    IndexIsWritten(c, s.files, s.history, s.mem);
    AllOutOfLine(c, s.history, s.mem);
    PutIndexThreads(c, s, t);
    PinReplaces(s.pins, SaverActor, {});
    LoadersSurviveRelease(c, s, t);
    PutIndexSets(c, s, t);
    PutIndexLists(c, s, t);
    PresentLess(c, s.files, NeedPacks(s), NeedRanks(s), NeedPacks(t), NeedRanks(t));
    PresentWithIndex(c, s.files, Padded(IndexText(c, s.mem), c.page), NeedPacks(t), NeedRanks(t));
    InvIs(c, t);
  }

  lemma PresentWithIndex(c: Setup, files: Files, data: Bytes, packs: set<Id>, ranks: set<Id>)
    requires Present(c, files, packs, ranks)
    ensures Present(c, files[Index := data], packs, ranks)
  {
  }

  lemma LoadersSurviveRelease(c: Setup, s: State, t: State)
    requires LoadersOk(c, s.history, s.pins, s.loaders) && (t.pins == s.pins || t.pins == s.pins - {SaverActor})
    ensures LoadersOk(c, s.history, t.pins, s.loaders)
  {
    LoadersUnaffected(c, s.history, s.pins, t.pins, s.loaders);
    hide LoadersOk;
  }

  // ── A persist fails ──────────────────────────────────────────────

  lemma PersistFailsIs(s: State, t: State)
    requires PersistFails(s, t)
    ensures s.lock.Taken? && t.lock == Free && t.mem.snapshots == Restored(s)
    ensures t.mem.ranksWritten == if s.lock.todo == {} then WrittenAfter(s.mem) else s.mem.ranksWritten
    ensures t.files == s.files && t.history == s.history && t.loaders == s.loaders && t.retained == s.retained
            && t.indexed == s.indexed
    ensures t == Released(s.(mem := t.mem), false)
  {
    hide WrittenAfter;
  }

  lemma PersistFailsThreads(c: Setup, s: State, t: State)
    requires s.lock.Taken? && t == Released(s.(mem := t.mem), false) && t.mem.snapshots == Restored(s)
    requires SaverOk(s) && MergerOk(s) && LockOk(s) && ModeOk(c, s)
    ensures SaverOk(t) && MergerOk(t) && LockOk(t) && ModeOk(c, t)
    ensures t.pins == s.pins || t.pins == s.pins - {SaverActor}
  {
    NothingListed(s.history);
    hide Ids, PinnedIds, Listed, InputsOk, RecordOk, SameBase, EmptyManifest;
  }

  /** A failure leaves nothing on its way out, and the list is the one before or the one after. */
  lemma PersistFailsMoves(c: Setup, s: State, t: State)
    requires s.lock.Taken? && LockOk(s) && ModeOk(c, s)
    requires t == Released(s.(mem := t.mem), false) && t.mem.snapshots == Restored(s)
    ensures SweepIds(t) == SweepIds(s) && Dying(t) == Dying(s) && Parting(t) == {}
    ensures SaverRecord(t) <= SaverRecord(s) && MergerRecord(t) <= MergerRecord(s) && PackedIds(t) <= PackedIds(s)
    ensures t.claim <= s.claim && t.history == s.history && t.lock == Free && t.indexed == s.indexed
    ensures Ids(t.mem.snapshots) <= Ids(s.mem.snapshots) + UndoIds(s) && UndoIds(t) == {}
  {
    ReleasedMoves(s, s.(mem := t.mem), t, false);
    NothingListed(s.history);
    assert t.mem.snapshots == s.mem.snapshots || t.mem.snapshots == UndoList(s);
    hide Ids, PinnedIds, Listed, EmptyManifest, Released, Restored, LockOk, ModeOk;
  }

  lemma RestoredIsApart(
      sweep: set<Id>, dying: set<Id>, parting: set<Id>, mem: set<Id>, indexed: set<Id>, undo: set<Id>, written: set<Id>,
      saving: set<Id>, merging: set<Id>, pinned: set<Id>, known: set<Id>,
      left: set<Id>, newlyWritten: set<Id>, fewerSaving: set<Id>, fewerMerging: set<Id>, fewerPinned: set<Id>)
    requires Apart(sweep, dying, parting, mem, indexed, undo, written, saving, merging, pinned, known)
    requires left <= mem + undo && newlyWritten <= written + mem
    requires fewerSaving <= saving && fewerMerging <= merging && fewerPinned <= pinned
    ensures Apart(sweep, dying, {}, left, indexed, {}, newlyWritten, fewerSaving, fewerMerging, fewerPinned, known)
  {
  }

  lemma PersistFailsSets(c: Setup, s: State, t: State)
    requires s.lock.Taken? && t == Released(s.(mem := t.mem), false) && t.mem.snapshots == Restored(s)
    requires t.mem.ranksWritten == if s.lock.todo == {} then WrittenAfter(s.mem) else s.mem.ranksWritten
    requires WrittenAfter(s.mem) == Ids(s.mem.snapshots) && PinnedIds(t.pins) <= PinnedIds(s.pins)
    requires SweepsOk(s) && LockOk(s) && ModeOk(c, s)
    ensures SweepsOk(t) && NeedPacks(t) <= NeedPacks(s) && NeedRanks(t) <= NeedRanks(s)
  {
    PersistFailsMoves(c, s, t);
    hide Ids, PinnedIds, WrittenAfter, Apart, SweepIds, Dying, Parting, SaverRecord, MergerRecord, PackedIds,
      Released, Restored, UndoIds,
      LockOk, ModeOk;
    RestoredIsApart(SweepIds(s), Dying(s), Parting(s), Ids(s.mem.snapshots), IndexedIds(s), UndoIds(s),
                    s.mem.ranksWritten,
                    SaverRecord(s), MergerRecord(s), PinnedIds(s.pins), s.history.Keys,
                    Ids(t.mem.snapshots), t.mem.ranksWritten, SaverRecord(t), MergerRecord(t), PinnedIds(t.pins));
  }

  lemma PersistFailsLists(c: Setup, s: State, t: State)
    requires ListsOk(s) && s.lock.Taken? && t.mem.snapshots == Restored(s) && t.indexed == s.indexed && t.lock == Free
             && t.history == s.history
    ensures ListsOk(t)
  {
    NothingListed(s.history);
    hide Listed;
  }

  lemma PersistFailsKeeps(c: Setup, s: State, t: State)
    requires Inv(c, s) && PersistFails(s, t)
    ensures Inv(c, t)
  {
    hide *;
    InvSays(c, s);
    PersistFailsIs(s, t);
    MemIsListed(c, s);
    AllOutOfLine(c, s.history, s.mem);
    PersistFailsThreads(c, s, t);
    PinReplaces(s.pins, SaverActor, {});
    LoadersSurviveRelease(c, s, t);
    PersistFailsSets(c, s, t);
    PersistFailsLists(c, s, t);
    PresentLess(c, s.files, NeedPacks(s), NeedRanks(s), NeedPacks(t), NeedRanks(t));
    InvIs(c, t);
  }
}
