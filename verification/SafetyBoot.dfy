/** Crash, restart and recovery keep the invariant too. */
module SafetyBoot {
  import opened Bytes
  import opened Compression
  import opened Manifest
  import opened Env
  import opened Shard
  import opened Core
  import opened ManifestIO
  import opened Retain
  import opened Protocol
  import opened Safety
  import opened SafetyPublish
  import PackFile = Pack
  import Order
  import Recovery

  lemma CrashesKeeps(c: Setup, s: State, t: State)
    requires Inv(c, s) && Crashes(c, s, t)
    ensures Inv(c, t)
  {
    hide Inv, Ids, Listed, Records, DiskOk, IndexOk, Present, SaverOk, MergerOk, LoadersOk, RetainedOk, SweepsOk,
      LockOk;
    InvSays(c, s);
    CrashThreads(c, s, t);
    PresentLess(c, s.files, NeedPacks(s), NeedRanks(s), NeedPacks(t), NeedRanks(t));
    NothingListed(s.history);
    hide NeedPacks, NeedRanks;
    InvIs(c, t);
  }

  lemma CrashThreads(c: Setup, s: State, t: State)
    requires Crashes(c, s, t) && ModeOk(c, s)
    ensures SaverOk(t) && MergerOk(t) && LockOk(t) && ModeOk(c, t) && SweepsOk(t) && RetainedOk(t.history, t.retained)
    ensures LoadersOk(c, t.history, t.pins, t.loaders)
    ensures NeedPacks(t) <= NeedPacks(s) && NeedRanks(t) <= NeedRanks(s)
  {
    assert SameKind(s.algo, c.config.tensors.compression);
    NothingListed(s.history);
    assert PinnedIds(map[]) == {};
  }

  // ── Reading the store back ───────────────────────────────────────

  /** What the index on storage stands for, read back. */
  lemma IndexReadsBack(c: Setup, s: State)
    requires GoodSetup(c) && Inv(c, s)
    ensures LoadManifest(c.env, s.files, map[]) == Ok(s.indexed)
  {
    hide Records, Present, SaverOk, MergerOk, LoadersOk, LockOk, ModeOk, SweepsOk, RetainedOk, Listed, FileOk, Ids,
      LoadManifest, IndexOf;
    assert IndexOk(c, s.files, s.indexed) && DiskOk(c, s.files, s.history) && ListsOk(s);
    if s.indexed.Some? {
      var m := s.indexed.value;
      IndexedRanks(c, s);
      assert m.ranksWritten * Ids(m.snapshots) == m.ranksWritten && m.(ranksWritten := m.ranksWritten) == m;
      hide Inv, DiskOk;
      IndexLoadsBack(c.env, s.files, map[], m, m.ranksWritten);
    } else {
      NoIndex(c.env, s.files);
    }
  }

  lemma NoIndex(env: Env, files: Files)
    requires Index !in files
    ensures LoadManifest(env, files, map[]) == Ok(None)
  {
  }

  lemma IndexedRanks(c: Setup, s: State)
    requires Inv(c, s) && s.indexed.Some?
    ensures FilesAgree(c.env, s.files, s.indexed.value.snapshots, s.indexed.value.ranksWritten)
    ensures forall x :: x in s.indexed.value.snapshots ==> Known(s.history, x) && PackOfId(c, x.id) in s.files
    ensures Listed(s.history, s.indexed.value.snapshots)
  {
    var m := s.indexed.value;
    hide SaverOk, MergerOk, LoadersOk, LockOk, ModeOk, SweepsOk, RetainedOk, Holds, RanksText, PinnedIds, Sound,
      GoodRecord;
    forall x | x in m.snapshots
      ensures Ranks(x.id) in s.files && Holds(s.files[Ranks(x.id)], RanksText(c.env, x)) && PackOfId(c, x.id) in s.files
    {
      assert x.id in IndexedIds(s) && Known(s.history, x);
      assert Ranks(x.id) in s.files && FileOk(c, s.files, s.history, Ranks(x.id));
      assert x.id in NeedPacks(s);
    }
  }

  // ── A pack describes its snapshot ────────────────────────────────

  lemma SliceWithin(file: Bytes, content: Bytes, offset: nat, len: nat)
    requires Holds(file, content) && offset + len <= |content|
    ensures Slice(file, offset, len) == content[offset..offset + len]
  {
    SliceOfPadded(file, content, offset, len);
  }

  lemma PackIsDescribed(c: Setup, r: Record, files: Files, path: Path)
    requires GoodSetup(c) && DescribesItself(c, r) && path in files && Holds(files[path], r.pack)
    ensures c.config.rank in r.snapshot.ranks
    ensures Recovery.Described(c.env, files, path, r.snapshot.id) == Some(DescriptorFor(c, r.snapshot))
  {
    var d := DescriptorFor(c, r.snapshot);
    var described := c.env.descriptorJson(d);
    var offset: nat, blobs: Bytes :|
      && offset == |blobs| && offset < PackFile.U64_LIMIT && |described| < PackFile.U64_LIMIT
      && r.pack == blobs + described
      && PackFile.DecodeHeader(Slice(blobs, 0, PackFile.HEADER_LEN)) == Some((offset, |described|))
      && |blobs| >= PackFile.HEADER_LEN;
    SliceWithin(files[path], r.pack, 0, PackFile.HEADER_LEN);
    SliceWithin(files[path], r.pack, offset, |described|);
    assert r.pack[0..PackFile.HEADER_LEN] == blobs[0..PackFile.HEADER_LEN];
    assert r.pack[offset..offset + |described|] == described;
    assert c.env.readDescriptor(described) == Some(d);
    hide PackFile.DecodeHeader, Holds, Lawful;
  }

  lemma OneDescriptor(c: Setup, files: Files, id: Id, packs: seq<Path>)
    requires |packs| == 1 && Recovery.Described(c.env, files, packs[0], id).Some?
    ensures Recovery.Descriptors(c.env, files, id, packs)
            == Some([Recovery.Described(c.env, files, packs[0], id).value])
  {
    hide Recovery.Described;
    var d := Recovery.Described(c.env, files, packs[0], id).value;
    assert packs[..|packs| - 1] == [] && [] + [d] == [d];
    assert Recovery.Descriptors(c.env, files, id, []) == Some([]);
  }

  lemma OneRank(d: Descriptor)
    ensures Recovery.RanksOf([d]) == map[d.rank.rank := d.rank]
  {
    assert [d][..0] == [];
    assert Recovery.RanksOf([]) == map[];
  }

  /** A directory with its one pack rebuilds to the very snapshot that was written there. */
  lemma RebuildsToRecord(c: Setup, h: History, files: Files, id: Id, packs: seq<Path>)
    requires GoodSetup(c) && DiskOk(c, files, h) && Records(c, h)
    requires forall p :: p in packs <==> p in files && p.Pack? && p.id == id
    requires forall i, j :: 0 <= i < j < |packs| ==> packs[i] != packs[j]
    ensures
      var s := Recovery.Rebuild(c.env, files, id, packs);
      && (s.Some? ==> id in h && s.value == h[id].snapshot && PackOfId(c, id) in files)
      && (s.Some? <==> packs != [])
  {
    hide DiskOk, Records, Recovery.Rebuild;
    PacksAreOne(c, h, files, id, packs);
    if packs == [] {
      NothingToRebuild(c, files, id);
    } else {
      RecordAt(c, h, id);
      PackIsDescribed(c, h[id], files, PackOfId(c, id));
      OneDescriptor(c, files, id, packs);
      OneRank(DescriptorFor(c, h[id].snapshot));
      RebuildOne(c, files, id, packs, h[id].snapshot);
    }
  }

  lemma PacksAreOne(c: Setup, h: History, files: Files, id: Id, packs: seq<Path>)
    requires DiskOk(c, files, h)
    requires forall p :: p in packs <==> p in files && p.Pack? && p.id == id
    requires forall i, j :: 0 <= i < j < |packs| ==> packs[i] != packs[j]
    ensures packs == []
            || (packs == [PackOfId(c, id)] && PackOfId(c, id) in files && id in h
                && Holds(files[PackOfId(c, id)], h[id].pack))
  {
    hide Holds;
    assert |packs| >= 2 ==> packs[0] != packs[1];
    forall i | 0 <= i < |packs|
      ensures packs[i] == PackOfId(c, id)
    {
      assert packs[i] in packs && FileOk(c, files, h, packs[i]);
    }
    if packs != [] {
      assert packs[0] in packs && FileOk(c, files, h, packs[0]);
    }
  }

  lemma NothingToRebuild(c: Setup, files: Files, id: Id)
    ensures Recovery.Rebuild(c.env, files, id, []).None?
  {
  }

  lemma RecordAt(c: Setup, h: History, id: Id)
    requires Records(c, h) && id in h
    ensures GoodRecord(c, h, id) && DescribesItself(c, h[id])
    ensures h[id].snapshot.id == id && h[id].snapshot.ranks.Keys == {c.config.rank}
            && h[id].snapshot.ranks[c.config.rank].rank == c.config.rank
    ensures h[id].snapshot.finalized && !h[id].snapshot.pinned
  {
    assert GoodRecord(c, h, id);
    hide ShardHolds, Records;
  }

  lemma RebuildOne(c: Setup, files: Files, id: Id, packs: seq<Path>, s: Snapshot)
    requires s.ranks.Keys == {c.config.rank} && s.ranks[c.config.rank].rank == c.config.rank && s.id == id
             && s.finalized && !s.pinned
    requires Recovery.Descriptors(c.env, files, id, packs) == Some([DescriptorFor(c, s)])
    requires Recovery.RanksOf([DescriptorFor(c, s)]) == map[c.config.rank := s.ranks[c.config.rank]]
    ensures Recovery.Rebuild(c.env, files, id, packs) == Some(s)
  {
    assert s.ranks == map[c.config.rank := s.ranks[c.config.rank]];
    hide Recovery.Descriptors, Recovery.RanksOf;
  }

  // ── Restart ──────────────────────────────────────────────────────

  /** Every orphan readmitted is the record that was written, so the recovered list is one of records. */
  lemma RecoveredIsListed(
      c: Setup, h: History, files: Files, ss: seq<Snapshot>, order: seq<Id>, packsOf: Id -> seq<Path>)
    requires GoodSetup(c) && DiskOk(c, files, h) && Records(c, h) && Listed(h, ss)
    requires ListsPacks(files, packsOf) && Recovery.MeetsOrphans(files, Ids(ss), order)
    ensures
      var r := Recovery.Recovered(c.env, files, ss, order, packsOf);
      && Listed(h, r) && Ids(r) == Ids(Recovery.Readmitted(c.env, files, ss, order, packsOf))
      && forall s :: s in r ==> s in ss || PackOfId(c, s.id) in files
  {
    var r := Recovery.Recovered(c.env, files, ss, order, packsOf);
    Recovery.RecoveryIsSafe(c.env, files, ss, order, packsOf);
    Recovery.RecoveredMembers(c.env, files, ss, order, packsOf);
    hide DiskOk, Records, Recovery.Recovered, Recovery.Rebuild, Recovery.Intact, Recovery.MeetsOrphans,
      Recovery.Readmitted, GoodSetup;
    forall s | s in r && s !in ss
      ensures Known(h, s) && PackOfId(c, s.id) in files
    {
      RebuildsToRecord(c, h, files, s.id, packsOf(s.id));
    }
    RecoveredDistinct(c, files, ss, order, packsOf);
    RecordsAreSound(c, h, r);
  }

  lemma RecoveredDistinct(c: Setup, files: Files, ss: seq<Snapshot>, order: seq<Id>, packsOf: Id -> seq<Path>)
    requires Distinct(ss) && Recovery.MeetsOrphans(files, Ids(ss), order)
    ensures Distinct(Recovery.Recovered(c.env, files, ss, order, packsOf))
  {
    var candidates := Recovery.Candidates(c.env, files, order, packsOf);
    Recovery.CandidatesDistinct(c.env, files, order, packsOf);
    Order.SortIsDistinct(candidates);
    assert forall s :: s in Order.SortByStep(candidates) ==> s.id in order;
    AdmittedDistinct(ss, Order.SortByStep(candidates));
    Order.SortIsDistinct(Recovery.Readmitted(c.env, files, ss, order, packsOf));
  }

  lemma {:induction false} AdmittedDistinct(ss: seq<Snapshot>, candidates: seq<Snapshot>)
    requires Distinct(ss) && Distinct(candidates)
    requires forall s :: s in candidates ==> s.id !in Ids(ss)
    ensures Distinct(Recovery.Admitted(ss, candidates))
  {
    if candidates != [] {
      var init, last := candidates[..|candidates| - 1], candidates[|candidates| - 1];
      assert candidates == init + [last] && last in candidates;
      AdmittedDistinct(ss, init);
      Recovery.AdmittedMembers(ss, init);
      var before := Recovery.Admitted(ss, init);
      forall i | 0 <= i < |before|
        ensures before[i].id != last.id
      {
        assert before[i] in before;
        if before[i] in init {
          var k :| 0 <= k < |init| && init[k] == before[i];
          assert candidates[k].id != last.id;
        }
      }
    }
  }

  lemma RecordsAreSound(c: Setup, h: History, ss: seq<Snapshot>)
    requires Records(c, h) && Distinct(ss) && Closed(ss) && forall s :: s in ss ==> Known(h, s)
    ensures Listed(h, ss)
  {
    forall s, b | s in ss && b in ss && s.base == Some(b.id)
      ensures b.base.None?
    {
      assert GoodRecord(c, h, s.id) && Known(h, b);
    }
  }

  lemma RestartsIs(c: Setup, s: State, t: State, order: seq<Id>, packsOf: Id -> seq<Path>, algo: Algo)
      returns (m: Manifest)
    requires Restarts(c, s, t, order, packsOf, algo) && LoadManifest(c.env, s.files, map[]) == Ok(s.indexed)
    ensures s.mode.Down? && ListsPacks(s.files, packsOf)
    ensures m == if s.indexed.Some? then s.indexed.value else EmptyManifest(c)
    ensures Recovery.MeetsOrphans(s.files, Ids(m.snapshots), order)
    ensures
      var readmitted := Recovery.Readmitted(c.env, s.files, m.snapshots, order, packsOf);
      t == s.(mode := Reclaiming((set id | id in order) - Ids(readmitted), |readmitted| > |m.snapshots|),
              mem := m.(snapshots := Recovery.Recovered(c.env, s.files, m.snapshots, order, packsOf)), algo := algo)
    ensures SameKind(algo, c.config.tensors.compression)
  {
    hide LoadManifest, Recovery.MeetsOrphans, Recovery.Readmitted, Recovery.Recovered, ListsPacks;
    m := if s.indexed.Some? then s.indexed.value else EmptyManifest(c);
  }

  /** What recovery rejects is nothing the index names, and was once a record. */
  lemma RejectsAreKnown(c: Setup, files: Files, h: History, known: set<Id>, order: seq<Id>)
    requires DiskOk(c, files, h) && Recovery.MeetsOrphans(files, known, order)
    ensures (set id | id in order) <= h.Keys && (set id | id in order) !! known
  {
    hide Holds, RanksText;
    forall id | id in order
      ensures id in h && id !in known
    {
      var p :| p in files && DirOf(p).Some? && DirOf(p).value == id && id !in known;
      assert FileOk(c, files, h, p);
    }
  }

  ghost predicate RestartStep(c: Setup, s: State, t: State, m: Manifest, rejects: set<Id>, changed: bool) {
    && s.mode.Down? && m == (if s.indexed.Some? then s.indexed.value else EmptyManifest(c))
    && t == s.(mode := Reclaiming(rejects, changed), mem := m.(snapshots := t.mem.snapshots), algo := t.algo)
    && SameKind(t.algo, c.config.tensors.compression)
    && Listed(s.history, t.mem.snapshots)
    && rejects !! Ids(t.mem.snapshots) && rejects !! Ids(m.snapshots) && rejects <= s.history.Keys
  }

  lemma RestartThreads(c: Setup, s: State, t: State, m: Manifest, rejects: set<Id>, changed: bool)
    requires RestartStep(c, s, t, m, rejects, changed)
    requires SaverOk(s) && MergerOk(s) && LockOk(s) && ModeOk(c, s) && ListsOk(s)
    ensures SaverOk(t) && MergerOk(t) && LockOk(t) && ModeOk(c, t) && ListsOk(t) && s.lock.Free? && s.claim == {}
  {
    hide Ids, Listed, PinnedIds;
  }

  lemma RestartSets(c: Setup, s: State, t: State, m: Manifest, rejects: set<Id>, changed: bool)
    requires RestartStep(c, s, t, m, rejects, changed) && s.lock.Free? && ModeOk(c, s) && s.claim == {}
    requires s.indexed.Some? ==> s.indexed.value.ranksWritten == Ids(s.indexed.value.snapshots)
    ensures SweepsOk(t)
    ensures NeedPacks(t) == Ids(t.mem.snapshots) + IndexedIds(s) && NeedRanks(t) == IndexedIds(s)
  {
    assert PinnedIds(map[]) == {};
    NothingListed(s.history);
    hide Ids, Listed, PinnedIds;
  }

  lemma PresentAfterRestart(c: Setup, s: State, t: State, m: Manifest)
    requires Inv(c, s) && (s.indexed.Some? ==> m == s.indexed.value) && (s.indexed.None? ==> m.snapshots == [])
    requires forall x :: x in t.mem.snapshots ==> x in m.snapshots || PackOfId(c, x.id) in s.files
    ensures Present(c, s.files, Ids(t.mem.snapshots) + IndexedIds(s), IndexedIds(s))
  {
    InvSays(c, s);
    hide Inv, Records, DiskOk, IndexOk, SaverOk, MergerOk, LoadersOk, LockOk, ModeOk, SweepsOk, RetainedOk, ListsOk,
      PinnedIds;
    assert IndexedIds(s) <= NeedPacks(s) && IndexedIds(s) <= NeedRanks(s);
    forall id | id in Ids(t.mem.snapshots) + IndexedIds(s)
      ensures PackOfId(c, id) in s.files
    {
      if id !in IndexedIds(s) {
        var x :| x in t.mem.snapshots && x.id == id;
        assert x in m.snapshots ==> id in Ids(m.snapshots);
      }
    }
  }

  lemma IndexedWritten(c: Setup, s: State)
    requires IndexOk(c, s.files, s.indexed) && ListsOk(s)
    ensures s.indexed.Some? ==>
              s.indexed.value.ranksWritten == Ids(s.indexed.value.snapshots)
                && Listed(s.history, s.indexed.value.snapshots)
  {
    hide Holds, Ids, Listed;
  }

  lemma RestartsKeeps(c: Setup, s: State, t: State, order: seq<Id>, packsOf: Id -> seq<Path>, algo: Algo)
    requires GoodSetup(c) && Inv(c, s) && Restarts(c, s, t, order, packsOf, algo)
    ensures Inv(c, t)
  {
    hide *;
    IndexReadsBack(c, s);
    var m := RestartsIs(c, s, t, order, packsOf, algo);
    InvSays(c, s);
    IndexedWritten(c, s);
    NothingListed(s.history);
    EmptyIs(c);
    RecoveredIsListed(c, s.history, s.files, m.snapshots, order, packsOf);
    RejectsAreKnown(c, s.files, s.history, Ids(m.snapshots), order);
    var readmitted := Recovery.Readmitted(c.env, s.files, m.snapshots, order, packsOf);
    var rejects := (set id | id in order) - Ids(readmitted);
    RestartStepIs(c, s, t, m, rejects, |readmitted| > |m.snapshots|);
    RestartThreads(c, s, t, m, rejects, |readmitted| > |m.snapshots|);
    RestartSets(c, s, t, m, rejects, |readmitted| > |m.snapshots|);
    PresentAfterRestart(c, s, t, m);
    InvIs(c, t);
  }

  lemma EmptyIs(c: Setup)
    ensures EmptyManifest(c).snapshots == []
  {
  }

  lemma RestartStepIs(c: Setup, s: State, t: State, m: Manifest, rejects: set<Id>, changed: bool)
    requires s.mode.Down? && m == (if s.indexed.Some? then s.indexed.value else EmptyManifest(c))
    requires t == s.(mode := Reclaiming(rejects, changed), mem := m.(snapshots := t.mem.snapshots), algo := t.algo)
    requires SameKind(t.algo, c.config.tensors.compression)
    requires Listed(s.history, t.mem.snapshots)
    requires rejects !! Ids(t.mem.snapshots) && rejects !! Ids(m.snapshots) && rejects <= s.history.Keys
    ensures RestartStep(c, s, t, m, rejects, changed)
  {
    hide Ids, Listed;
  }
}
