/** What opening a store after a crash brings back: every snapshot whose pack was written out, with what it needs. */
module Reopening {
  import opened Bytes
  import opened Manifest
  import opened Env
  import opened Tensor
  import opened Shard
  import opened Layout
  import opened ManifestIO
  import opened Retain
  import opened Protocol
  import opened Safety
  import opened SafetyPublish
  import opened SafetyBoot
  import opened Theorems
  import Recovery

  // ── A record's pack on storage is an intact orphan ───────────────

  lemma EntryRecords(
      env: Env, sh: Shard, e: TensorEntry, base: map<string, Bytes>, contents: Contents)
    requires HoldsEntry(env, sh, e, base, contents)
    ensures Recovery.Records(env, e, sh.pack)
  {
  }

  lemma BlobStays(files: Files, re: RankEntry, e: TensorEntry, pack: Bytes)
    requires re.packFile.Some? && re.packFile.value in files && Holds(files[re.packFile.value], pack)
    requires e.offset + e.compressedSize <= |pack|
    ensures Recovery.SameBlob(files, re, e, pack)
  {
    SliceOfPadded(files[re.packFile.value], pack, e.offset, e.compressedSize);
    hide Holds;
  }

  lemma RecordIsIntact(c: Setup, h: History, files: Files, id: Id)
    requires GoodSetup(c) && Records(c, h) && id in h && PackOfId(c, id) in files
    requires Holds(files[PackOfId(c, id)], h[id].pack)
    ensures Recovery.Intact(c.env, files, h[id].snapshot)
  {
    hide *;
    var snap, rank, pack := h[id].snapshot, c.config.rank, h[id].pack;
    RecordSays(c, h, id);
    var re := snap.ranks[rank];
    forall e | e in re.tensors
      ensures Recovery.Records(c.env, e, pack) && (e.hashCompressed.Some? ==> Recovery.SameBlob(files, re, e, pack))
    {
      EntryStands(c.env, files, re, Shard(re.tensors, pack, snap.compression), e, BaseRaws(h, snap), h[id].contents);
    }
    SetupHash(c);
    Recovery.IntactExactly(c.env, files, snap, map[rank := pack]);
  }

  lemma EntryStands(
      env: Env, files: Files, re: RankEntry, sh: Shard, e: TensorEntry, base: map<string, Bytes>, contents: Contents)
    requires ShardHolds(env, sh, base, contents) && e in sh.entries
    requires re.packFile.Some? && re.packFile.value in files && Holds(files[re.packFile.value], sh.pack)
    ensures Recovery.Records(env, e, sh.pack) && (e.hashCompressed.Some? ==> Recovery.SameBlob(files, re, e, sh.pack))
  {
    hide *;
    var k :| 0 <= k < |sh.entries| && sh.entries[k] == e;
    HoldsAt(env, sh, base, contents, k);
    EntryRecords(env, sh, e, base, contents);
    if e.hashCompressed.Some? {
      RecordedWithin(env, e, sh.pack);
      BlobStays(files, re, e, sh.pack);
    }
  }

  lemma RecordedWithin(env: Env, e: TensorEntry, pack: Bytes)
    requires Recovery.Records(env, e, pack) && e.hashCompressed.Some?
    ensures e.offset + e.compressedSize <= |pack|
  {
  }

  lemma SetupHash(c: Setup)
    requires GoodSetup(c)
    ensures Injective(c.env.hash)
  {
  }

  lemma RecordSays(c: Setup, h: History, id: Id)
    requires Records(c, h) && id in h
    ensures
      var s, rank := h[id].snapshot, c.config.rank;
      && s.id == id && s.ranks.Keys == {rank} && s.ranks[rank].packFile == Some(PackOfId(c, id))
      && (s.base.Some? ==> s.base.value in h && h[s.base.value].snapshot.base.None?)
      && ShardHolds(c.env, Shard(s.ranks[rank].tensors, h[id].pack, s.compression), BaseRaws(h, s), h[id].contents)
  {
    assert GoodRecord(c, h, id);
    hide ShardHolds, DescribesItself;
  }

  lemma PackHeld(c: Setup, files: Files, h: History, id: Id)
    requires DiskOk(c, files, h) && PackOfId(c, id) in files
    ensures id in h && Holds(files[PackOfId(c, id)], h[id].pack)
  {
    assert FileOk(c, files, h, PackOfId(c, id));
    hide Holds;
  }

  /** What recovery takes for an intact orphan is exactly a record whose pack is on storage. */
  lemma IntactOrphanIs(c: Setup, h: History, files: Files, packsOf: Id -> seq<Path>, id: Id, s: Snapshot)
    requires GoodSetup(c) && DiskOk(c, files, h) && Records(c, h) && ListsPacks(files, packsOf)
    ensures Recovery.IntactOrphan(c.env, files, id, packsOf, s) <==>
            PackOfId(c, id) in files && id in h && s == h[id].snapshot
  {
    hide DiskOk, Records, GoodSetup, Recovery.Rebuild, Recovery.Intact;
    assert PackOfId(c, id) in files ==> PackOfId(c, id) in packsOf(id);
    RebuildsToRecord(c, h, files, id, packsOf(id));
    if PackOfId(c, id) in files {
      PackHeld(c, files, h, id);
      RecordIsIntact(c, h, files, id);
    }
  }

  // ── The order they are met in ────────────────────────────────────

  /** `a` is met before `b`. */
  predicate MetBefore(order: seq<Id>, a: Id, b: Id) {
    exists j, k :: 0 <= j < k < |order| && order[j] == a && order[k] == b
  }

  /** The base has its turn first: it is of a smaller step, or of the same and met first. */
  predicate TurnsFirst(h: History, order: seq<Id>, base: Id, id: Id)
    requires base in h && id in h
  {
    var b, s := h[base].snapshot, h[id].snapshot;
    b.step < s.step || (b.step == s.step && MetBefore(order, base, id))
  }

  lemma TurnIs(
      c: Setup, h: History, files: Files, order: seq<Id>, packsOf: Id -> seq<Path>, k: nat, s: Snapshot, base: Id)
    requires GoodSetup(c) && DiskOk(c, files, h) && Records(c, h) && ListsPacks(files, packsOf)
    requires forall i, j :: 0 <= i < j < |order| ==> order[i] != order[j]
    requires k < |order| && order[k] in h && s == h[order[k]].snapshot && base in h
    ensures (exists j: nat, b :: Recovery.HasTurnBefore(c.env, files, order, packsOf, k, s, j, b) && b.id == base) <==>
            base in order && PackOfId(c, base) in files && TurnsFirst(h, order, base, order[k])
  {
    hide DiskOk, Records, GoodSetup, Recovery.IntactOrphan, ListsPacks, MetBefore;
    if j: nat, b :| Recovery.HasTurnBefore(c.env, files, order, packsOf, k, s, j, b) && b.id == base {
      IntactOrphanIs(c, h, files, packsOf, order[j], b);
      RecordSays(c, h, order[j]);
      MetIs(order, j, k);
    }
    if base in order && PackOfId(c, base) in files && TurnsFirst(h, order, base, order[k]) {
      var j :| 0 <= j < |order| && order[j] == base;
      IntactOrphanIs(c, h, files, packsOf, base, h[base].snapshot);
      RecordSays(c, h, base);
      MetIs(order, j, k);
      assert Recovery.HasTurnBefore(c.env, files, order, packsOf, k, s, j, h[base].snapshot);
    }
  }

  lemma MetIs(order: seq<Id>, j: nat, k: nat)
    requires j < |order| && k < |order| && forall i, j :: 0 <= i < j < |order| ==> order[i] != order[j]
    ensures MetBefore(order, order[j], order[k]) <==> j < k
  {
    if a, b :| 0 <= a < b < |order| && order[a] == order[j] && order[b] == order[k] {
      assert a == j && b == k;
    }
  }

  lemma OrphansAreAgainstFulls(
      c: Setup, h: History, files: Files, order: seq<Id>, packsOf: Id -> seq<Path>)
    requires GoodSetup(c) && DiskOk(c, files, h) && Records(c, h) && ListsPacks(files, packsOf)
    ensures Recovery.OrphansAgainstFulls(c.env, files, order, packsOf)
  {
    hide DiskOk, Records, GoodSetup, Recovery.IntactOrphan, ListsPacks;
    forall i: nat, j: nat, s: Snapshot, b: Snapshot |
      i < |order| && j < |order| && Recovery.IntactOrphan(c.env, files, order[i], packsOf, s)
      && Recovery.IntactOrphan(c.env, files, order[j], packsOf, b) && s.base == Some(b.id)
      ensures b.base.None?
    {
      IntactOrphanIs(c, h, files, packsOf, order[i], s);
      IntactOrphanIs(c, h, files, packsOf, order[j], b);
      RecordSays(c, h, order[i]);
      RecordSays(c, h, order[j]);
    }
  }

  // ── A restart ────────────────────────────────────────────────────

  /** The ids the index on storage lists. */
  function Listing(s: State): set<Id> {
    if s.indexed.Some? then Ids(s.indexed.value.snapshots) else {}
  }

  /** Why a record whose pack is on storage is brought back. */
  predicate Returns(c: Setup, s: State, order: seq<Id>, id: Id)
    requires id in s.history
  {
    var snap := s.history[id].snapshot;
    || id in Listing(s) || snap.base.None? || snap.base.value in Listing(s)
    || (snap.base.value in s.history && snap.base.value in order && PackOfId(c, snap.base.value) in s.files
        && TurnsFirst(s.history, order, snap.base.value, id))
  }

  lemma OrphanReturns(
      c: Setup, s: State, ss: seq<Snapshot>, order: seq<Id>, packsOf: Id -> seq<Path>, id: Id)
    requires GoodSetup(c) && DiskOk(c, s.files, s.history) && Records(c, s.history) && ListsPacks(s.files, packsOf)
    requires Recovery.MeetsOrphans(s.files, Ids(ss), order) && Ids(ss) == Listing(s)
    requires id in s.history && PackOfId(c, id) in s.files && id !in Ids(ss)
    ensures s.history[id].snapshot in Recovery.Recovered(c.env, s.files, ss, order, packsOf)
            <==> Returns(c, s, order, id)
  {
    var h, files, snap := s.history, s.files, s.history[id].snapshot;
    assert id in order by {
      assert DirOf(PackOfId(c, id)) == Some(id);
    }
    var k :| 0 <= k < |order| && order[k] == id;
    assert forall i, j :: 0 <= i < j < |order| ==> order[i] != order[j];
    hide DiskOk, Records, GoodSetup, Recovery.IntactOrphan, ListsPacks, Recovery.MeetsOrphans, Recovery.Recovered,
      TurnsFirst,
      Listing, Recovery.HasTurnBefore;
    RecordSays(c, h, id);
    IntactOrphanIs(c, h, files, packsOf, id, snap);
    OrphansAreAgainstFulls(c, h, files, order, packsOf);
    Recovery.OrphanReadmittedIff(c.env, files, ss, order, packsOf, k, snap);
    if snap.base.Some? {
      TurnIs(c, h, files, order, packsOf, k, snap, snap.base.value);
    }
  }

  lemma ListedIsRecord(h: History, ss: seq<Snapshot>, id: Id)
    requires Listed(h, ss) && id in Ids(ss)
    ensures id in h && h[id].snapshot in ss
  {
    var s :| s in ss && s.id == id;
    hide Sound;
  }

  /**
   When a store is opened, a snapshot whose pack had been written out is listed again exactly when the
   index lists it, or it is a full, or its base is listed in the index, or its base's pack had been
   written out too and has its turn first: of a smaller step, or of the same and met first.
   */
  lemma EveryWrittenPackReturns(c: Setup, states: seq<State>, steps: seq<Step>, i: nat, id: Id)
    requires GoodSetup(c) && Run(c, states, steps) && i < |steps| && steps[i].RestartsStep?
    requires |states| == |steps| + 1 && id in states[i].history && PackOfId(c, id) in states[i].files
    ensures states[i].history[id].snapshot in states[i + 1].mem.snapshots <==> Returns(c, states[i], steps[i].order, id)
  {
    hide *;
    var s, t := states[i], states[i + 1];
    NextAt(c, states, steps, i);
    RunKeeps(c, states, steps, i);
    RestartAt(c, s, t, steps[i]);
    IndexReadsBack(c, s);
    var m := RestartsIs(c, s, t, steps[i].order, steps[i].packsOf, steps[i].algo);
    InvSays(c, s);
    ListingIs(c, s, m);
    if id in Ids(m.snapshots) {
      ListedIsRecord(s.history, m.snapshots, id);
      ListedReturns(c, s, id);
      ListedIsClosed(s.history, m.snapshots);
      Recovery.RecoveryIsSafe(c.env, s.files, m.snapshots, steps[i].order, steps[i].packsOf);
    } else {
      OrphanReturns(c, s, m.snapshots, steps[i].order, steps[i].packsOf, id);
    }
  }

  lemma RestartAt(c: Setup, s: State, t: State, step: Step)
    requires Next(c, s, t, step) && step.RestartsStep?
    ensures Restarts(c, s, t, step.order, step.packsOf, step.algo)
  {
    hide Restarts;
  }

  lemma ListingIs(c: Setup, s: State, m: Manifest)
    requires ListsOk(s) && m == (if s.indexed.Some? then s.indexed.value else EmptyManifest(c))
    ensures Ids(m.snapshots) == Listing(s) && Listed(s.history, m.snapshots)
  {
    NothingListed(s.history);
    hide Listed;
  }

  lemma ListedReturns(c: Setup, s: State, id: Id)
    requires id in s.history && id in Listing(s)
    ensures forall order :: Returns(c, s, order, id)
  {
    hide Listing;
  }

  lemma ListedIsClosed(h: History, ss: seq<Snapshot>)
    requires Listed(h, ss)
    ensures Closed(ss)
  {
    hide Closed, Distinct, BasesAreFull;
  }
}
