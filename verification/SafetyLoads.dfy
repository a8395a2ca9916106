/** What loads find beside everybody else, and exactly when they succeed. */
module SafetyLoads {
  import opened Bytes
  import opened Compression
  import opened Manifest
  import opened Env
  import opened Tensor
  import opened Shard
  import opened Protocol
  import opened Safety
  import opened SafetyFiles
  import Load

  lemma RecordIsStored(c: Setup, s: State, snap: Snapshot)
    requires Inv(c, s) && Known(s.history, snap) && PackOfId(c, snap.id) in s.files
    ensures Load.Stored(c.env, s.files, snap, c.config.rank, s.history[snap.id].pack, BaseRaws(s.history, snap),
                        s.history[snap.id].contents)
  {
    hide Inv, ShardHolds, Holds, GoodRecord;
    RecordIs(c, s, snap.id);
    RecordHolds(c, s.history, snap.id);
    FileIs(c, s, PackOfId(c, snap.id));
  }

  // ── What a pinned loader can rely on ─────────────────────────────

  lemma PinnedIsThere(c: Setup, s: State, n: nat, id: Id)
    requires Inv(c, s) && n in s.loaders && !Finished(s.loaders[n]) && id in Pinning(s.loaders[n].snap)
    ensures PackOfId(c, id) in s.files
  {
    hide Inv, LoadersOk, Known, Present;
    LoaderIs(c, s, n);
    PinsAreIn(s.pins, LoaderActor(n));
    assert id in NeedPacks(s);
    PackIsThere(c, s, id);
  }

  /** The base of a pinned delta is a full whose pack is on storage, listed or not. */
  lemma BaseIsStored(c: Setup, s: State, n: nat, base: Snapshot)
    requires Inv(c, s) && n in s.loaders && !Finished(s.loaders[n]) && s.loaders[n].snap.base == Some(base.id)
    requires Known(s.history, base)
    ensures base.base.None?
            && Load.Stored(c.env, s.files, base, c.config.rank, s.history[base.id].pack, map[],
                           s.history[base.id].contents)
    ensures BaseRaws(s.history, s.loaders[n].snap) == Raws(s.history[base.id].contents)
  {
    hide Inv, LoadersOk, Load.Stored, GoodRecord;
    LoaderIs(c, s, n);
    RecordIs(c, s, s.loaders[n].snap.id);
    RecordHolds(c, s.history, s.loaders[n].snap.id);
    PinnedIsThere(c, s, n, base.id);
    RecordIsStored(c, s, base);
  }

  lemma OwnShard(c: Setup, s: State, n: nat)
    requires Inv(c, s) && n in s.loaders && !Finished(s.loaders[n])
    ensures
      var snap := s.loaders[n].snap;
      && Known(s.history, snap) && snap.id in s.history && c.config.rank in snap.ranks
      && ShardHolds(c.env, Shard(snap.ranks[c.config.rank].tensors, s.history[snap.id].pack, snap.compression),
                    BaseRaws(s.history, snap), s.history[snap.id].contents)
      && Path.Pack(snap.id, c.config.rank) in s.files
      && Holds(s.files[Path.Pack(snap.id, c.config.rank)], s.history[snap.id].pack)
  {
    hide Inv, LoadersOk, GoodRecord, ShardHolds, Holds;
    LoaderIs(c, s, n);
    var snap := s.loaders[n].snap;
    RecordIs(c, s, snap.id);
    RecordHolds(c, s.history, snap.id);
    PinnedIsThere(c, s, n, snap.id);
    FileIs(c, s, PackOfId(c, snap.id));
  }

  // ── A whole load ─────────────────────────────────────────────────

  /** The second lookup of the base found it, or there is none to look up. */
  predicate HasBase(l: Loader)
    requires l.GotBase?
  {
    l.snap.base.None? || l.base.Some?
  }

  lemma WholeFinder(c: Setup, s: State, n: nat)
    requires GoodSetup(c) && Inv(c, s) && n in s.loaders && s.loaders[n].GotBase?
    ensures
      var l := s.loaders[n];
      var find := LoaderFinder(c, s.files, l.snap, l.base);
      if HasBase(l) then Load.BaseFound(c.env, s.files, BaseRaws(s.history, l.snap), find)
      else Load.BaseLost(c.env, s.files, find)
  {
    hide Inv, BaseRaw, EntryMap, Holds, LoadersOk, ShardHolds;
    LoaderIs(c, s, n);
    var l := s.loaders[n];
    if l.snap.base.None? {
      assert BaseRaws(s.history, l.snap) == map[];
    } else if l.base.Some? {
      var b := l.base.value;
      BaseIsStored(c, s, n, b);
      RecordIs(c, s, b.id);
      RecordHolds(c, s.history, b.id);
      var path := Path.Pack(b.id, c.config.rank);
      var ctx := BaseCtx(EntryMap(b.ranks[c.config.rank].tensors), b.compression, Whole(s.files[path]));
      forall m | m in BaseRaws(s.history, l.snap)
        ensures BaseRaw(c.env, s.files, ctx.Finder(), m) == Ok(BaseRaws(s.history, l.snap)[m])
      {
        FullBaseGivesRaw(c.env, s.files, ShardOfRecord(c, s.history[b.id]), s.history[b.id].contents, ctx, m);
      }
    } else {
      forall m
        ensures BaseRaw(c.env, s.files, LoaderFinder(c, s.files, l.snap, l.base).value, m).Err?
      {
        NothingFound(c.env, s.files, LoaderFinder(c, s.files, l.snap, l.base).value, m);
      }
    }
  }

  /** No entry of the snapshot's rank is read against the base. */
  predicate NeedsNoBase(c: Setup, snap: Snapshot)
    requires c.config.rank in snap.ranks
  {
    forall e :: e in snap.ranks[c.config.rank].tensors ==> !Load.NeedsBase(e)
  }

  /** A load's last step gives exactly what the snapshot reads as, unless a cast or a base it needs is gone. */
  lemma LoadFinishesExactly(c: Setup, s: State, t: State, n: nat)
    requires GoodSetup(c) && Inv(c, s) && LoadFinishes(c, s, t, n)
    ensures n in t.loaders && t.loaders[n].Done?
    ensures
      var l, result := s.loaders[n], t.loaders[n].result;
      var contents := s.history[l.snap.id].contents;
      && (result.Ok? <==> Load.Readable(c.env, contents) && (HasBase(l) || NeedsNoBase(c, l.snap)))
      && (result.Ok? ==> result.value == Load.ReadAll(c.env, contents))
  {
    hide Inv, LoaderFinder, Load.LoadAll, Load.BaseFound, Load.BaseLost, Load.Readable, Load.ReadAll, ShardHolds,
      Holds, GoodSetup, Known,
      NeedsNoBase, HasBase, Provides;
    OwnShard(c, s, n);
    var l := s.loaders[n];
    var sh := Shard(l.snap.ranks[c.config.rank].tensors, s.history[l.snap.id].pack, l.snap.compression);
    var find := LoaderFinder(c, s.files, l.snap, l.base);
    var base, contents := BaseRaws(s.history, l.snap), s.history[l.snap.id].contents;
    GotBaseHasPack(c, s, n);
    WholeFinder(c, s, n);
    Load.LoadAllExactly(c.env, s.files, sh, base, contents, find, l.snap.compression, Whole(l.pack));
    NeedsNoBaseIs(c, l.snap);
    if !HasBase(l) && Load.BaseFound(c.env, s.files, base, find) {
      FoundAndLost(c, s.files, sh, base, contents, find);
    }
  }

  lemma NeedsNoBaseIs(c: Setup, snap: Snapshot)
    requires c.config.rank in snap.ranks
    ensures NeedsNoBase(c, snap) <==> forall e :: e in snap.ranks[c.config.rank].tensors ==> !Load.NeedsBase(e)
  {
  }

  lemma GotBaseHasPack(c: Setup, s: State, n: nat)
    requires Inv(c, s) && n in s.loaders && s.loaders[n].GotBase?
    ensures Provides(s.files, Whole(s.loaders[n].pack), s.history[s.loaders[n].snap.id].pack)
  {
    hide Inv, LoadersOk, Holds;
    LoaderIs(c, s, n);
  }

  /** A base that is lost and yet has nothing that cannot be found is empty: nothing can need it. */
  lemma FoundAndLost(c: Setup, files: Files, sh: Shard, base: map<string, Bytes>, contents: Contents,
                     find: Option<Finder>)
    requires Load.BaseFound(c.env, files, base, find) && Load.BaseLost(c.env, files, find)
    requires ShardHolds(c.env, sh, base, contents)
    ensures forall e :: e in sh.entries ==> !Load.NeedsBase(e)
  {
    hide BaseRaw, DistinctNames, NamesOf, BlobIn;
    NothingInBoth(c, files, base, find);
    forall e | e in sh.entries
      ensures !Load.NeedsBase(e)
    {
      assert HoldsEntry(c.env, sh, e, base, contents);
    }
  }

  lemma NothingInBoth(c: Setup, files: Files, base: map<string, Bytes>, find: Option<Finder>)
    requires Load.BaseFound(c.env, files, base, find) && Load.BaseLost(c.env, files, find)
    ensures forall n :: n !in base
  {
    hide BaseRaw;
  }

  lemma NoneNeedsNoneDoes(es: seq<TensorEntry>, n: string)
    requires forall e :: e in es ==> !Load.NeedsBase(e)
    ensures !Load.NameNeedsBase(es, n)
  {
    hide Load.NeedsBase;
  }

  // ── A load of some names ─────────────────────────────────────────

  predicate BaseListed(ss: seq<Snapshot>, snap: Snapshot) {
    snap.base.None? || Find(ss, snap.base.value).Some?
  }

  lemma NameFinder(c: Setup, s: State, n: nat)
    requires GoodSetup(c) && Inv(c, s) && n in s.loaders && s.loaders[n].Fetching?
    ensures
      var snap := s.loaders[n].snap;
      var find := Load.FinderFor(s.files, s.mem.snapshots, c.config.rank, snap, None, false);
      if BaseListed(s.mem.snapshots, snap) then Load.BaseFound(c.env, s.files, BaseRaws(s.history, snap), find)
      else Load.BaseLost(c.env, s.files, find)
  {
    hide Inv, BaseRaw, LoadersOk, Load.Stored, Load.BaseLookup;
    LoaderIs(c, s, n);
    var snap := s.loaders[n].snap;
    if snap.base.None? {
      assert BaseRaws(s.history, snap) == map[];
    } else if Find(s.mem.snapshots, snap.base.value).Some? {
      var b := Find(s.mem.snapshots, snap.base.value).value;
      MemIsKnown(c, s, b);
      BaseIsStored(c, s, n, b);
      Load.LookupFindsBase(c.env, s.files, s.mem.snapshots, b, c.config.rank, s.history[b.id].pack,
                           s.history[b.id].contents,
                           b.id, false);
    } else {
      var find := Load.BaseLookup(s.files, s.mem.snapshots, c.config.rank, snap.base.value, false);
      forall m
        ensures BaseRaw(c.env, s.files, find, m).Err?
      {
        UnlistedFindsNothing(s.files, s.mem.snapshots, c.config.rank, snap.base.value, m);
        NothingFound(c.env, s.files, find, m);
      }
    }
  }

  lemma UnlistedFindsNothing(files: Files, ss: seq<Snapshot>, rank: nat, base: Id, n: string)
    requires Find(ss, base).None?
    ensures Load.BaseLookup(files, ss, rank, base, false)(n) == Err(NotFound)
  {
  }

  /**
   One name is read right, or not at all: exactly when it or its cast is missing, or it needs a base
   no longer listed.
   */
  lemma NameReadExactly(c: Setup, s: State, n: nat)
    requires GoodSetup(c) && Inv(c, s) && n in s.loaders && s.loaders[n].Fetching?
             && s.loaders[n].k < |s.loaders[n].asked|
    ensures c.config.rank in s.loaders[n].snap.ranks && s.loaders[n].snap.id in s.history
    ensures
      var l := s.loaders[n];
      var name, contents := l.asked[l.k], s.history[l.snap.id].contents;
      var out := NameRead(c, s, l);
      && (out.Ok? <==>
            && name in contents && Read(c.env, contents[name]).Ok?
            && (BaseListed(s.mem.snapshots, l.snap)
                || !Load.NameNeedsBase(l.snap.ranks[c.config.rank].tensors, name)))
      && (out.Ok? ==> out == Read(c.env, contents[name]))
  {
    hide Inv, Load.LoadOne, Load.FinderFor, Load.BaseFound, Load.BaseLost, ShardHolds, Holds, GoodSetup, BaseListed,
      Load.FirstNamed, Read;
    OwnShard(c, s, n);
    var l := s.loaders[n];
    var sh := Shard(l.snap.ranks[c.config.rank].tensors, s.history[l.snap.id].pack, l.snap.compression);
    var base, contents := BaseRaws(s.history, l.snap), s.history[l.snap.id].contents;
    var find := Load.FinderFor(s.files, s.mem.snapshots, c.config.rank, l.snap, None, false);
    NameFinder(c, s, n);
    Load.OneLoadsExactly(c.env, s.files, sh, l.asked[l.k], base, contents, find, l.snap.compression,
                         Ranged(Path.Pack(l.snap.id, c.config.rank)));
    if !BaseListed(s.mem.snapshots, l.snap) && Load.BaseFound(c.env, s.files, base, find) {
      FoundAndLost(c, s.files, sh, base, contents, find);
      NoneNeedsNoneDoes(sh.entries, l.asked[l.k]);
    }
  }

  // ── What the steps of such a load keep ───────────────────────────

  lemma NamesBeginKeeps(c: Setup, s: State, t: State, n: nat, snap: Snapshot, asked: seq<string>)
    requires Inv(c, s) && NamesBegin(s, t, n, snap, asked)
    ensures Inv(c, t)
  {
    hide Inv, PinnedIds, LoadersOk, Ids, SaverOk, MergerOk, ListsOk, LockOk, ModeOk, SweepsOk, Present, IndexOk,
      Records, DiskOk,
      RetainedOk;
    InvSays(c, s);
    MemIsKnown(c, s, snap);
    PinReplaces(s.pins, LoaderActor(n), Pinning(snap));
    hide Known;
    LoaderMoves(c, s, t, n);
    LoaderStepKeeps(c, s, t);
  }

  lemma OneMoreIsRight(c: Setup, contents: Contents, asked: seq<string>, k: nat, out: Load.State, data: Bytes)
    requires k < |asked| && RightSoFar(c, contents, asked[..k], out)
    requires asked[k] in contents && Read(c.env, contents[asked[k]]) == Ok(data)
    ensures RightSoFar(c, contents, asked[..k + 1], out[asked[k] := data])
  {
    assert asked[..k + 1] == asked[..k] + [asked[k]];
    hide Read;
  }

  lemma NameReadsKeeps(c: Setup, s: State, t: State, n: nat)
    requires GoodSetup(c) && Inv(c, s) && NameReads(c, s, t, n)
    ensures Inv(c, t)
  {
    hide Inv, PinnedIds, LoadersOk, Ids, Known, NameRead, RightSoFar, GoodSetup, Load.NameNeedsBase, BaseListed, Read;
    LoaderIs(c, s, n);
    NameReadExactly(c, s, n);
    var l := s.loaders[n];
    if NameRead(c, s, l).Ok? {
      OneMoreIsRight(c, s.history[l.snap.id].contents, l.asked, l.k, l.out, NameRead(c, s, l).value);
    }
    PinReplaces(s.pins, LoaderActor(n), {});
    LoaderMoves(c, s, t, n);
    LoaderStepKeeps(c, s, t);
  }

  lemma NamesEndKeeps(c: Setup, s: State, t: State, n: nat)
    requires Inv(c, s) && NamesEnd(s, t, n)
    ensures Inv(c, t)
  {
    hide Inv, PinnedIds, LoadersOk, Ids, RightSoFar;
    LoaderIs(c, s, n);
    assert s.loaders[n].asked[..s.loaders[n].k] == s.loaders[n].asked;
    PinReplaces(s.pins, LoaderActor(n), {});
    LoaderMoves(c, s, t, n);
    LoaderStepKeeps(c, s, t);
  }
}
