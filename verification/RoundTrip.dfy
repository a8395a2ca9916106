/** Saving one rank and loading it again, from other files and another manifest that still hold it. */
module RoundTrip {
  import opened Bytes
  import opened Manifest
  import opened Env
  import opened Tensor
  import opened Shard
  import opened Layout
  import opened Save
  import opened Core
  import Load

  /** What was at hand when the rank was saved. */
  datatype Saving = Saving(
    env: Env,
    config: RankConfig,
    files: Files,
    base: Option<Snapshot>,
    retained: Option<RetainedBase>,
    tensors: seq<TensorData>,
    ctx: Context
  )

  function Saved(s: Saving): Result<Written> {
    SavedRank(s.env, s.files, s.config, CacheFor(s.base, s.config.rank, s.retained), s.tensors, s.ctx)
  }

  /** The full a delta is taken against stands for `contents`, in these files and in what is retained of it. */
  ghost predicate BaseIs(s: Saving, files: Files, pack: Bytes, contents: Contents) {
    match s.base
    case None => s.ctx.base.None?
    case Some(b) =>
      && s.ctx.base == Some(b.id) && BaseHolds(s.env, files, b, s.config.rank, pack, contents)
      && (s.retained.Some? && s.retained.value.id == b.id ==> RetainsContents(s.retained.value.tensors, contents))
  }

  /** The manifest lists the snapshot the save made and its base, and the files hold the save's pack. */
  ghost predicate Listed(s: Saving, files: Files, ss: seq<Snapshot>, snap: Snapshot)
    requires Saved(s).Ok?
  {
    var pack := Path.Pack(s.ctx.id, s.config.rank);
    && Find(ss, s.ctx.id) == Some(snap) && snap.id == s.ctx.id && snap.base == s.ctx.base
    && s.config.rank in snap.ranks && snap.ranks[s.config.rank] == Saved(s).value.entry
    && snap.compression == s.config.tensors.compression
    && pack in files && Holds(files[pack], Saved(s).value.pack)
    && (s.base.Some? ==> Find(ss, s.base.value.id) == s.base)
  }

  lemma SavedEntryHasItsPack(s: Saving)
    requires Saved(s).Ok?
    ensures Saved(s).value.entry.packFile == Some(Path.Pack(s.ctx.id, s.config.rank))
  {
    hide ProcessedAll, CacheFor, PackOf, Placed, TotalCompressed, TotalRaw, CountOf;
  }

  lemma SavedIsResident(s: Saving, pack: Bytes, contents: Contents, files: Files, ss: seq<Snapshot>, snap: Snapshot)
    requires Lawful(s.env) && DistinctTensors(s.tensors) && Saved(s).Ok?
    requires BaseIs(s, s.files, pack, contents) && BaseIs(s, files, pack, contents) && Listed(s, files, ss, snap)
    ensures Load.Resident(s.env, files, ss, snap, s.config.rank, Saved(s).value.pack,
                          ContentsOf(s.env, s.config.tensors.policy, s.tensors), pack, contents)
  {
    hide *;
    SavedStands(s, pack, contents);
    SavedEntryHasItsPack(s);
    SavedIsStored(s, files, ss, snap, contents);
    BaseIsStored(s, files, ss, snap, pack, contents);
    ResidentIs(s, files, ss, snap, pack, contents);
  }

  /** What the save is read against. */
  function Against(s: Saving, contents: Contents): map<string, Bytes> {
    if s.base.Some? then Raws(contents) else map[]
  }

  lemma SavedStands(s: Saving, pack: Bytes, contents: Contents)
    requires Lawful(s.env) && DistinctTensors(s.tensors) && Saved(s).Ok? && BaseIs(s, s.files, pack, contents)
    ensures
      var w := Saved(s).value;
      ShardHolds(s.env, Shard(w.entry.tensors, w.pack, s.config.tensors.compression), Against(s, contents),
                 ContentsOf(s.env, s.config.tensors.policy, s.tensors))
  {
    var cache := CacheFor(s.base, s.config.rank, s.retained);
    hide SavedRank, ShardHolds, ContentsOf, Lawful, RetainsContents, Faithful, BaseHolds;
    if s.base.Some? {
      CacheIsFaithful(s.env, s.files, s.base.value, s.config.rank, s.retained, pack, contents);
    }
    SavedHolds(s.env, s.files, s.config, cache, s.tensors, s.ctx, Against(s, contents));
  }

  lemma SavedIsStored(s: Saving, files: Files, ss: seq<Snapshot>, snap: Snapshot, contents: Contents)
    requires Saved(s).Ok? && Listed(s, files, ss, snap)
    requires Saved(s).value.entry.packFile == Some(Path.Pack(s.ctx.id, s.config.rank))
    requires
      var w := Saved(s).value;
      ShardHolds(s.env, Shard(w.entry.tensors, w.pack, s.config.tensors.compression), Against(s, contents),
                 ContentsOf(s.env, s.config.tensors.policy, s.tensors))
    ensures Load.Stored(s.env, files, snap, s.config.rank, Saved(s).value.pack, Against(s, contents),
                        ContentsOf(s.env, s.config.tensors.policy, s.tensors))
  {
    hide Saved, ShardHolds, Holds, ContentsOf, Against, Find;
  }

  lemma BaseIsStored(s: Saving, files: Files, ss: seq<Snapshot>, snap: Snapshot, pack: Bytes, contents: Contents)
    requires Saved(s).Ok? && Listed(s, files, ss, snap) && BaseIs(s, files, pack, contents)
    ensures snap.base == (if s.base.Some? then Some(s.base.value.id) else None)
    ensures s.base.Some? ==>
              Find(ss, s.base.value.id) == s.base
              && Load.Stored(s.env, files, s.base.value, s.config.rank, pack, map[], contents)
  {
    hide Saved, ShardHolds, Holds, Find, RetainsContents;
  }

  lemma ResidentIs(s: Saving, files: Files, ss: seq<Snapshot>, snap: Snapshot, pack: Bytes, contents: Contents)
    requires Saved(s).Ok? && snap.base == (if s.base.Some? then Some(s.base.value.id) else None)
    requires Load.Stored(s.env, files, snap, s.config.rank, Saved(s).value.pack, Against(s, contents),
                         ContentsOf(s.env, s.config.tensors.policy, s.tensors))
    requires s.base.Some? ==>
               Find(ss, s.base.value.id) == s.base
               && Load.Stored(s.env, files, s.base.value, s.config.rank, pack, map[], contents)
    ensures Load.Resident(s.env, files, ss, snap, s.config.rank, Saved(s).value.pack,
                          ContentsOf(s.env, s.config.tensors.policy, s.tensors), pack, contents)
  {
    hide Saved, Load.Stored, ContentsOf, Find;
  }

  /** Rules that send a name and the one whose bytes it shares to the same stored dtype. */
  predicate Agrees(s: Saving, i: nat)
    requires i < |s.tensors|
  {
    StoredDtype(s.config.tensors.policy, s.tensors[i]) ==
    StoredDtype(s.config.tensors.policy, s.tensors[HolderOf(s.env, s.tensors, i)])
  }

  lemma AgreedUncastIsExact(s: Saving, i: nat)
    requires Injective(s.env.hash) && DistinctTensors(s.tensors) && i < |s.tensors|
    requires Agrees(s, i) && Uncast(s.config.tensors.policy, s.tensors[i])
    ensures
      var contents := ContentsOf(s.env, s.config.tensors.policy, s.tensors);
      s.tensors[i].name in contents && Read(s.env, contents[s.tensors[i].name]) == Ok(s.tensors[i].data)
  {
    HolderHoldsItself(s.env, s.tensors, i);
    UncastIsHeldExactly(s.env, s.config.tensors.policy, s.tensors, i);
    ContentsAt(s.env, s.config.tensors.policy, s.tensors, |s.tensors|, i);
  }

  /** Exactly the names that were saved, and under each that no rule casts the tensor that was given. */
  ghost predicate Returns(s: Saving, out: Load.State) {
    && (forall n :: n in out <==> exists i :: 0 <= i < |s.tensors| && s.tensors[i].name == n)
    && forall i :: 0 <= i < |s.tensors| && Agrees(s, i) && Uncast(s.config.tensors.policy, s.tensors[i]) ==>
         s.tensors[i].name in out && out[s.tensors[i].name] == s.tensors[i].data
  }

  /**
   For any distinctly named tensors, any full base, and however each tensor was kept: a load has
   exactly the names that were saved, and gives each tensor that no rule casts bit for bit.
   */
  lemma LoadUndoesSave(s: Saving, pack: Bytes, contents: Contents, files: Files, ss: seq<Snapshot>, snap: Snapshot)
    requires Lawful(s.env) && DistinctTensors(s.tensors) && Saved(s).Ok?
    requires BaseIs(s, s.files, pack, contents) && BaseIs(s, files, pack, contents) && Listed(s, files, ss, snap)
    ensures
      var out := Load.Load(s.env, files, ss, s.ctx.id, s.config.rank);
      && (out.Ok? ==> Returns(s, out.value))
      && ((forall i :: 0 <= i < |s.tensors| ==> Agrees(s, i) && Uncast(s.config.tensors.policy, s.tensors[i])) ==>
          out.Ok?)
  {
    hide *;
    var held := ContentsOf(s.env, s.config.tensors.policy, s.tensors);
    SavedIsFound(s, files, ss, snap);
    SavedIsResident(s, pack, contents, files, ss, snap);
    Load.LoadIsContents(s.env, files, ss, snap, s.config.rank, Saved(s).value.pack, held, pack, contents);
    ReadsAsSaved(s, Load.Load(s.env, files, ss, s.ctx.id, s.config.rank));
  }

  lemma SavedIsFound(s: Saving, files: Files, ss: seq<Snapshot>, snap: Snapshot)
    requires Saved(s).Ok? && Listed(s, files, ss, snap)
    ensures Find(ss, snap.id) == Some(snap) && snap.id == s.ctx.id
  {
    hide Saved, Holds;
  }

  lemma ReadsAsSaved(s: Saving, out: Result<Load.State>)
    requires Lawful(s.env) && DistinctTensors(s.tensors)
    requires
      var held := ContentsOf(s.env, s.config.tensors.policy, s.tensors);
      (out.Ok? <==> Load.Readable(s.env, held)) && (out.Ok? ==> out.value == Load.ReadAll(s.env, held))
    ensures out.Ok? ==> Returns(s, out.value)
    ensures (forall i :: 0 <= i < |s.tensors| ==> Agrees(s, i) && Uncast(s.config.tensors.policy, s.tensors[i])) ==>
              out.Ok?
  {
    hide *;
    var held := ContentsOf(s.env, s.config.tensors.policy, s.tensors);
    HeldNames(s, held);
    AgreedAreHeld(s, held);
    HeldReads(s, held, out);
  }

  /** The names a save keeps are those it was given. */
  ghost predicate Named(s: Saving, held: Contents) {
    forall n :: n in held <==> exists i :: 0 <= i < |s.tensors| && s.tensors[i].name == n
  }

  /** Each tensor the rules leave alone is kept as it was given. */
  ghost predicate Kept(s: Saving, held: Contents) {
    forall i :: 0 <= i < |s.tensors| && Agrees(s, i) && Uncast(s.config.tensors.policy, s.tensors[i]) ==>
      s.tensors[i].name in held && Read(s.env, held[s.tensors[i].name]) == Ok(s.tensors[i].data)
  }

  lemma HeldNames(s: Saving, held: Contents)
    requires held == ContentsOf(s.env, s.config.tensors.policy, s.tensors)
    ensures Named(s, held)
  {
  }

  lemma AgreedAreHeld(s: Saving, held: Contents)
    requires Lawful(s.env) && DistinctTensors(s.tensors)
    requires held == ContentsOf(s.env, s.config.tensors.policy, s.tensors)
    ensures Kept(s, held)
  {
    assert Injective(s.env.hash);
    hide Lawful, Injective, Uncast, Agrees, ContentsOf, Read, DistinctTensors;
    forall i | 0 <= i < |s.tensors| && Agrees(s, i) && Uncast(s.config.tensors.policy, s.tensors[i])
      ensures s.tensors[i].name in held && Read(s.env, held[s.tensors[i].name]) == Ok(s.tensors[i].data)
    {
      AgreedUncastIsExact(s, i);
    }
  }

  lemma HeldReads(s: Saving, held: Contents, out: Result<Load.State>)
    requires Named(s, held) && Kept(s, held)
    requires (out.Ok? <==> Load.Readable(s.env, held)) && (out.Ok? ==> out.value == Load.ReadAll(s.env, held))
    ensures out.Ok? ==> Returns(s, out.value)
    ensures (forall i :: 0 <= i < |s.tensors| ==> Agrees(s, i) && Uncast(s.config.tensors.policy, s.tensors[i])) ==>
              out.Ok?
  {
    hide Agrees, Uncast, Read;
  }

  /** And a load of some of the names is the load of all of them, restricted to those. */
  lemma LoadOfSomeUndoesSave(
      s: Saving, pack: Bytes, contents: Contents, files: Files, ss: seq<Snapshot>, snap: Snapshot, names: seq<string>)
    requires Lawful(s.env) && DistinctTensors(s.tensors) && Saved(s).Ok?
    requires BaseIs(s, s.files, pack, contents) && BaseIs(s, files, pack, contents) && Listed(s, files, ss, snap)
    requires Load.Load(s.env, files, ss, s.ctx.id, s.config.rank).Ok?
    ensures
      var all := Load.Load(s.env, files, ss, s.ctx.id, s.config.rank).value;
      var some := Load.LoadNames(s.env, files, ss, s.ctx.id, s.config.rank, names);
      && (some.Ok? <==> forall n :: n in names ==> exists i :: 0 <= i < |s.tensors| && s.tensors[i].name == n)
      && (some.Ok? ==> some.value == map n | n in names && n in all :: all[n])
  {
    assert Find(ss, snap.id) == Some(snap) && snap.id == s.ctx.id;
    var held := ContentsOf(s.env, s.config.tensors.policy, s.tensors);
    var saved := Saved(s).value.pack;
    hide Lawful, BaseIs, Listed, Saved, Load.Load, Load.LoadNames, Load.Resident, ContentsOf;
    LoadUndoesSave(s, pack, contents, files, ss, snap);
    SavedIsResident(s, pack, contents, files, ss, snap);
    Load.LoadIsContents(s.env, files, ss, snap, s.config.rank, saved, held, pack, contents);
    hide Load.Readable, Load.ReadAll, Uncast, Agrees;
    Load.LoadNamesIsRestriction(s.env, files, ss, snap, s.config.rank, saved, held, pack, contents, names);
  }
}
