/** The merger's two folds, run to completion: what each takes in, publishes, and only then deletes. */
module Merger {
  import opened Bytes
  import opened Compression
  import opened Manifest
  import opened Env
  import opened Tensor
  import opened Shard
  import opened Layout
  import opened Load
  import opened ManifestIO
  import opened Order
  import opened Retain
  import opened InFlight
  import opened Merge
  import MergeKinds

  // ── What a fold takes in ─────────────────────────────────────────

  /** The finalized deltas against a base, oldest first. */
  function DeltasOf(ss: seq<Snapshot>, base: Id): (r: seq<Snapshot>)
    ensures forall s :: s in r <==> s in ss && s.base == Some(base) && s.finalized
  {
    if ss == [] then []
    else
      assert forall s :: s in ss <==> s == ss[0] || s in ss[1..];
      var r := DeltasOf(ss[1..], base);
      if ss[0].base == Some(base) && ss[0].finalized then
        assert forall s :: s in [ss[0]] + r <==> s == ss[0] || s in r;
        [ss[0]] + r
      else r
  }

  predicate UnfinalizedOn(ss: seq<Snapshot>, base: Id) {
    exists s :: s in ss && s.base == Some(base) && !s.finalized
  }

  datatype FullPlan = NoFull | Nothing | Wait | Fold(base: Snapshot, deltas: seq<Snapshot>)

  function PlanFull(ss: seq<Snapshot>): (p: FullPlan)
    ensures p.Fold? ==> p.base in ss && IsFull(p.base) && p.deltas != []
    ensures p.Fold? ==> forall s :: s in ss && s.base == Some(p.base.id) ==> s in p.deltas
    ensures p.Fold? ==> forall s :: s in p.deltas ==> s in ss && s.base == Some(p.base.id) && s.finalized
  {
    match LastFull(ss)
    case None => NoFull
    case Some(base) =>
      var deltas := DeltasOf(ss, base.id);
      if deltas == [] then Nothing
      else if UnfinalizedOn(ss, base.id) then Wait
      else Fold(base, deltas)
  }

  lemma DeltasStep(ss: seq<Snapshot>, base: Id)
    requires ss != []
    ensures
      if ss[0].base == Some(base) && ss[0].finalized then DeltasOf(ss, base) == [ss[0]] + DeltasOf(ss[1..], base)
      else DeltasOf(ss, base) == DeltasOf(ss[1..], base)
  {
  }

  lemma DeltasOfOne(s: Snapshot, base: Id)
    ensures DeltasOf([s], base) == if s.base == Some(base) && s.finalized then [s] else []
  {
    assert [s][1..] == [] && [s] + [] == [s];
  }

  lemma DeltasOfNone(base: Id)
    ensures DeltasOf([], base) == []
  {
  }

  /** A fold takes its deltas in the list's order, each once: what a longer list adds comes after. */
  lemma {:induction false} DeltasAddUp(ss: seq<Snapshot>, more: seq<Snapshot>, base: Id)
    ensures DeltasOf(ss + more, base) == DeltasOf(ss, base) + DeltasOf(more, base)
  {
    hide *;
    if ss == [] {
      DeltasOfNone(base);
      assert ss + more == more;
    } else {
      assert (ss + more)[1..] == ss[1..] + more;
      DeltasStep(ss, base);
      DeltasStep(ss + more, base);
      DeltasAddUp(ss[1..], more, base);
    }
  }

  lemma NewestInRest(ss: seq<Snapshot>, base: Id, d: Snapshot)
    requires ss != []
    requires IsNewestDelta(ss[1..], base, d)
             || (d == ss[0] && d.base == Some(base) && forall s :: s in ss[1..] ==> s.base != Some(base))
    ensures IsNewestDelta(ss, base, d)
  {
    if IsNewestDelta(ss[1..], base, d) {
      var k :| 0 <= k < |ss[1..]| && ss[1..][k] == d && forall i :: k < i < |ss[1..]| ==> ss[1..][i].base != Some(base);
      forall i | k + 1 < i < |ss|
        ensures ss[i].base != Some(base)
      {
        assert ss[1..][i - 1] == ss[i];
      }
      assert ss[k + 1] == d;
    } else {
      forall i | 0 < i < |ss|
        ensures ss[i] in ss[1..]
      {
        assert ss[1..][i - 1] == ss[i];
      }
      assert ss[0] == d;
    }
  }

  lemma {:induction false} LastDeltaIsNewest(ss: seq<Snapshot>, base: Id)
    requires (forall s :: s in ss && s.base == Some(base) ==> s.finalized) && DeltasOf(ss, base) != []
    ensures var r := DeltasOf(ss, base); IsNewestDelta(ss, base, r[|r| - 1])
  {
    assert ss != [] && forall s :: s in ss[1..] ==> s in ss;
    hide DeltasOf, IsNewestDelta;
    DeltasStep(ss, base);
    var r := DeltasOf(ss[1..], base);
    if r != [] {
      LastDeltaIsNewest(ss[1..], base);
    }
    NewestInRest(ss, base, DeltasOf(ss, base)[|DeltasOf(ss, base)| - 1]);
  }

  /** What a full merge folds into is the last delta the list has against its newest full. */
  lemma FoldsIntoNewest(ss: seq<Snapshot>)
    requires PlanFull(ss).Fold?
    ensures
      var plan := PlanFull(ss);
      LastFull(ss) == Some(plan.base) && IsNewestDelta(ss, plan.base.id, plan.deltas[|plan.deltas| - 1])
  {
    var base := LastFull(ss).value;
    assert PlanFull(ss) == Fold(base, DeltasOf(ss, base.id)) && !UnfinalizedOn(ss, base.id);
    hide LastFull, DeltasOf, PlanFull, IsNewestDelta;
    LastDeltaIsNewest(ss, base.id);
  }

  /** There is no other. */
  lemma NewestDeltaIsOne(ss: seq<Snapshot>, base: Id, d: Snapshot, e: Snapshot)
    requires IsNewestDelta(ss, base, d) && IsNewestDelta(ss, base, e)
    ensures d == e
  {
    var i :| 0 <= i < |ss| && ss[i] == d && d.base == Some(base) && forall k ::
          i < k < |ss| ==> ss[k].base != Some(base);
    var j :| 0 <= j < |ss| && ss[j] == e && e.base == Some(base) && forall k ::
          j < k < |ss| ==> ss[k].base != Some(base);
    assert !(i < j) && !(j < i);
  }

  /** When there is something to fold, and when a full merge stands down instead. */
  lemma FoldsExactlyWhen(ss: seq<Snapshot>, k: nat)
    requires k < |ss| && IsNewestFull(ss, k)
    ensures PlanFull(ss).Fold? || PlanFull(ss).Wait? || PlanFull(ss).Nothing?
    ensures PlanFull(ss).Nothing? <==> forall d :: d in ss && d.base == Some(ss[k].id) ==> !d.finalized
    ensures PlanFull(ss).Wait? <==>
              && (exists d :: d in ss && d.base == Some(ss[k].id) && d.finalized)
              && exists d :: d in ss && d.base == Some(ss[k].id) && !d.finalized
  {
    assert IsLastFull(ss, ss[k]);
    LastFullIs(ss, ss[k]);
    var deltas := DeltasOf(ss, ss[k].id);
    assert deltas != [] ==> deltas[0] in deltas;
    hide LastFull, IsNewestFull;
  }

  function IdSeq(ss: seq<Snapshot>): (ids: seq<Id>)
    ensures |ids| == |ss| && forall i :: 0 <= i < |ss| ==> ids[i] == ss[i].id
  {
    seq(|ss|, i requires 0 <= i < |ss| => ss[i].id)
  }

  function Spent(base: Snapshot, deltas: seq<Snapshot>): set<Id> {
    {base.id} + Ids(deltas)
  }

  /** The manifest once the merged full stands in for what it folded. */
  function Published(ss: seq<Snapshot>, spent: set<Id>, merged: Snapshot): (r: seq<Snapshot>)
    ensures forall s :: s in r <==> (s in ss && s.id !in spent) || s == merged
  {
    assert forall s :: s in Without(ss, spent) + [merged] <==> s in Without(ss, spent) || s == merged;
    SortByStep(Without(ss, spent) + [merged])
  }

  /** And in it the older step comes first, so the merged full stands among the saves made while it was worked out. */
  lemma PublishedInOrder(ss: seq<Snapshot>, spent: set<Id>, merged: Snapshot)
    ensures ByStep(Published(ss, spent, merged))
  {
    SortedByStep(Without(ss, spent) + [merged]);
  }

  /** Publishing leaves no delta without its base, whatever was saved while the merge was reading. */
  lemma PublishKeepsSound(ss: seq<Snapshot>, spent: set<Id>, merged: Snapshot)
    requires Sound(ss) && merged.base.None? && merged.id !in Ids(ss)
    requires forall s :: s in ss && s.base.Some? && s.base.value in spent ==> s.id in spent
    ensures Sound(Published(ss, spent, merged))
  {
    DropKeepsSound(ss, spent);
    var rest := Without(ss, spent);
    var r := Published(ss, spent, merged);
    assert Distinct(rest + [merged]) by {
      forall i, j | 0 <= i < j < |rest + [merged]|
        ensures (rest + [merged])[i].id != (rest + [merged])[j].id
      {
        assert rest[i] in rest;
      }
    }
    SortIsDistinct(rest + [merged]);
    forall s | s in r && s.base.Some?
      ensures s.base.value in Ids(r)
    {
      var b :| b in rest && b.id == s.base.value;
      assert b in r;
    }
    forall s, b | s in r && b in r && s.base == Some(b.id)
      ensures b.base.None?
    {
      if b != merged {
        assert s in rest && b in rest;
      }
    }
  }

  // ── The stride fold ──────────────────────────────────────────────

  /** Among the trailing deltas, the newest finalized one; the others against its base are superseded. */
  function Superseded(ss: seq<Snapshot>): (r: Option<(Snapshot, set<Id>)>)
    ensures r.Some? ==>
              var (survivor, ids) := r.value;
              && survivor in ss && survivor.finalized && survivor.base.Some?
              && survivor.id !in ids
              && forall id :: id in ids ==> exists s :: s in ss && s.id == id && s.finalized && s.base == survivor.base
  {
    var tail := ss[|ss| - PendingDeltas(ss)..];
    match Newest(tail)
    case None => None
    case Some(survivor) =>
      var k :| 0 <= k < |tail| && tail[k] == survivor;
      assert ss[|ss| - PendingDeltas(ss) + k] == survivor;
      Some((survivor, set s | s in tail && s.finalized && s.id != survivor.id && s.base == survivor.base :: s.id))
  }

  // ── Deleting what nothing names any more ─────────────────────────

  function PacksOf(s: Snapshot): set<Path> {
    set rank | rank in s.ranks && s.ranks[rank].packFile.Some? :: s.ranks[rank].packFile.value
  }

  function LooseOf(s: Snapshot): set<Path> {
    set rank, e | rank in s.ranks && e in s.ranks[rank].tensors && e.filename.Some? :: e.filename.value
  }

  function FilesOf(s: Snapshot): set<Path> {
    PacksOf(s) + LooseOf(s) + {Ranks(s.id)}
  }

  /** Nothing a snapshot names is left: no pack, no tensor's own file, no ranks file. */
  ghost predicate Freed(files: Files, s: Snapshot) {
    && Ranks(s.id) !in files
    && forall rank :: rank in s.ranks ==>
         && (s.ranks[rank].packFile.Some? ==> s.ranks[rank].packFile.value !in files)
         && forall e :: e in s.ranks[rank].tensors && e.filename.Some? ==> e.filename.value !in files
  }

  /** What a snapshot names is the packs and the tensor files of its ranks, its ranks file, and nothing else. */
  lemma FilesOfIs(s: Snapshot, p: Path)
    ensures p in FilesOf(s) <==>
              || p == Ranks(s.id)
              || exists rank :: rank in s.ranks
                   && (s.ranks[rank].packFile == Some(p)
                       || exists e :: e in s.ranks[rank].tensors && e.filename == Some(p))
  {
  }

  lemma FreedIs(files: Files, s: Snapshot)
    requires forall p :: p in FilesOf(s) ==> p !in files
    ensures Freed(files, s)
  {
    forall rank | rank in s.ranks && s.ranks[rank].packFile.Some?
      ensures s.ranks[rank].packFile.value !in files
    {
      FilesOfIs(s, s.ranks[rank].packFile.value);
    }
    forall rank, e | rank in s.ranks && e in s.ranks[rank].tensors && e.filename.Some?
      ensures e.filename.value !in files
    {
      FilesOfIs(s, e.filename.value);
    }
    FilesOfIs(s, Ranks(s.id));
  }

  lemma AllFreed(files: Files, ss: seq<Snapshot>)
    requires forall p :: p in files ==> !NamedBy(ss, p)
    ensures forall s :: s in ss ==> Freed(files, s)
  {
    forall s | s in ss
      ensures Freed(files, s)
    {
      hide FilesOf, Freed;
      FreedIs(files, s);
    }
  }

  predicate NamedBy(ss: seq<Snapshot>, p: Path) {
    exists s :: s in ss && p in FilesOf(s)
  }

  lemma NamedOneMore(ss: seq<Snapshot>, i: nat)
    requires i < |ss|
    ensures forall p :: NamedBy(ss[..i + 1], p) <==> NamedBy(ss[..i], p) || p in FilesOf(ss[i])
    ensures forall p :: p in FilesOf(ss[i]) ==> NamedBy(ss, p)
  {
    assert ss[..i + 1] == ss[..i] + [ss[i]] && ss[i] in ss;
    hide FilesOf;
    forall p
      ensures NamedBy(ss[..i + 1], p) <==> NamedBy(ss[..i], p) || p in FilesOf(ss[i])
    {
      if p in FilesOf(ss[i]) {
        assert ss[i] in ss[..i + 1];
      }
    }
  }

  /** Deletes what one snapshot names, carrying on past any file that cannot be deleted. */
  method UnlinkOne(disk: Disk, s: Snapshot)
    modifies disk
    ensures OnlyDeletes(old(disk.files), disk.files, FilesOf(s)) && disk.ops >= old(disk.ops)
    ensures disk.Healthy(old(disk.ops), disk.ops) ==> forall p :: p in FilesOf(s) ==> p !in disk.files
  {
    hide PacksOf, LooseOf;
    disk.DeleteAll(PacksOf(s) + LooseOf(s));
    if Ranks(s.id) in disk.files {
      var _ := disk.Delete(Ranks(s.id));
    }
  }

  /** Waits for readers, then deletes; a reader still there at the deadline keeps every file. */
  method UnlinkSnapshots(disk: Disk, seen: nat -> map<Id, nat>, deadline: nat, doomed: seq<Snapshot>)
    modifies disk
    ensures forall p :: p in disk.files ==> p in old(disk.files) && disk.files[p] == old(disk.files)[p]
    ensures forall p :: p in old(disk.files) && !NamedBy(doomed, p) ==> p in disk.files
    ensures !ClearBy(seen, IdSeq(doomed), deadline) ==> disk.files == old(disk.files)
    ensures disk.ops >= old(disk.ops)
    ensures ClearBy(seen, IdSeq(doomed), deadline) && disk.Healthy(old(disk.ops), disk.ops) ==>
              forall s :: s in doomed ==> Freed(disk.files, s)
    ensures disk.NeverFails() ==> disk.Healthy(old(disk.ops), disk.ops)
  {
    if doomed == [] {
      return;
    }
    hide Freed;
    var clear, _ := WaitUntilUnpinned(seen, IdSeq(doomed), deadline);
    if !clear {
      return;
    }
    for i := 0 to |doomed|
      invariant forall p :: p in disk.files ==> p in old(disk.files) && disk.files[p] == old(disk.files)[p]
      invariant forall p :: p in old(disk.files) && !NamedBy(doomed, p) ==> p in disk.files
      invariant disk.ops >= old(disk.ops)
      invariant disk.Healthy(old(disk.ops), disk.ops) ==> forall p :: p in disk.files ==> !NamedBy(doomed[..i], p)
    {
      UnlinkOne(disk, doomed[i]);
      NamedOneMore(doomed, i);
    }
    assert doomed[..|doomed|] == doomed;
    if disk.Healthy(old(disk.ops), disk.ops) {
      AllFreed(disk.files, doomed);
    }
  }

  // ── Writing the merged full ──────────────────────────────────────

  /** For one rank: the packs the merge reads and what they hold. */
  datatype Piece = Piece(basePack: Bytes, baseContents: Contents, pack: Bytes, contents: Contents)

  /** Every rank of the inputs is on storage and holds what `held` says. */
  ghost predicate InputsHold(
      env: Env, files: Files, base: Snapshot, last: Snapshot, algo: Algo, held: map<nat, Piece>) {
    && held.Keys == base.ranks.Keys + last.ranks.Keys
    && forall rank :: rank in held ==> PieceHolds(env, files, base, last, algo, rank, held[rank])
  }

  ghost predicate PieceHolds(
      env: Env, files: Files, base: Snapshot, last: Snapshot, algo: Algo, rank: nat, piece: Piece) {
    && Kept(env, files, base, rank, piece.basePack, map[], piece.baseContents, algo)
    && if rank in last.ranks
       then Kept(env, files, last, rank, piece.pack, Raws(piece.baseContents), piece.contents, algo)
       else piece.contents == piece.baseContents
  }

  /** A merged rank is on storage, a full, and holds what the newest delta held. */
  ghost predicate MergedHolds(
      env: Env, files: Files, id: Id, algo: Algo, rank: nat, entry: RankEntry, contents: Contents) {
    && entry.packFile == Some(Path.Pack(id, rank)) && Path.Pack(id, rank) in files
    && exists pack ::
         Holds(files[Path.Pack(id, rank)], pack) && ShardHolds(env, Shard(entry.tensors, pack, algo), map[], contents)
  }

  predicate Unused(files: Files, id: Id) {
    forall p :: p in files && p.Pack? ==> p.id != id
  }

  ghost predicate KeepsAll(before: Files, after: Files) {
    forall p :: p in before ==> p in after && after[p] == before[p]
  }

  lemma KeptStays(
      env: Env, before: Files, after: Files, s: Snapshot, rank: nat, pack: Bytes, base: map<string, Bytes>,
      contents: Contents, algo: Algo)
    requires Kept(env, before, s, rank, pack, base, contents, algo) && KeepsAll(before, after)
    ensures Kept(env, after, s, rank, pack, base, contents, algo)
  {
    hide ShardHolds, Holds;
  }

  lemma MergedStays(
      env: Env, before: Files, after: Files, id: Id, algo: Algo, rank: nat, entry: RankEntry, contents: Contents)
    requires MergedHolds(env, before, id, algo, rank, entry, contents)
    requires Path.Pack(id, rank) in after && after[Path.Pack(id, rank)] == before[Path.Pack(id, rank)]
    ensures MergedHolds(env, after, id, algo, rank, entry, contents)
  {
    hide ShardHolds, Holds;
    var pack :| Holds(before[Path.Pack(id, rank)], pack)
        && ShardHolds(env, Shard(entry.tensors, pack, algo), map[], contents);
  }

  /** The pack one rank's merge writes stands, once it is down, for that rank's newest state. */
  lemma RankWritten(
      env: Env, files: Files, page: nat, base: Snapshot, last: Snapshot, algo: Algo, rank: nat, piece: Piece,
      ctx: Context, worldSize: nat)
    requires Lawful(env) && PieceHolds(env, files, base, last, algo, rank, piece)
    ensures
      var w := MergedRank(env, files, base, last, rank, ctx, algo, worldSize);
      && w.Ok?
      && MergedHolds(env, files[Path.Pack(ctx.id, rank) := Padded(w.value.pack, page)], ctx.id, algo, rank,
                     w.value.entry, piece.contents)
  {
    assert HasRank(base, last, rank);
    hide Kept, ShardHolds, Holds, Padded, MergedEntries, MergedRankEntry, PackOf;
    if rank in last.ranks {
      MergeKinds.MergedRankHolds(env, files, base, piece.basePack, piece.baseContents, last, piece.pack,
                                 piece.contents, rank,
                      ctx, algo, worldSize);
    } else {
      MergeKinds.MergedRankOfBase(env, files, base, piece.basePack, piece.baseContents, last, rank, ctx, algo,
                                  worldSize);
    }
    var w := MergedRank(env, files, base, last, rank, ctx, algo, worldSize).value;
    MergedEntryPack(env, files, base, last, rank, ctx, algo, worldSize);
    PaddedHolds(w.pack, page);
  }

  lemma MergedEntryPack(
      env: Env, files: Files, base: Snapshot, last: Snapshot, rank: nat, ctx: Context, algo: Algo, worldSize: nat)
    requires HasRank(base, last, rank) && MergedRank(env, files, base, last, rank, ctx, algo, worldSize).Ok?
    ensures MergedRank(env, files, base, last, rank, ctx, algo, worldSize).value.entry.packFile
            == Some(Path.Pack(ctx.id, rank))
  {
    var source := SourceOf(base, last, rank);
    var ps := MergedEntries(env, files, base, source, rank, source.ranks[rank].tensors, algo);
    assert MergedRank(env, files, base, last, rank, ctx, algo, worldSize)
           == match ps case Err(e) => Err(e) case Ok(all) => Ok(MergedWritten(env, all, ctx, algo, rank, worldSize));
  }

  lemma HasMinimum(s: set<nat>) returns (m: nat)
    requires s != {}
    ensures m in s && forall x :: x in s ==> m <= x
    decreases |s|
  {
    m :| m in s;
    assert forall x :: x in s ==> x == m || x in s - {m};
    if s - {m} != {} {
      var rest := HasMinimum(s - {m});
      if rest < m {
        m := rest;
      }
    }
  }

  ghost predicate MergedSoFar(
      env: Env, files: Files, id: Id, algo: Algo, merged: map<nat, RankEntry>, held: map<nat, Piece>) {
    forall rank ::
      rank in merged ==> rank in held && MergedHolds(env, files, id, algo, rank, merged[rank], held[rank].contents)
  }

  lemma MergedOneMore(
      env: Env, before: Files, data: Bytes, id: Id, algo: Algo, merged: map<nat, RankEntry>, held: map<nat, Piece>,
      rank: nat, entry: RankEntry)
    requires MergedSoFar(env, before, id, algo, merged, held) && rank !in merged && rank in held
    requires MergedHolds(env, before[Path.Pack(id, rank) := data], id, algo, rank, entry, held[rank].contents)
    ensures MergedSoFar(env, before[Path.Pack(id, rank) := data], id, algo, merged[rank := entry], held)
  {
    var after := before[Path.Pack(id, rank) := data];
    hide MergedHolds;
    forall other | other in merged
      ensures MergedHolds(env, after, id, algo, other, merged[other], held[other].contents)
    {
      MergedPresent(env, before, id, algo, other, merged[other], held[other].contents);
      MergedStays(env, before, after, id, algo, other, merged[other], held[other].contents);
    }
  }

  method WriteMergedRank(
      env: Env, disk: Disk, base: Snapshot, last: Snapshot, ctx: Context, algo: Algo, rank: nat, worldSize: nat,
      ghost piece: Piece)
    returns (r: Result<RankEntry>)
    requires Lawful(env) && PieceHolds(env, disk.files, base, last, algo, rank, piece)
    modifies disk
    ensures r.Err? ==> disk.files == old(disk.files)
    ensures disk.NeverFails() ==> r.Ok?
    ensures r.Ok? ==>
              && Path.Pack(ctx.id, rank) in disk.files
              && disk.files == old(disk.files)[Path.Pack(ctx.id, rank) := disk.files[Path.Pack(ctx.id, rank)]]
              && MergedHolds(env, disk.files, ctx.id, algo, rank, r.value, piece.contents)
  {
    assert HasRank(base, last, rank);
    hide *;
    RankWritten(env, disk.files, disk.page, base, last, algo, rank, piece, ctx, worldSize);
    var w := MergeRank(env, disk.files, base, last, rank, ctx, algo, worldSize);
    var put := disk.Put(Path.Pack(ctx.id, rank), w.value.pack);
    if put.Err? {
      return Err(put.error);
    }
    return Ok(w.value.entry);
  }

  /** Nothing is changed or lost, and what is new is packs of `id` for these ranks. */
  ghost predicate GrewBy(before: Files, after: Files, id: Id, ranks: set<nat>) {
    && KeepsAll(before, after)
    && forall p :: p in after && p !in before ==> p.Pack? && p.id == id && p.rank in ranks
  }

  lemma GrowsByOne(before: Files, now: Files, id: Id, ranks: set<nat>, rank: nat, data: Bytes)
    requires GrewBy(before, now, id, ranks) && Unused(before, id)
    ensures GrewBy(before, now[Path.Pack(id, rank) := data], id, ranks + {rank})
  {
  }

  /** Where the merge of `start` stands: the ranks done so far are on storage, and nothing else has changed. */
  ghost predicate Progress(
      env: Env, start: Files, now: Files, id: Id, algo: Algo, merged: map<nat, RankEntry>, held: map<nat, Piece>)
  {
    GrewBy(start, now, id, held.Keys) && MergedSoFar(env, now, id, algo, merged, held)
  }

  lemma ProgressWith(
      env: Env, start: Files, now: Files, base: Snapshot, last: Snapshot, id: Id, algo: Algo, rank: nat,
      merged: map<nat, RankEntry>, held: map<nat, Piece>)
    requires InputsHold(env, start, base, last, algo, held) && Progress(env, start, now, id, algo, merged, held)
             && rank in held
    ensures PieceHolds(env, start, base, last, algo, rank, held[rank])
    ensures GrewBy(start, now, id, held.Keys) && KeepsAll(start, now) && MergedSoFar(env, now, id, algo, merged, held)
    ensures held.Keys + {rank} == held.Keys
  {
    hide PieceHolds, MergedSoFar;
  }

  lemma ProgressIs(
      env: Env, start: Files, now: Files, id: Id, algo: Algo, merged: map<nat, RankEntry>, held: map<nat, Piece>)
    requires GrewBy(start, now, id, held.Keys) && MergedSoFar(env, now, id, algo, merged, held)
    ensures Progress(env, start, now, id, algo, merged, held)
  {
    hide GrewBy, MergedSoFar;
  }

  method MergeOneMore(
      env: Env, disk: Disk, ghost start: Files, base: Snapshot, last: Snapshot, ctx: Context, algo: Algo, rank: nat,
      worldSize: nat,
      merged: map<nat, RankEntry>, ghost held: map<nat, Piece>)
    returns (r: Result<map<nat, RankEntry>>)
    requires Lawful(env) && InputsHold(env, start, base, last, algo, held) && Unused(start, ctx.id)
    requires Progress(env, start, disk.files, ctx.id, algo, merged, held) && rank in held && rank !in merged
    modifies disk
    ensures GrewBy(start, disk.files, ctx.id, held.Keys)
    ensures disk.NeverFails() ==> r.Ok?
    ensures r.Ok? ==>
              r.value.Keys == merged.Keys + {rank} && Progress(env, start, disk.files, ctx.id, algo, r.value, held)
  {
    hide *;
    ProgressWith(env, start, disk.files, base, last, ctx.id, algo, rank, merged, held);
    PieceStays(env, start, disk.files, base, last, algo, rank, held[rank]);
    ghost var before := disk.files;
    var w := WriteMergedRank(env, disk, base, last, ctx, algo, rank, worldSize, held[rank]);
    if w.Err? {
      return Err(w.error);
    }
    ghost var data := disk.files[Path.Pack(ctx.id, rank)];
    GrowsByOne(start, before, ctx.id, held.Keys, rank, data);
    MergedOneMore(env, before, data, ctx.id, algo, merged, held, rank, w.value);
    ProgressIs(env, start, disk.files, ctx.id, algo, merged[rank := w.value], held);
    return Ok(merged[rank := w.value]);
  }

  lemma MergeStarts(
      env: Env, files: Files, base: Snapshot, last: Snapshot, id: Id, algo: Algo, order: seq<nat>,
      held: map<nat, Piece>)
    requires InputsHold(env, files, base, last, algo, held)
    ensures held.Keys == base.ranks.Keys + last.ranks.Keys && Members(order[..0]) == {}
    ensures Progress(env, files, files, id, algo, map[], held)
  {
    assert order[..0] == [];
    hide Stored, DecodesAlike;
  }

  method WriteMergedRanks(
      env: Env, disk: Disk, base: Snapshot, last: Snapshot, ctx: Context, algo: Algo, ghost held: map<nat, Piece>)
    returns (r: Result<map<nat, RankEntry>>)
    requires Lawful(env) && InputsHold(env, disk.files, base, last, algo, held) && Unused(disk.files, ctx.id)
    modifies disk
    ensures GrewBy(old(disk.files), disk.files, ctx.id, held.Keys)
    ensures disk.NeverFails() ==> r.Ok?
    ensures r.Ok? ==> r.value.Keys == held.Keys && MergedSoFar(env, disk.files, ctx.id, algo, r.value, held)
  {
    hide *;
    var order := Ascending(base.ranks.Keys + last.ranks.Keys);
    var merged: map<nat, RankEntry> := map[];
    MergeStarts(env, disk.files, base, last, ctx.id, algo, order, held);
    for i := 0 to |order|
      invariant merged.Keys == Members(order[..i])
      invariant Progress(env, old(disk.files), disk.files, ctx.id, algo, merged, held)
    {
      NextMember(order, i);
      var done := MergeOneMore(env, disk, old(disk.files), base, last, ctx, algo, order[i], |order|, merged, held);
      if done.Err? {
        return done;
      }
      merged := done.value;
    }
    AllMembers(order, held.Keys);
    ProgressSays(env, old(disk.files), disk.files, ctx.id, algo, merged, held);
    return Ok(merged);
  }

  ghost function Members(order: seq<nat>): set<nat> {
    set x | x in order
  }

  lemma NextMember(order: seq<nat>, i: nat)
    requires i < |order| && forall j, k :: 0 <= j < k < |order| ==> order[j] < order[k]
    ensures order[i] !in Members(order[..i]) && Members(order[..i + 1]) == Members(order[..i]) + {order[i]}
  {
    assert order[..i + 1] == order[..i] + [order[i]];
  }

  lemma AllMembers(order: seq<nat>, all: set<nat>)
    requires forall x :: x in order <==> x in all
    ensures Members(order[..|order|]) == all && Members([]) == {}
  {
    assert order[..|order|] == order;
  }

  lemma ProgressSays(
      env: Env, start: Files, now: Files, id: Id, algo: Algo, merged: map<nat, RankEntry>, held: map<nat, Piece>)
    requires Progress(env, start, now, id, algo, merged, held)
    ensures GrewBy(start, now, id, held.Keys) && MergedSoFar(env, now, id, algo, merged, held)
  {
  }

  /** The ranks of either input, each once, in ascending order. */
  method Ascending(s: set<nat>) returns (order: seq<nat>)
    ensures forall x :: x in order <==> x in s
    ensures forall i, j :: 0 <= i < j < |order| ==> order[i] < order[j]
  {
    order := [];
    var todo := s;
    while todo != {}
      invariant todo <= s
      invariant forall x :: x in order <==> x in s - todo
      invariant forall i, j :: 0 <= i < j < |order| ==> order[i] < order[j]
      invariant forall i, x :: 0 <= i < |order| && x in todo ==> order[i] < x
      decreases |todo|
    {
      ghost var least := HasMinimum(todo);
      var rank :| rank in todo && forall x :: x in todo ==> rank <= x;
      order := order + [rank];
      todo := todo - {rank};
    }
  }

  lemma MergedPresent(env: Env, files: Files, id: Id, algo: Algo, rank: nat, entry: RankEntry, contents: Contents)
    requires MergedHolds(env, files, id, algo, rank, entry, contents)
    ensures Path.Pack(id, rank) in files
  {
  }

  lemma PieceStays(
      env: Env, before: Files, after: Files, base: Snapshot, last: Snapshot, algo: Algo, rank: nat, piece: Piece)
    requires PieceHolds(env, before, base, last, algo, rank, piece) && KeepsAll(before, after)
    ensures PieceHolds(env, after, base, last, algo, rank, piece)
  {
    hide Kept;
    KeptStays(env, before, after, base, rank, piece.basePack, map[], piece.baseContents, algo);
    if rank in last.ranks {
      KeptStays(env, before, after, last, rank, piece.pack, Raws(piece.baseContents), piece.contents, algo);
    }
  }

  // ── The full merge ───────────────────────────────────────────────

  datatype Outcome = Merged | NothingToMerge | Busy

  function Decimal(n: nat): string {
    var digit := ['0', '1', '2', '3', '4', '5', '6', '7', '8', '9'][n % 10];
    if n < 10 then [digit] else Decimal(n / 10) + [digit]
  }

  /** What a string of digits is worth. */
  function Worth(digits: string): nat {
    if digits == [] then 0
    else
      var last := digits[|digits| - 1];
      10 * Worth(digits[..|digits| - 1]) + if '0' <= last <= '9' then last as nat - '0' as nat else 0
  }

  /** The count of folded deltas reads back as it was. */
  lemma {:induction false} DecimalReadsBack(n: nat)
    ensures Worth(Decimal(n)) == n && Decimal(n) != []
  {
    var digit := Decimal(n)[|Decimal(n)| - 1];
    assert '0' <= digit <= '9' && digit as nat - '0' as nat == n % 10;
    if n < 10 {
      assert Decimal(n)[..0] == [];
    } else {
      DecimalReadsBack(n / 10);
      assert Decimal(n)[..|Decimal(n)| - 1] == Decimal(n / 10);
    }
  }

  function MergedContext(id: Id, createdAt: int, deltas: seq<Snapshot>): Context
    requires deltas != []
  {
    var last := deltas[|deltas| - 1];
    Context(id, last.step, createdAt, None, last.metadata["full_merge" := "true"]["merged_deltas" := Decimal(|deltas|)])
  }

  function MergedSnapshot(ctx: Context, algo: Algo, ranks: map<nat, RankEntry>): Snapshot {
    Snapshot(ctx.id, ctx.step, ctx.createdAt, ranks, None, ctx.metadata, algo, true, false)
  }

  /** A snapshot names no index, and no pack or ranks file but its own. */
  predicate NamesOnlyItsOwn(s: Snapshot) {
    forall p :: p in FilesOf(s) ==> !p.Index? && (p.Pack? || p.Ranks? ==> p.id == s.id)
  }

  /** Files outside the manifest's own: neither the index nor a ranks file. */
  predicate IsData(p: Path) {
    p.Pack? || p.Loose?
  }

  ghost predicate SameData(before: Files, after: Files) {
    forall p :: IsData(p) ==> SameAt(before, after, p)
  }

  lemma PersistTouchesNoData(env: Env, files: Files, page: nat, m: Manifest)
    ensures SameData(files, Persisted(env, files, page, m))
  {
    forall p | IsData(p)
      ensures SameAt(files, Persisted(env, files, page, m), p)
    {
      RanksPutElsewhere(env, files, page, m.snapshots, Unwritten(m), |m.snapshots|, p);
    }
  }

  lemma FailedPersistTouchesNoData(env: Env, files: Files, page: nat, m: Manifest, n: nat)
    requires n <= |m.snapshots|
    ensures SameData(files, RanksPut(env, files, page, m.snapshots, Unwritten(m), n))
  {
    forall p | IsData(p)
      ensures SameAt(files, RanksPut(env, files, page, m.snapshots, Unwritten(m), n), p)
    {
      RanksPutElsewhere(env, files, page, m.snapshots, Unwritten(m), n, p);
    }
  }

  /** Publishes a list; when the write fails the list in memory is the one on disk again. */
  method Publish(env: Env, disk: Disk, cell: ManifestCell, snapshots: seq<Snapshot>) returns (r: Result<()>)
    modifies disk, cell
    ensures cell.manifest.snapshots == if r.Ok? then snapshots else old(cell.manifest.snapshots)
    ensures SameData(old(disk.files), disk.files)
    ensures disk.NeverFails() ==> r.Ok?
    ensures r.Ok? ==>
              disk.files == Persisted(env, old(disk.files), disk.page, old(cell.manifest).(snapshots := snapshots))
  {
    var previous := cell.manifest.snapshots;
    cell.manifest := cell.manifest.(snapshots := snapshots);
    ghost var m := cell.manifest;
    r := Persist(env, disk, cell);
    if r.Err? {
      ghost var n :| 0 <= n <= |m.snapshots|
                     && disk.files == RanksPut(env, old(disk.files), disk.page, m.snapshots, Unwritten(m), n);
      FailedPersistTouchesNoData(env, old(disk.files), disk.page, m, n);
      cell.manifest := cell.manifest.(snapshots := previous);
      return;
    }
    PersistTouchesNoData(env, old(disk.files), disk.page, m);
  }

  lemma MergedOutlivesItsInputs(
      env: Env, before: Files, after: Files, id: Id, algo: Algo, merged: map<nat, RankEntry>, held: map<nat, Piece>)
    requires MergedSoFar(env, before, id, algo, merged, held)
    requires forall rank :: Path.Pack(id, rank) in before ==> SameAt(before, after, Path.Pack(id, rank))
    ensures MergedSoFar(env, after, id, algo, merged, held)
  {
    hide MergedHolds;
    forall rank | rank in merged
      ensures MergedHolds(env, after, id, algo, rank, merged[rank], held[rank].contents)
    {
      MergedPresent(env, before, id, algo, rank, merged[rank], held[rank].contents);
      assert SameAt(before, after, Path.Pack(id, rank));
      MergedStays(env, before, after, id, algo, rank, merged[rank], held[rank].contents);
    }
  }

  lemma OwnFilesOnly(doomed: seq<Snapshot>, id: Id)
    requires forall s :: s in doomed ==> NamesOnlyItsOwn(s) && s.id != id
    ensures forall rank :: !NamedBy(doomed, Path.Pack(id, rank))
    ensures !NamedBy(doomed, Index)
  {
  }

  /** The index on storage says exactly what `m` lists. */
  ghost predicate IndexedAs(env: Env, files: Files, page: nat, m: Manifest) {
    Index in files && files[Index] == Padded(env.indexJson(IndexOf(m, WrittenAfter(m))), page)
  }

  lemma PersistedIsIndexed(env: Env, files: Files, page: nat, m: Manifest)
    ensures IndexedAs(env, Persisted(env, files, page, m), page, m)
  {
    hide Padded, RanksPut, IndexOf;
  }

  /** Of the packs and loose files there were, none is changed or gone but what `doomed` names. */
  ghost predicate SameBut(before: Files, after: Files, doomed: seq<Snapshot>) {
    forall p :: IsData(p) && p in before && !NamedBy(doomed, p) ==> SameAt(before, after, p)
  }

  /** What a full merge of this list folds. */
  function Inputs(ss: seq<Snapshot>): seq<Snapshot> {
    var plan := PlanFull(ss);
    if plan.Fold? then plan.deltas + [plan.base] else []
  }

  lemma InputsOf(ss: seq<Snapshot>, files: Files)
    ensures PlanFull(ss).Fold? ==> Inputs(ss) == PlanFull(ss).deltas + [PlanFull(ss).base]
    ensures SameBut(files, files, [])
  {
    hide PlanFull, NamedBy;
  }

  /** From the claim to the last delete. */
  method FoldInto(
      env: Env, disk: Disk, cell: ManifestCell, base: Snapshot, deltas: seq<Snapshot>, algo: Algo, id: Id,
      createdAt: int,
      seen: nat -> map<Id, nat>, deadline: nat, ghost held: map<nat, Piece>)
    returns (r: Result<Outcome>, ghost ranks: map<nat, RankEntry>)
    requires Lawful(env) && Unused(disk.files, id) && deltas != []
    requires InputsHold(env, disk.files, base, deltas[|deltas| - 1], algo, held)
    requires forall s :: s in deltas + [base] ==> NamesOnlyItsOwn(s) && s.id != id
    modifies disk, cell
    ensures r.Err? ==> cell.manifest.snapshots == old(cell.manifest.snapshots)
    ensures r.Err? ==> SameBut(old(disk.files), disk.files, [])
    ensures disk.NeverFails() ==> r.Ok?
    ensures r.Ok? && disk.NeverFails() && ClearBy(seen, IdSeq(deltas + [base]), deadline) ==>
              forall s :: s in deltas + [base] ==> Freed(disk.files, s)
    ensures r.Ok? ==>
              && r.value == Merged
              && ranks.Keys == held.Keys
              && MergedSoFar(env, disk.files, id, algo, ranks, held)
              && cell.manifest.snapshots ==
                 Published(old(cell.manifest.snapshots), Spent(base, deltas),
                           MergedSnapshot(MergedContext(id, createdAt, deltas), algo, ranks))
    ensures r.Ok? ==> SameBut(old(disk.files), disk.files, deltas + [base])
    ensures r.Ok? ==> IndexedAs(env, disk.files, disk.page, old(cell.manifest).(snapshots := cell.manifest.snapshots))
  {
    hide InputsHold, MergedSoFar, NamesOnlyItsOwn, Published, FilesOf, Freed, Persisted, RanksPut, Unused;
    ranks := map[];
    ghost var start := disk.files;
    var ctx := MergedContext(id, createdAt, deltas);
    var written := WriteMergedRanks(env, disk, base, deltas[|deltas| - 1], ctx, algo, held);
    assert KeepsAll(start, disk.files);
    if written.Err? {
      return Err(written.error), ranks;
    }
    ranks := written.value;
    ghost var grown := disk.files;
    var put := Publish(env, disk, cell,
                       Published(cell.manifest.snapshots, Spent(base, deltas),
                                 MergedSnapshot(ctx, algo, written.value)));
    assert SameData(grown, disk.files);
    if put.Err? {
      return Err(put.error), ranks;
    }
    ghost var durable := disk.files;
    PersistedIsIndexed(env, grown, disk.page, old(cell.manifest).(snapshots := cell.manifest.snapshots));
    UnlinkSnapshots(disk, seen, deadline, deltas + [base]);
    OwnFilesOnly(deltas + [base], id);
    forall rank | Path.Pack(id, rank) in grown
      ensures SameAt(grown, disk.files, Path.Pack(id, rank))
    {
      assert IsData(Path.Pack(id, rank)) && SameAt(grown, durable, Path.Pack(id, rank));
    }
    MergedOutlivesItsInputs(env, grown, disk.files, id, algo, ranks, held);
    return Ok(Merged), ranks;
  }

  /** The full that stands for `newest` after `count` deltas were folded into it. */
  function FullFrom(
      newest: Snapshot, count: nat, id: Id, createdAt: int, algo: Algo, ranks: map<nat, RankEntry>): Snapshot {
    Snapshot(id, newest.step, createdAt, ranks, None,
             newest.metadata["full_merge" := "true"]["merged_deltas" := Decimal(count)], algo, true, false)
  }

  /** What a full merge of this list would read holds what `held` says: the newest full and the last delta on it. */
  ghost predicate ReadsHold(env: Env, files: Files, ss: seq<Snapshot>, algo: Algo, held: map<nat, Piece>) {
    forall base, newest ::
      PlanFull(ss).Fold? && LastFull(ss) == Some(base) && IsNewestDelta(ss, base.id, newest) ==>
        InputsHold(env, files, base, newest, algo, held)
  }

  /** A full that holds on every rank what the newest delta held stands in place of what the plan folds. */
  ghost predicate Folded(
      env: Env, files: Files, before: seq<Snapshot>, after: seq<Snapshot>, id: Id, createdAt: int, algo: Algo,
      held: map<nat, Piece>)
  {
    var plan := PlanFull(before);
    && plan.Fold?
    && exists newest: Snapshot, ranks: map<nat, RankEntry> ::
         && IsNewestDelta(before, plan.base.id, newest)
         && ranks.Keys == held.Keys
         && MergedSoFar(env, files, id, algo, ranks, held)
         && after == Published(before, Spent(plan.base, plan.deltas),
                               FullFrom(newest, |plan.deltas|, id, createdAt, algo, ranks))
  }

  ghost predicate AnyRead(pins: seq<seq<Id>>, ids: seq<Id>) {
    exists x :: x in ids && InFlight.Names(pins, x)
  }

  lemma AnyReadIs(pins: seq<seq<Id>>, ids: seq<Id>)
    ensures AnyRead(pins, ids) <==> exists x :: x in ids && InFlight.Names(pins, x)
  {
  }

  method ClaimAndFold(
      env: Env, disk: Disk, cell: ManifestCell, registry: Registry, base: Snapshot, deltas: seq<Snapshot>, algo: Algo,
      id: Id,
      createdAt: int, seen: nat -> map<Id, nat>, deadline: nat, ghost held: map<nat, Piece>)
    returns (r: Result<Outcome>, ghost ranks: map<nat, RankEntry>)
    requires Lawful(env) && registry.Valid() && Unused(disk.files, id) && deltas != []
    requires InputsHold(env, disk.files, base, deltas[|deltas| - 1], algo, held)
    requires forall s :: s in deltas + [base] ==> NamesOnlyItsOwn(s) && s.id != id
    modifies disk, cell, registry
    ensures registry.Valid() && registry.pins == old(registry.pins) && registry.claims == old(registry.claims)
    ensures r == Ok(Busy) <==> AnyRead(old(registry.pins), [base.id] + IdSeq(deltas))
    ensures r == Ok(Busy) || r == Ok(Merged) || r.Err?
    ensures disk.NeverFails() ==> r.Ok?
    ensures r == Ok(Merged) && disk.NeverFails() && ClearBy(seen, IdSeq(deltas + [base]), deadline) ==>
              forall s :: s in deltas + [base] ==> Freed(disk.files, s)
    ensures r != Ok(Merged) ==>
              cell.manifest.snapshots == old(cell.manifest.snapshots) && SameBut(old(disk.files), disk.files, [])
    ensures r == Ok(Merged) ==>
              && ranks.Keys == held.Keys
              && MergedSoFar(env, disk.files, id, algo, ranks, held)
              && cell.manifest.snapshots ==
                 Published(old(cell.manifest.snapshots), Spent(base, deltas),
                           MergedSnapshot(MergedContext(id, createdAt, deltas), algo, ranks))
              && SameBut(old(disk.files), disk.files, deltas + [base])
              && IndexedAs(env, disk.files, disk.page, old(cell.manifest).(snapshots := cell.manifest.snapshots))
  {
    hide *;
    ranks := map[];
    var claimed := [base.id] + IdSeq(deltas);
    AnyReadIs(registry.pins, claimed);
    SameButNothing(disk.files);
    var granted := registry.Claim(claimed);
    if !granted {
      return Ok(Busy), ranks;
    }
    r, ranks := FoldInto(env, disk, cell, base, deltas, algo, id, createdAt, seen, deadline, held);
    DroppedLast(old(registry.claims), claimed);
    registry.DropClaim(claimed, |registry.claims| - 1);
  }

  lemma SameButNothing(files: Files)
    ensures SameBut(files, files, [])
  {
  }

  /** What a full merge reports: busy, with something to fold, exactly when something of it is being read. */
  ghost predicate Answers(ss: seq<Snapshot>, pins: seq<seq<Id>>, r: Result<Outcome>) {
    match PlanFull(ss)
    case NoFull => r == Err(NotFound)
    case Nothing => r == Ok(NothingToMerge)
    case Wait => r == Ok(Busy)
    case Fold(base, deltas) => r != Ok(NothingToMerge) && (r == Ok(Busy) <==> AnyRead(pins, [base.id] + IdSeq(deltas)))
  }

  /**
   Claims, writes, publishes, then deletes. When it reports a merge, the new full holds on every
   rank what the newest delta held, and stands in the manifest in place of what it folded; when
   it reports anything else, the manifest lists what it did before.
   */
  method DoFullMerge(
      env: Env, disk: Disk, cell: ManifestCell, registry: Registry, algo: Algo, id: Id, createdAt: int,
      seen: nat -> map<Id, nat>, deadline: nat, ghost held: map<nat, Piece>)
    returns (r: Result<Outcome>)
    requires Lawful(env) && registry.Valid() && Unused(disk.files, id)
    requires forall s :: s in cell.manifest.snapshots ==> NamesOnlyItsOwn(s) && s.id != id
    requires ReadsHold(env, disk.files, cell.manifest.snapshots, algo, held)
    modifies disk, cell, registry
    ensures registry.Valid() && registry.pins == old(registry.pins) && registry.claims == old(registry.claims)
    ensures r != Ok(Merged) ==> cell.manifest.snapshots == old(cell.manifest.snapshots)
    ensures r == Ok(Merged) ==>
              && Folded(env, disk.files, old(cell.manifest.snapshots), cell.manifest.snapshots, id, createdAt, algo,
                        held)
              && IndexedAs(env, disk.files, disk.page, old(cell.manifest).(snapshots := cell.manifest.snapshots))
    ensures Answers(old(cell.manifest.snapshots), old(registry.pins), r)
    ensures disk.NeverFails() ==> r.Ok? || PlanFull(old(cell.manifest.snapshots)).NoFull?
    ensures r == Ok(Merged) && disk.NeverFails()
            && ClearBy(seen, IdSeq(Inputs(old(cell.manifest.snapshots))), deadline) ==>
              forall s :: s in Inputs(old(cell.manifest.snapshots)) ==> Freed(disk.files, s)
    ensures SameBut(old(disk.files), disk.files, if r == Ok(Merged) then Inputs(old(cell.manifest.snapshots)) else [])
  {
    hide *;
    var plan := PlanFull(cell.manifest.snapshots);
    ghost var ss, pins := cell.manifest.snapshots, registry.pins;
    AnswersOf(ss, pins);
    InputsOf(ss, disk.files);
    ReadsAre(env, disk.files, ss, algo, held);
    match plan {
      case NoFull => return Err(NotFound);
      case Nothing => return Ok(NothingToMerge);
      case Wait => return Ok(Busy);
      case Fold(base, deltas) =>
        ghost var ranks;
        r, ranks := ClaimAndFold(env, disk, cell, registry, base, deltas, algo, id, createdAt, seen, deadline, held);
        if r == Ok(Merged) {
          FoldedIs(env, disk.files, ss, cell.manifest.snapshots, id, createdAt, algo, held, ranks);
        }
    }
  }

  lemma ReadsAre(env: Env, files: Files, ss: seq<Snapshot>, algo: Algo, held: map<nat, Piece>)
    requires ReadsHold(env, files, ss, algo, held)
    ensures
      var plan := PlanFull(ss);
      plan.Fold? ==> InputsHold(env, files, plan.base, plan.deltas[|plan.deltas| - 1], algo, held)
  {
    if PlanFull(ss).Fold? {
      FoldsIntoNewest(ss);
    }
    hide PlanFull, LastFull, InputsHold, IsNewestDelta;
  }

  lemma AnswersOf(ss: seq<Snapshot>, pins: seq<seq<Id>>)
    ensures
      match PlanFull(ss)
      case NoFull => Answers(ss, pins, Err(NotFound))
      case Nothing => Answers(ss, pins, Ok(NothingToMerge))
      case Wait => Answers(ss, pins, Ok(Busy))
      case Fold(base, deltas) =>
        if AnyRead(pins, [base.id] + IdSeq(deltas)) then Answers(ss, pins, Ok(Busy))
        else forall r :: r != Ok(NothingToMerge) && r != Ok(Busy) ==> Answers(ss, pins, r)
  {
    hide PlanFull, AnyRead, IdSeq;
  }

  lemma FoldedIs(
      env: Env, files: Files, before: seq<Snapshot>, after: seq<Snapshot>, id: Id, createdAt: int, algo: Algo,
      held: map<nat, Piece>,
      ranks: map<nat, RankEntry>)
    requires PlanFull(before).Fold? && ranks.Keys == held.Keys && MergedSoFar(env, files, id, algo, ranks, held)
    requires
      var plan := PlanFull(before);
      after == Published(before, Spent(plan.base, plan.deltas),
                         MergedSnapshot(MergedContext(id, createdAt, plan.deltas), algo, ranks))
    ensures Folded(env, files, before, after, id, createdAt, algo, held)
  {
    hide *;
    var plan := PlanFull(before);
    FoldsIntoNewest(before);
    MergedIsFrom(plan.deltas, id, createdAt, algo, ranks);
    FoldedAs(env, files, before, after, id, createdAt, algo, held, ranks, plan.deltas[|plan.deltas| - 1]);
  }

  lemma MergedIsFrom(deltas: seq<Snapshot>, id: Id, createdAt: int, algo: Algo, ranks: map<nat, RankEntry>)
    requires deltas != []
    ensures MergedSnapshot(MergedContext(id, createdAt, deltas), algo, ranks)
            == FullFrom(deltas[|deltas| - 1], |deltas|, id, createdAt, algo, ranks)
  {
    hide Decimal;
  }

  lemma FoldedAs(
      env: Env, files: Files, before: seq<Snapshot>, after: seq<Snapshot>, id: Id, createdAt: int, algo: Algo,
      held: map<nat, Piece>, ranks: map<nat, RankEntry>, newest: Snapshot)
    requires PlanFull(before).Fold? && ranks.Keys == held.Keys && MergedSoFar(env, files, id, algo, ranks, held)
    requires IsNewestDelta(before, PlanFull(before).base.id, newest)
    requires
      var plan := PlanFull(before);
      after == Published(before, Spent(plan.base, plan.deltas),
                         FullFrom(newest, |plan.deltas|, id, createdAt, algo, ranks))
    ensures Folded(env, files, before, after, id, createdAt, algo, held)
  {
    hide PlanFull, MergedSoFar, Published, Spent, FullFrom, IsNewestDelta;
  }

  lemma {:induction false} FindIs(ss: seq<Snapshot>, s: Snapshot)
    requires Distinct(ss) && s in ss
    ensures Find(ss, s.id) == Some(s)
  {
    SameId(ss, s, Find(ss, s.id).value);
  }

  lemma StoredStays(
      env: Env, before: Files, after: Files, s: Snapshot, rank: nat, pack: Bytes, base: map<string, Bytes>,
      contents: Contents)
    requires Stored(env, before, s, rank, pack, base, contents)
    requires forall p :: p in PacksOf(s) ==> SameAt(before, after, p)
    ensures Stored(env, after, s, rank, pack, base, contents)
  {
    hide ShardHolds, Holds;
    assert s.ranks[rank].packFile.value in PacksOf(s);
  }

  /** A snapshot the merge does not fold loads afterwards what it loaded before, its base included. */
  lemma OthersLoadAsBefore(
      env: Env, before: Files, after: Files, ss: seq<Snapshot>, spent: set<Id>, merged: Snapshot,
      s: Snapshot, rank: nat, pack: Bytes, contents: Contents, basePack: Bytes, baseContents: Contents)
    requires Sound(ss) && merged.base.None? && merged.id !in Ids(ss) && s in ss && s.id !in spent
    requires forall d :: d in ss && d.base.Some? && d.base.value in spent ==> d.id in spent
    requires forall d, p :: d in ss && d.id !in spent && p in PacksOf(d) ==> SameAt(before, after, p)
    requires Resident(env, before, ss, s, rank, pack, contents, basePack, baseContents)
    ensures Resident(env, after, Published(ss, spent, merged), s, rank, pack, contents, basePack, baseContents)
    ensures Load.Load(env, after, Published(ss, spent, merged), s.id, rank) == Load.Load(env, before, ss, s.id, rank)
  {
    var now := Published(ss, spent, merged);
    PublishKeepsSound(ss, spent, merged);
    FindIs(ss, s);
    FindIs(now, s);
    hide Published, Stored;
    if s.base.Some? {
      var b := Find(ss, s.base.value).value;
      assert b.id !in spent;
      FindIs(now, b);
      StoredStays(env, before, after, b, rank, basePack, map[], baseContents);
      StoredStays(env, before, after, s, rank, pack, Raws(baseContents), contents);
    } else {
      StoredStays(env, before, after, s, rank, pack, map[], contents);
    }
    LoadIsOver(env, before, ss, s, rank, pack, contents, basePack, baseContents);
    LoadIsOver(env, after, now, s, rank, pack, contents, basePack, baseContents);
  }

  // ── The stride merge ─────────────────────────────────────────────

  datatype MergerConfig = MergerConfig(stride: nat, maxChainDepth: nat)

  /** What a stride merge would drop, if it has anything to drop. */
  function StrideDrops(ss: seq<Snapshot>, cfg: MergerConfig): set<Id> {
    if PendingDeltas(ss) >= cfg.maxChainDepth || cfg.stride == 0 || PendingDeltas(ss) < cfg.stride
      || Superseded(ss).None? then {}
    else Superseded(ss).value.1
  }

  /** Only deltas go, so nothing left needs what went; the newest finalized snapshot never does. */
  lemma StrideKeepsSound(ss: seq<Snapshot>, cfg: MergerConfig)
    requires Sound(ss)
    ensures Sound(Without(ss, StrideDrops(ss, cfg)))
    ensures forall s :: s in ss && s.base.None? ==> s in Without(ss, StrideDrops(ss, cfg))
    ensures forall s :: s in ss && (!s.finalized || Newest(ss) == Some(s)) ==> s in Without(ss, StrideDrops(ss, cfg))
  {
    var ids := StrideDrops(ss, cfg);
    forall s | s in ss && s.id in ids
      ensures s.base.Some? && s.finalized && Newest(ss) != Some(s)
    {
      var (survivor, _) := Superseded(ss).value;
      var t :| t in ss && t.id == s.id && t.finalized && t.base == survivor.base;
      SameId(ss, s, t);
      NewestOfTail(ss);
    }
    forall s | s in ss && s.base.Some?
      ensures s.base.value !in ids
    {
      var b :| b in ss && b.id == s.base.value;
      assert b.base.None?;
    }
    DropKeepsSound(ss, ids);
  }

  lemma NewestOfTail(ss: seq<Snapshot>)
    ensures
      var newest := Newest(ss[|ss| - PendingDeltas(ss)..]);
      newest.Some? ==> newest == Newest(ss)
  {
    TailNewest(ss, |ss| - PendingDeltas(ss));
  }

  lemma {:induction false} TailNewest(ss: seq<Snapshot>, k: nat)
    requires k <= |ss|
    ensures Newest(ss[k..]).Some? ==> Newest(ss[k..]) == Newest(ss)
  {
    if k < |ss| && !ss[|ss| - 1].finalized {
      assert ss[k..][..|ss| - k - 1] == ss[..|ss| - 1][k..];
      TailNewest(ss[..|ss| - 1], k);
    }
  }

  /** Below the depth limit only superseded deltas go, all of them or none, and always when nobody reads one. */
  ghost predicate Superseding(
      before: Files, after: Files, ss: seq<Snapshot>, now: seq<Snapshot>, cfg: MergerConfig, pins: seq<seq<Id>>,
      r: Result<()>)
  {
    var drops := StrideDrops(ss, cfg);
    && (now == ss || now == Without(ss, drops))
    && (r.Err? ==> now == ss)
    && (r.Ok? && (forall id :: id in drops ==> !InFlight.Names(pins, id)) ==> now == Without(ss, drops))
    && (forall p :: IsData(p) && !NamedBy(Only(ss, drops), p) ==> SameAt(before, after, p))
    && (now == ss ==> SameData(before, after))
  }

  /** At the depth limit the run is folded into a full, or nothing is changed because something is in the way. */
  ghost predicate AtTheLimit(
      env: Env, files: Files, ss: seq<Snapshot>, now: seq<Snapshot>, id: Id, createdAt: int, algo: Algo,
      held: map<nat, Piece>,
      pins: seq<seq<Id>>, r: Result<()>)
  {
    var plan := PlanFull(ss);
    && (now == ss || Folded(env, files, ss, now, id, createdAt, algo, held))
    && (r.Err? ==> now == ss)
    && (plan.NoFull? ==> r == Err(NotFound))
    && (r.Ok? && plan.Fold? && !AnyRead(pins, [plan.base.id] + IdSeq(plan.deltas)) ==>
          Folded(env, files, ss, now, id, createdAt, algo, held))
  }

  lemma AnswersAtTheLimit(
      env: Env, files: Files, ss: seq<Snapshot>, now: seq<Snapshot>, id: Id, createdAt: int, algo: Algo,
      held: map<nat, Piece>,
      pins: seq<seq<Id>>, r: Result<Outcome>)
    requires Answers(ss, pins, r) && (r != Ok(Merged) ==> now == ss)
    requires r == Ok(Merged) ==> Folded(env, files, ss, now, id, createdAt, algo, held)
    ensures AtTheLimit(env, files, ss, now, id, createdAt, algo, held, pins, if r.Ok? then Ok(()) else Err(r.error))
  {
    hide PlanFull, AnyRead, Folded, IdSeq;
    assert r.Ok? ==> r == Ok(r.value) && (r.value.Merged? || r.value.NothingToMerge? || r.value.Busy?);
  }

  /** Drops the superseded deltas: published first, their files deleted after. */
  method FoldSuperseded(
      env: Env, disk: Disk, cell: ManifestCell, registry: Registry, cfg: MergerConfig, seen: nat -> map<Id, nat>,
      deadline: nat)
    returns (r: Result<()>)
    requires registry.Valid() && PendingDeltas(cell.manifest.snapshots) < cfg.maxChainDepth
    modifies disk, cell, registry
    ensures registry.Valid() && registry.pins == old(registry.pins) && registry.claims == old(registry.claims)
    ensures
      var ss := old(cell.manifest.snapshots);
      && Superseding(old(disk.files), disk.files, ss, cell.manifest.snapshots, cfg, old(registry.pins), r)
      && (cell.manifest.snapshots != ss && !NamedBy(Only(ss, StrideDrops(ss, cfg)), Index) ==>
            IndexedAs(env, disk.files, disk.page, old(cell.manifest).(snapshots := cell.manifest.snapshots)))
    ensures disk.NeverFails() ==> r.Ok?
    ensures
      var doomed := Only(old(cell.manifest.snapshots), StrideDrops(old(cell.manifest.snapshots), cfg));
      disk.NeverFails() && cell.manifest.snapshots != old(cell.manifest.snapshots)
      && ClearBy(seen, IdSeq(doomed), deadline) ==>
        forall s :: s in doomed ==> Freed(disk.files, s)
  {
    hide *;
    var ss := cell.manifest.snapshots;
    StrideDropsAre(ss, cfg);
    NothingSuperseded(disk.files, ss, cfg, registry.pins);
    if cfg.stride == 0 || PendingDeltas(ss) < cfg.stride {
      return Ok(());
    }
    var superseded := Superseded(ss);
    if superseded.None? || superseded.value.1 == {} {
      return Ok(());
    }
    var drops := superseded.value.1;
    var doomed := Only(ss, drops);
    var claimed := IdSeq(doomed);
    ClaimedAreDropped(ss, drops);
    ghost var files, pins := disk.files, registry.pins;
    var granted := registry.Claim(claimed);
    if !granted {
      return Ok(());
    }
    r := PublishAndUnlink(env, disk, cell, Without(ss, drops), doomed, seen, deadline);
    SupersededGone(files, disk.files, ss, cell.manifest.snapshots, cfg, pins, r);
    DroppedLast(old(registry.claims), claimed);
    registry.DropClaim(claimed, |registry.claims| - 1);
  }

  lemma StrideDropsAre(ss: seq<Snapshot>, cfg: MergerConfig)
    requires PendingDeltas(ss) < cfg.maxChainDepth
    ensures cfg.stride == 0 || PendingDeltas(ss) < cfg.stride || Superseded(ss).None? ==> StrideDrops(ss, cfg) == {}
    ensures !(cfg.stride == 0 || PendingDeltas(ss) < cfg.stride || Superseded(ss).None?) ==>
              StrideDrops(ss, cfg) == Superseded(ss).value.1
    ensures StrideDrops(ss, cfg) <= Ids(ss)
  {
    hide PendingDeltas, Superseded;
  }

  /** With nothing superseded, or something of it being read, leaving everything as it is will do. */
  lemma NothingSuperseded(files: Files, ss: seq<Snapshot>, cfg: MergerConfig, pins: seq<seq<Id>>)
    ensures StrideDrops(ss, cfg) == {} || (exists id :: id in StrideDrops(ss, cfg) && InFlight.Names(pins, id)) ==>
              Superseding(files, files, ss, ss, cfg, pins, Ok(()))
  {
    WithoutNothing(ss);
    hide StrideDrops, Without, NamedBy, Only, InFlight.Names;
  }

  lemma SupersededGone(
      before: Files, after: Files, ss: seq<Snapshot>, now: seq<Snapshot>, cfg: MergerConfig, pins: seq<seq<Id>>,
      r: Result<()>)
    requires StrideDrops(ss, cfg) != {} && StrideDrops(ss, cfg) <= Ids(ss)
    requires now == if r.Ok? then Without(ss, StrideDrops(ss, cfg)) else ss
    requires forall p :: IsData(p) && !NamedBy(Only(ss, StrideDrops(ss, cfg)), p) ==> SameAt(before, after, p)
    requires r.Err? ==> SameData(before, after)
    ensures Superseding(before, after, ss, now, cfg, pins, r)
  {
    var drops := StrideDrops(ss, cfg);
    SomethingDropped(ss, drops);
    hide StrideDrops, NamedBy, Only, InFlight.Names;
  }

  /** At the depth limit a full merge, whatever the stride; below it, the superseded deltas go. */
  method DoStrideMerge(
      env: Env, disk: Disk, cell: ManifestCell, registry: Registry, cfg: MergerConfig, algo: Algo, id: Id,
      createdAt: int,
      seen: nat -> map<Id, nat>, deadline: nat, ghost held: map<nat, Piece>)
    returns (r: Result<()>)
    requires Lawful(env) && registry.Valid() && Unused(disk.files, id)
    requires forall s :: s in cell.manifest.snapshots ==> NamesOnlyItsOwn(s) && s.id != id
    requires ReadsHold(env, disk.files, cell.manifest.snapshots, algo, held)
    modifies disk, cell, registry
    ensures registry.Valid() && registry.pins == old(registry.pins) && registry.claims == old(registry.claims)
    ensures
      var ss, now := old(cell.manifest.snapshots), cell.manifest.snapshots;
      if PendingDeltas(ss) >= cfg.maxChainDepth
      then AtTheLimit(env, disk.files, ss, now, id, createdAt, algo, held, old(registry.pins), r)
      else Superseding(old(disk.files), disk.files, ss, now, cfg, old(registry.pins), r)
    ensures cell.manifest.snapshots != old(cell.manifest.snapshots) ==>
              IndexedAs(env, disk.files, disk.page, old(cell.manifest).(snapshots := cell.manifest.snapshots))
    ensures disk.NeverFails() ==> r.Ok? || PlanFull(old(cell.manifest.snapshots)).NoFull?
    ensures
      var ss := old(cell.manifest.snapshots);
      var doomed := if PendingDeltas(ss) >= cfg.maxChainDepth then Inputs(ss) else Only(ss, StrideDrops(ss, cfg));
      disk.NeverFails() && cell.manifest.snapshots != ss && ClearBy(seen, IdSeq(doomed), deadline) ==>
        forall s :: s in doomed ==> Freed(disk.files, s)
  {
    hide *;
    ghost var ss, pins := cell.manifest.snapshots, registry.pins;
    OwnFilesNoIndex(ss, StrideDrops(ss, cfg));
    if PendingDeltas(cell.manifest.snapshots) >= cfg.maxChainDepth {
      var merged := DoFullMerge(env, disk, cell, registry, algo, id, createdAt, seen, deadline, held);
      AnswersAtTheLimit(env, disk.files, ss, cell.manifest.snapshots, id, createdAt, algo, held, pins, merged);
      return if merged.Ok? then Ok(()) else Err(merged.error);
    }
    r := FoldSuperseded(env, disk, cell, registry, cfg, seen, deadline);
  }

  lemma OwnFilesNoIndex(ss: seq<Snapshot>, drops: set<Id>)
    requires forall s :: s in ss ==> NamesOnlyItsOwn(s)
    ensures !NamedBy(Only(ss, drops), Index)
  {
    hide FilesOf;
  }

  lemma DroppedLast(claims: seq<seq<Id>>, ids: seq<Id>)
    ensures Dropped(claims + [ids], |claims|) == claims
  {
  }

  method PublishAndUnlink(
      env: Env, disk: Disk, cell: ManifestCell, snapshots: seq<Snapshot>, doomed: seq<Snapshot>,
      seen: nat -> map<Id, nat>, deadline: nat)
    returns (r: Result<()>)
    modifies disk, cell
    ensures cell.manifest.snapshots == if r.Ok? then snapshots else old(cell.manifest.snapshots)
    ensures forall p :: IsData(p) && !NamedBy(doomed, p) ==> SameAt(old(disk.files), disk.files, p)
    ensures r.Err? ==> SameData(old(disk.files), disk.files)
    ensures disk.NeverFails() ==> r.Ok?
    ensures disk.NeverFails() && ClearBy(seen, IdSeq(doomed), deadline) ==>
              forall s :: s in doomed ==> Freed(disk.files, s)
    ensures r.Ok? && !NamedBy(doomed, Index) ==>
              IndexedAs(env, disk.files, disk.page, old(cell.manifest).(snapshots := cell.manifest.snapshots))
  {
    hide Persisted, NamedBy, Freed;
    r := Publish(env, disk, cell, snapshots);
    if r.Ok? {
      PersistedIsIndexed(env, old(disk.files), disk.page, old(cell.manifest).(snapshots := cell.manifest.snapshots));
      ghost var durable := disk.files;
      assert SameData(old(disk.files), durable);
      UnlinkSnapshots(disk, seen, deadline, doomed);
    }
  }

  lemma {:induction false} WithoutNothing(ss: seq<Snapshot>)
    ensures Without(ss, {}) == ss
  {
    if ss != [] {
      WithoutNothing(ss[1..]);
    }
  }

  lemma ClaimedAreDropped(ss: seq<Snapshot>, drops: set<Id>)
    ensures forall id :: id in IdSeq(Only(ss, drops)) ==> id in drops
    ensures drops <= Ids(ss) ==> forall id :: id in drops ==> id in IdSeq(Only(ss, drops))
  {
    var doomed := Only(ss, drops);
    forall i | 0 <= i < |doomed|
      ensures IdSeq(doomed)[i] in drops
    {
      assert doomed[i] in doomed;
    }
  }

  lemma SomethingDropped(ss: seq<Snapshot>, drops: set<Id>)
    requires drops != {} && drops <= Ids(ss)
    ensures Without(ss, drops) != ss
  {
  }
}
