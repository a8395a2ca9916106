/** Putting a store back together at open time: orphaned snapshots are readmitted or reclaimed. */
module Recovery {
  import opened Bytes
  import opened Manifest
  import opened Env
  import opened ManifestIO
  import opened Order
  import PackFile = Pack

  // ── Reading an orphan's own description ──────────────────────────

  /** What a pack says about itself, when it says it belongs to `id`. */
  function Described(env: Env, files: Files, path: Path, id: Id): (d: Option<Descriptor>)
    ensures d.Some? ==> d.value.snapshotId == id
  {
    if path !in files then None
    else
      match PackFile.DecodeHeader(Slice(files[path], 0, PackFile.HEADER_LEN))
      case None => None
      case Some((offset, length)) =>
        var encoded := Slice(files[path], offset, length);
        if |encoded| != length then None
        else
          match env.readDescriptor(encoded)
          case None => None
          case Some(d) => if d.snapshotId == id then Some(d) else None
  }

  function Descriptors(env: Env, files: Files, id: Id, packs: seq<Path>): (ds: Option<seq<Descriptor>>)
    ensures ds.Some? ==> |ds.value| == |packs|
    ensures ds.Some? ==> forall k :: 0 <= k < |packs| ==> Described(env, files, packs[k], id) == Some(ds.value[k])
  {
    if packs == [] then Some([])
    else
      match Descriptors(env, files, id, packs[..|packs| - 1])
      case None => None
      case Some(ds) =>
        match Described(env, files, packs[|packs| - 1], id)
        case None => None
        case Some(d) => Some(ds + [d])
  }

  function RanksOf(ds: seq<Descriptor>): map<nat, RankEntry> {
    if ds == [] then map[]
    else
      var d := ds[|ds| - 1];
      RanksOf(ds[..|ds| - 1])[d.rank.rank := d.rank]
  }

  /** A snapshot from its packs alone: every rank has to be there, and every pack readable. */
  function Rebuild(env: Env, files: Files, id: Id, packs: seq<Path>): (s: Option<Snapshot>)
    ensures s.Some? ==> s.value.id == id && s.value.finalized && !s.value.pinned
  {
    match Descriptors(env, files, id, packs)
    case None => None
    case Some(ds) =>
      if ds == [] then None
      else
        var first, ranks := ds[0], RanksOf(ds);
        if |ranks| != first.worldSize then None
        else Some(Snapshot(first.snapshotId, first.step, first.createdAt, ranks, first.base, first.metadata,
                           first.compression, true, false))
  }

  method RebuildFromPacks(env: Env, files: Files, id: Id, packs: seq<Path>) returns (s: Option<Snapshot>)
    ensures s == Rebuild(env, files, id, packs)
  {
    var ds: seq<Descriptor> := [];
    hide Described;
    for i := 0 to |packs|
      invariant Descriptors(env, files, id, packs[..i]) == Some(ds)
    {
      assert packs[..i + 1][..i] == packs[..i];
      var d := Described(env, files, packs[i], id);
      if d.None? {
        DescriptorsFail(env, files, id, packs, i, |packs|);
        assert packs[..|packs|] == packs;
        return None;
      }
      ds := ds + [d.value];
    }
    assert packs[..|packs|] == packs;
    if ds == [] {
      return None;
    }
    var ranks: map<nat, RankEntry> := map[];
    for i := 0 to |ds|
      invariant ranks == RanksOf(ds[..i])
    {
      assert ds[..i + 1][..i] == ds[..i];
      ranks := ranks[ds[i].rank.rank := ds[i].rank];
    }
    assert ds[..|ds|] == ds;
    if |ranks| != ds[0].worldSize {
      return None;
    }
    return Some(Snapshot(ds[0].snapshotId, ds[0].step, ds[0].createdAt, ranks, ds[0].base, ds[0].metadata,
                         ds[0].compression, true, false));
  }

  lemma {:induction false} DescriptorsFail(env: Env, files: Files, id: Id, packs: seq<Path>, i: nat, n: nat)
    requires i < n <= |packs| && Described(env, files, packs[i], id).None?
    ensures Descriptors(env, files, id, packs[..n]).None?
    decreases n
  {
    hide Described;
    assert packs[..n][..n - 1] == packs[..n - 1] && packs[..n][n - 1] == packs[n - 1];
    if i + 1 < n {
      DescriptorsFail(env, files, id, packs, i, n - 1);
    }
  }

  lemma {:induction false} DescriptorsAre(env: Env, files: Files, id: Id, packs: seq<Path>)
    ensures Descriptors(env, files, id, packs).Some? <==> forall k ::
              0 <= k < |packs| ==> Described(env, files, packs[k], id).Some?
  {
    hide Described;
    if packs != [] {
      var init, last := packs[..|packs| - 1], packs[|packs| - 1];
      DescriptorsAre(env, files, id, init);
      assert forall k :: 0 <= k < |init| ==> packs[k] == init[k];
    }
  }

  /** Which ranks a directory's packs describe. */
  function RanksFound(env: Env, files: Files, id: Id, packs: seq<Path>): set<nat> {
    set p | p in packs && Described(env, files, p, id).Some? :: Described(env, files, p, id).value.rank.rank
  }

  lemma {:induction false} RanksAreFound(env: Env, files: Files, id: Id, packs: seq<Path>, ds: seq<Descriptor>)
    requires Descriptors(env, files, id, packs) == Some(ds)
    ensures RanksOf(ds).Keys == RanksFound(env, files, id, packs)
    ensures forall rank :: rank in RanksOf(ds) ==> exists d ::
              d in ds && d.rank == RanksOf(ds)[rank] && d.rank.rank == rank
  {
    hide Described;
    if ds != [] {
      var init, last := packs[..|packs| - 1], packs[|packs| - 1];
      var before, d := ds[..|ds| - 1], ds[|ds| - 1];
      assert packs == init + [last] && ds == before + [d];
      RanksAreFound(env, files, id, init, before);
      assert RanksFound(env, files, id, packs) == RanksFound(env, files, id, init) + {d.rank.rank};
      forall rank | rank in RanksOf(ds)
        ensures exists x :: x in ds && x.rank == RanksOf(ds)[rank] && x.rank.rank == rank
      {
        if rank != d.rank.rank {
          var x :| x in before && x.rank == RanksOf(before)[rank] && x.rank.rank == rank;
          assert x in ds;
        }
      }
    }
  }

  /**
   A snapshot is rebuilt exactly when there is a pack, every pack describes itself, and the packs are
   of as many ranks as the first says there are: half a checkpoint is none.
   */
  lemma RebuiltExactly(env: Env, files: Files, id: Id, packs: seq<Path>)
    ensures Rebuild(env, files, id, packs).Some? <==>
              && packs != []
              && (forall k :: 0 <= k < |packs| ==> Described(env, files, packs[k], id).Some?)
              && |RanksFound(env, files, id, packs)| == Described(env, files, packs[0], id).value.worldSize
    ensures Rebuild(env, files, id, packs).Some? ==>
              var s := Rebuild(env, files, id, packs).value;
              && s.ranks.Keys == RanksFound(env, files, id, packs)
              && forall rank :: rank in s.ranks ==>
                   exists p :: p in packs && Described(env, files, p, id).Some?
                     && Described(env, files, p, id).value.rank == s.ranks[rank] && s.ranks[rank].rank == rank
  {
    hide Described, RanksOf, RanksFound, Descriptors;
    DescriptorsAre(env, files, id, packs);
    if Descriptors(env, files, id, packs).Some? {
      var ds := Descriptors(env, files, id, packs).value;
      RanksAreFound(env, files, id, packs, ds);
      assert |RanksOf(ds)| == |RanksOf(ds).Keys|;
      forall rank | rank in RanksOf(ds)
        ensures exists p :: p in packs && Described(env, files, p, id).Some?
                  && Described(env, files, p, id).value.rank == RanksOf(ds)[rank] && RanksOf(ds)[rank].rank == rank
      {
        var d :| d in ds && d.rank == RanksOf(ds)[rank] && d.rank.rank == rank;
        var k :| 0 <= k < |ds| && ds[k] == d;
        assert packs[k] in packs;
      }
    }
  }

  // ── Judging its bytes ────────────────────────────────────────────

  function StoredBytes(files: Files, re: RankEntry, e: TensorEntry): Result<Bytes> {
    if re.packFile.Some? then GetRange(files, re.packFile.value, e.offset, e.compressedSize)
    else if e.filename.Some? then Get(files, e.filename.value)
    else Err(NotFound)
  }

  /** A tensor that stores bytes has exactly those bytes there. */
  predicate TensorIntact(env: Env, files: Files, re: RankEntry, e: TensorEntry) {
    e.hashCompressed.Some? ==>
      var read := StoredBytes(files, re, e);
      read.Ok? && |read.value| == e.compressedSize && env.hash(read.value) == e.hashCompressed.value
  }

  predicate Intact(env: Env, files: Files, s: Snapshot) {
    forall rank :: rank in s.ranks ==> forall e ::
      e in s.ranks[rank].tensors ==> TensorIntact(env, files, s.ranks[rank], e)
  }

  method DataIsIntact(env: Env, files: Files, s: Snapshot) returns (intact: bool)
    ensures intact == Intact(env, files, s)
  {
    var todo := s.ranks.Keys;
    hide TensorIntact;
    while todo != {}
      invariant todo <= s.ranks.Keys
      invariant forall rank :: rank in s.ranks && rank !in todo ==>
                  forall e :: e in s.ranks[rank].tensors ==> TensorIntact(env, files, s.ranks[rank], e)
      decreases |todo|
    {
      var rank :| rank in todo;
      var es := s.ranks[rank].tensors;
      for i := 0 to |es|
        invariant forall j :: 0 <= j < i ==> TensorIntact(env, files, s.ranks[rank], es[j])
      {
        if !TensorIntact(env, files, s.ranks[rank], es[i]) {
          return false;
        }
      }
      todo := todo - {rank};
    }
    return true;
  }

  /** The blob an entry stores is in its file where the pack `was` has it, byte for byte. */
  ghost predicate SameBlob(files: Files, re: RankEntry, e: TensorEntry, was: Bytes) {
    && re.packFile.Some? && re.packFile.value in files
    && e.offset + e.compressedSize <= |was|
    && Slice(files[re.packFile.value], e.offset, e.compressedSize) == was[e.offset..e.offset + e.compressedSize]
  }

  /** An entry records the hash of the blob the pack `was` has where the entry says, when it stores one. */
  ghost predicate Records(env: Env, e: TensorEntry, was: Bytes) {
    e.hashCompressed.Some? ==>
      && e.offset + e.compressedSize <= |was|
      && e.hashCompressed.value == env.hash(was[e.offset..e.offset + e.compressedSize])
  }

  lemma TensorIntactExactly(env: Env, files: Files, re: RankEntry, e: TensorEntry, was: Bytes)
    requires Injective(env.hash) && re.packFile.Some? && Records(env, e, was)
    ensures TensorIntact(env, files, re, e) <==> (e.hashCompressed.Some? ==> SameBlob(files, re, e, was))
  {
  }

  /** So a snapshot is intact exactly when every blob its packs were written with is still there, unchanged. */
  lemma IntactExactly(env: Env, files: Files, s: Snapshot, packs: map<nat, Bytes>)
    requires Injective(env.hash) && s.ranks.Keys <= packs.Keys
    requires forall rank, e :: rank in s.ranks && e in s.ranks[rank].tensors ==>
               s.ranks[rank].packFile.Some? && Records(env, e, packs[rank])
    ensures Intact(env, files, s) <==>
            forall rank, e :: rank in s.ranks && e in s.ranks[rank].tensors && e.hashCompressed.Some? ==>
              SameBlob(files, s.ranks[rank], e, packs[rank])
  {
    hide TensorIntact, SameBlob;
    forall rank, e | rank in s.ranks && e in s.ranks[rank].tensors
      ensures TensorIntact(env, files, s.ranks[rank], e) <==>
              (e.hashCompressed.Some? ==> SameBlob(files, s.ranks[rank], e, packs[rank]))
    {
      TensorIntactExactly(env, files, s.ranks[rank], e, packs[rank]);
    }
  }

  // ── Who is readmitted ────────────────────────────────────────────

  /** Every directory on storage that nothing known has. */
  function OrphanIds(files: Files, known: set<Id>): (ids: set<Id>)
    ensures forall id :: id in ids <==> id !in known && exists p :: p in files && DirOf(p) == Some(id)
  {
    set p | p in files && DirOf(p).Some? && DirOf(p).value !in known :: DirOf(p).value
  }

  function FilesUnder(files: Files, id: Id): set<Path> {
    set p | p in files && DirOf(p) == Some(id)
  }

  predicate Present(ss: seq<Snapshot>, s: Snapshot) {
    s.base.None? || s.base.value in Ids(ss)
  }

  /** Takes candidates in order; one whose base is not there yet is passed over for good. */
  function Admitted(ss: seq<Snapshot>, candidates: seq<Snapshot>): (r: seq<Snapshot>)
    ensures ss <= r
  {
    if candidates == [] then ss
    else
      var before := Admitted(ss, candidates[..|candidates| - 1]);
      var c := candidates[|candidates| - 1];
      if Present(before, c) then before + [c] else before
  }

  lemma {:induction false} AdmittedMembers(ss: seq<Snapshot>, candidates: seq<Snapshot>)
    ensures forall s :: s in Admitted(ss, candidates) ==> s in ss || s in candidates
  {
    if candidates != [] {
      var init, c := candidates[..|candidates| - 1], candidates[|candidates| - 1];
      assert candidates == init + [c];
      AdmittedMembers(ss, init);
    }
  }

  lemma IdsSnoc(ss: seq<Snapshot>, s: Snapshot)
    ensures Ids(ss + [s]) == Ids(ss) + {s.id}
  {
    assert forall x :: x in ss + [s] <==> x in ss || x == s;
  }

  /** No delta is readmitted without its base. */
  lemma {:induction false} AdmittedIsClosed(ss: seq<Snapshot>, candidates: seq<Snapshot>)
    requires Closed(ss)
    ensures Closed(Admitted(ss, candidates))
  {
    if candidates != [] {
      var before, c := Admitted(ss, candidates[..|candidates| - 1]), candidates[|candidates| - 1];
      AdmittedIsClosed(ss, candidates[..|candidates| - 1]);
      IdsSnoc(before, c);
      assert forall x :: x in before + [c] <==> x in before || x == c;
    }
  }

  lemma {:induction false} AdmittedGrows(ss: seq<Snapshot>, candidates: seq<Snapshot>, n: nat)
    requires n <= |candidates|
    ensures Admitted(ss, candidates[..n]) <= Admitted(ss, candidates)
    decreases |candidates|
  {
    if n < |candidates| {
      assert candidates[..|candidates| - 1][..n] == candidates[..n];
      AdmittedGrows(ss, candidates[..|candidates| - 1], n);
    } else {
      assert candidates[..n] == candidates;
    }
  }

  /** Candidate `k` is readmitted exactly when its base is known, or was readmitted before its turn. */
  lemma {:induction false} AdmittedIff(ss: seq<Snapshot>, candidates: seq<Snapshot>, k: nat)
    requires Distinct(candidates) && k < |candidates|
    requires forall i :: 0 <= i < |candidates| ==> candidates[i].id !in Ids(ss)
    ensures candidates[k] in Admitted(ss, candidates) <==> Present(Admitted(ss, candidates[..k]), candidates[k])
    decreases |candidates|
  {
    var init, c := candidates[..|candidates| - 1], candidates[|candidates| - 1];
    var before := Admitted(ss, init);
    AdmittedMembers(ss, init);
    if k == |candidates| - 1 {
      assert forall j :: 0 <= j < |init| ==> init[j].id != candidates[k].id;
      assert forall s :: s in ss ==> s.id in Ids(ss);
    } else {
      AdmittedIff(ss, init, k);
      assert init[..k] == candidates[..k] && init[k] == candidates[k];
      assert candidates[k] != c;
    }
  }

  /** No candidate is a delta against another delta. */
  predicate AgainstFulls(candidates: seq<Snapshot>) {
    forall s, b :: s in candidates && b in candidates && s.base == Some(b.id) ==> b.base.None?
  }

  /** So it is readmitted exactly when it is a full, or its base is known, or its base is a candidate before it. */
  lemma AdmittedExactly(ss: seq<Snapshot>, candidates: seq<Snapshot>, k: nat)
    requires Distinct(candidates) && AgainstFulls(candidates) && k < |candidates|
    requires forall i :: 0 <= i < |candidates| ==> candidates[i].id !in Ids(ss)
    ensures candidates[k] in Admitted(ss, candidates) <==>
            candidates[k].base.None? || candidates[k].base.value in Ids(ss)
            || exists j :: 0 <= j < k && candidates[k].base == Some(candidates[j].id)
  {
    var s, before := candidates[k], Admitted(ss, candidates[..k]);
    AdmittedIff(ss, candidates, k);
    AdmittedMembers(ss, candidates[..k]);
    assert Ids(ss) <= Ids(before) by {
      assert forall x :: x in ss ==> x in before;
    }
    if s.base.Some? {
      if j :| 0 <= j < k && s.base == Some(candidates[j].id) {
        assert candidates[..k][j] == candidates[j] && candidates[j].base.None?;
        AdmittedIff(ss, candidates[..k], j);
        assert candidates[j] in before;
      }
      if x :| x in before && x.id == s.base.value && x !in ss {
        var j :| 0 <= j < k && candidates[..k][j] == x;
        assert s.base == Some(candidates[j].id);
      }
    }
  }

  // ── The whole recovery ───────────────────────────────────────────

  /** The orphans that describe themselves and whose bytes pass their own hashes, in the order met. */
  function Candidates(env: Env, files: Files, order: seq<Id>, packsOf: Id -> seq<Path>): (r: seq<Snapshot>)
    ensures forall s :: s in r <==> exists k :: 0 <= k < |order| && IntactOrphan(env, files, order[k], packsOf, s)
  {
    if order == [] then []
    else
      var init, id := order[..|order| - 1], order[|order| - 1];
      var before := Candidates(env, files, init, packsOf);
      var s := Rebuild(env, files, id, packsOf(id));
      CandidatesStep(env, files, order, init, packsOf, before);
      if s.Some? && Intact(env, files, s.value) then before + [s.value] else before
  }

  predicate IntactOrphan(env: Env, files: Files, id: Id, packsOf: Id -> seq<Path>, s: Snapshot) {
    Rebuild(env, files, id, packsOf(id)) == Some(s) && Intact(env, files, s)
  }

  lemma CandidatesStep(
      env: Env, files: Files, order: seq<Id>, init: seq<Id>, packsOf: Id -> seq<Path>, before: seq<Snapshot>)
    requires order != [] && init == order[..|order| - 1]
    requires forall s :: s in before <==> exists k :: 0 <= k < |init| && IntactOrphan(env, files, init[k], packsOf, s)
    ensures
      var id := order[|order| - 1];
      var s := Rebuild(env, files, id, packsOf(id));
      var r := if s.Some? && Intact(env, files, s.value) then before + [s.value] else before;
      forall x :: x in r <==> exists k :: 0 <= k < |order| && IntactOrphan(env, files, order[k], packsOf, x)
  {
    hide Rebuild, Intact;
    var id := order[|order| - 1];
    var s := Rebuild(env, files, id, packsOf(id));
    var r := if s.Some? && Intact(env, files, s.value) then before + [s.value] else before;
    forall x
      ensures x in r <==> exists k :: 0 <= k < |order| && IntactOrphan(env, files, order[k], packsOf, x)
    {
      assert x in r <==> x in before || IntactOrphan(env, files, id, packsOf, x);
      if exists k :: 0 <= k < |order| && IntactOrphan(env, files, order[k], packsOf, x) {
        var k :| 0 <= k < |order| && IntactOrphan(env, files, order[k], packsOf, x);
        if k < |order| - 1 {
          assert init[k] == order[k];
        }
      }
      if x in before {
        var k :| 0 <= k < |init| && IntactOrphan(env, files, init[k], packsOf, x);
        assert IntactOrphan(env, files, order[k], packsOf, x);
      }
      if IntactOrphan(env, files, id, packsOf, x) {
        assert IntactOrphan(env, files, order[|order| - 1], packsOf, x);
      }
    }
  }

  function Readmitted(
      env: Env, files: Files, ss: seq<Snapshot>, order: seq<Id>, packsOf: Id -> seq<Path>): seq<Snapshot> {
    Admitted(ss, SortByStep(Candidates(env, files, order, packsOf)))
  }

  function Recovered(
      env: Env, files: Files, ss: seq<Snapshot>, order: seq<Id>, packsOf: Id -> seq<Path>): seq<Snapshot> {
    var r := Readmitted(env, files, ss, order, packsOf);
    if |r| > |ss| then SortByStep(r) else ss
  }

  /** `order` meets each orphan directory once. */
  ghost predicate MeetsOrphans(files: Files, known: set<Id>, order: seq<Id>) {
    && (forall id :: id in order <==> id in OrphanIds(files, known))
    && forall i, j :: 0 <= i < j < |order| ==> order[i] != order[j]
  }

  lemma {:induction false} CandidatesDistinct(env: Env, files: Files, order: seq<Id>, packsOf: Id -> seq<Path>)
    requires forall i, j :: 0 <= i < j < |order| ==> order[i] != order[j]
    ensures Distinct(Candidates(env, files, order, packsOf))
    ensures forall s :: s in Candidates(env, files, order, packsOf) ==> s.id in order
  {
    hide Rebuild, Intact;
    if order != [] {
      var init, id := order[..|order| - 1], order[|order| - 1];
      CandidatesDistinct(env, files, init, packsOf);
      var before := Candidates(env, files, init, packsOf);
      forall i | 0 <= i < |before|
        ensures before[i].id != id
      {
        assert before[i] in before;
      }
    }
  }

  /** Judges each orphan, readmits what it can oldest first, deletes the files of the rest. */
  method RecoverOrReclaimOrphans(
      env: Env, disk: Disk, cell: ManifestCell, order: seq<Id>, packsOf: Id -> seq<Path>) returns (changed: bool)
    requires MeetsOrphans(disk.files, Ids(cell.manifest.snapshots), order)
    modifies disk, cell
    ensures
      var ss := old(cell.manifest.snapshots);
      var readmitted := Readmitted(env, old(disk.files), ss, order, packsOf);
      && changed == (|readmitted| > |ss|)
      && cell.manifest == old(cell.manifest).(snapshots := Recovered(env, old(disk.files), ss, order, packsOf))
      && (forall p :: p in disk.files ==> p in old(disk.files) && disk.files[p] == old(disk.files)[p])
      && (forall p :: p in old(disk.files) && p !in disk.files ==>
            DirOf(p).Some? && DirOf(p).value in order && DirOf(p).value !in Ids(readmitted))
      && disk.ops >= old(disk.ops)
      && (disk.Healthy(old(disk.ops), disk.ops) ==>
            forall p :: p in disk.files && DirOf(p).Some? && DirOf(p).value in order ==>
              DirOf(p).value in Ids(readmitted))
  {
    var ss, files := cell.manifest.snapshots, disk.files;
    var candidates := JudgeOrphans(env, files, order, packsOf);
    var sorted := SortByStep(candidates);
    hide Candidates;
    var readmitted := AdmitAll(ss, sorted);
    ReclaimRejects(disk, order, Ids(readmitted));
    changed := |readmitted| > |ss|;
    if changed {
      cell.manifest := cell.manifest.(snapshots := SortByStep(readmitted));
    }
  }

  method JudgeOrphans(
      env: Env, files: Files, order: seq<Id>, packsOf: Id -> seq<Path>) returns (candidates: seq<Snapshot>)
    ensures candidates == Candidates(env, files, order, packsOf)
  {
    hide Rebuild, Intact;
    candidates := [];
    for i := 0 to |order|
      invariant candidates == Candidates(env, files, order[..i], packsOf)
    {
      assert order[..i + 1][..i] == order[..i];
      var s := RebuildFromPacks(env, files, order[i], packsOf(order[i]));
      if s.Some? {
        var intact := DataIsIntact(env, files, s.value);
        if intact {
          candidates := candidates + [s.value];
        }
      }
    }
    assert order[..|order|] == order;
  }

  method AdmitAll(ss: seq<Snapshot>, candidates: seq<Snapshot>) returns (r: seq<Snapshot>)
    ensures r == Admitted(ss, candidates)
  {
    r := ss;
    for i := 0 to |candidates|
      invariant r == Admitted(ss, candidates[..i])
    {
      assert candidates[..i + 1][..i] == candidates[..i];
      if candidates[i].base.None? || candidates[i].base.value in Ids(r) {
        r := r + [candidates[i]];
      }
    }
    assert candidates[..|candidates|] == candidates;
  }

  /** Deletes every file under each orphan directory that was not readmitted. */
  method ReclaimRejects(disk: Disk, order: seq<Id>, readmitted: set<Id>)
    modifies disk
    ensures forall p :: p in disk.files ==> p in old(disk.files) && disk.files[p] == old(disk.files)[p]
    ensures forall p :: p in old(disk.files) && p !in disk.files ==>
              DirOf(p).Some? && DirOf(p).value in order && DirOf(p).value !in readmitted
    ensures disk.ops >= old(disk.ops)
    ensures disk.Healthy(old(disk.ops), disk.ops) ==>
              forall p :: p in disk.files && DirOf(p).Some? && DirOf(p).value in order ==> DirOf(p).value in readmitted
  {
    for i := 0 to |order|
      invariant forall p :: p in disk.files ==> p in old(disk.files) && disk.files[p] == old(disk.files)[p]
      invariant forall p :: p in old(disk.files) && p !in disk.files ==>
                  DirOf(p).Some? && DirOf(p).value in order && DirOf(p).value !in readmitted
      invariant disk.ops >= old(disk.ops)
      invariant disk.Healthy(old(disk.ops), disk.ops) ==>
                  forall p :: p in disk.files && DirOf(p).Some? && DirOf(p).value in order[..i] ==>
                    DirOf(p).value in readmitted
    {
      assert forall id :: id in order[..i + 1] <==> id in order[..i] || id == order[i];
      if order[i] !in readmitted {
        disk.DeleteAll(FilesUnder(disk.files, order[i]));
      }
    }
    assert order[..|order|] == order;
  }

  // ── What recovery guarantees ─────────────────────────────────────

  lemma RecoveredMembers(env: Env, files: Files, ss: seq<Snapshot>, order: seq<Id>, packsOf: Id -> seq<Path>)
    ensures
      var r := Readmitted(env, files, ss, order, packsOf);
      && (forall s :: s in Recovered(env, files, ss, order, packsOf) <==> s in r)
      && ss <= r
  {
    hide Candidates;
  }

  /** What is readmitted was intact, is a known orphan's own snapshot, and never lacks its base. */
  lemma RecoveryIsSafe(env: Env, files: Files, ss: seq<Snapshot>, order: seq<Id>, packsOf: Id -> seq<Path>)
    requires MeetsOrphans(files, Ids(ss), order) && Closed(ss)
    ensures
      var r := Recovered(env, files, ss, order, packsOf);
      && Closed(r)
      && (forall s :: s in ss ==> s in r)
      && forall s :: s in r && s !in ss ==>
           s.id in order && s.finalized && Intact(env, files, s) && Rebuild(env, files, s.id, packsOf(s.id)) == Some(s)
  {
    var candidates := Candidates(env, files, order, packsOf);
    var readmitted := Readmitted(env, files, ss, order, packsOf);
    AdmittedMembers(ss, SortByStep(candidates));
    AdmittedIsClosed(ss, SortByStep(candidates));
    RecoveredMembers(env, files, ss, order, packsOf);
    SameMembersClosed(readmitted, Recovered(env, files, ss, order, packsOf));
    assert forall s :: s in candidates <==> exists k ::
             0 <= k < |order| && IntactOrphan(env, files, order[k], packsOf, s);
    hide Candidates, Rebuild, Intact, Admitted;
  }

  /** A list something was readmitted to is in order of step; any other is as it was read. */
  lemma RecoveredInOrder(env: Env, files: Files, ss: seq<Snapshot>, order: seq<Id>, packsOf: Id -> seq<Path>)
    ensures
      var r := Recovered(env, files, ss, order, packsOf);
      r == ss || (ByStep(r) && |r| > |ss|)
  {
    var readmitted := Readmitted(env, files, ss, order, packsOf);
    SortedByStep(readmitted);
    hide Readmitted, SortByStep, ByStep;
    SortKeepsLength(readmitted);
  }

  lemma SortKeepsLength(ss: seq<Snapshot>)
    ensures |SortByStep(ss)| == |ss|
  {
    assert |multiset(SortByStep(ss))| == |multiset(ss)|;
  }

  lemma SameMembersClosed(a: seq<Snapshot>, b: seq<Snapshot>)
    requires Closed(a) && forall s :: s in b <==> s in a
    ensures Closed(b)
  {
    assert Ids(a) == Ids(b);
  }

  /** Candidates come in the order their directories are met. */
  lemma {:induction false} CandidatesInOrder(
      env: Env, files: Files, order: seq<Id>, packsOf: Id -> seq<Path>, j: nat, k: nat, b: Snapshot, s: Snapshot)
    requires j < |order| && k < |order| && j != k && Distinct(Candidates(env, files, order, packsOf))
    requires IntactOrphan(env, files, order[j], packsOf, b) && IntactOrphan(env, files, order[k], packsOf, s)
    ensures Before(Candidates(env, files, order, packsOf), b, s) <==> j < k
  {
    if j < k {
      OneBefore(env, files, order, packsOf, j, k, b, s);
    } else {
      OneBefore(env, files, order, packsOf, k, j, s, b);
      NotBothWays(Candidates(env, files, order, packsOf), s, b);
    }
  }

  lemma {:induction false} OneBefore(
      env: Env, files: Files, order: seq<Id>, packsOf: Id -> seq<Path>, j: nat, k: nat, b: Snapshot, s: Snapshot)
    requires j < k < |order|
    requires IntactOrphan(env, files, order[j], packsOf, b) && IntactOrphan(env, files, order[k], packsOf, s)
    ensures Before(Candidates(env, files, order, packsOf), b, s)
    decreases |order|
  {
    hide Rebuild, Intact;
    var init, id := order[..|order| - 1], order[|order| - 1];
    var before := Candidates(env, files, init, packsOf);
    if k == |order| - 1 {
      assert IntactOrphan(env, files, init[j], packsOf, b) && b in before;
      BeforeLast(before, b, s);
    } else {
      OneBefore(env, files, init, packsOf, j, k, b, s);
      var last := Rebuild(env, files, id, packsOf(id));
      if last.Some? {
        BeforeStays(before, b, s, last.value);
      }
    }
  }

  /** What was met in `order` as an intact orphan is a delta against no other delta. */
  ghost predicate OrphansAgainstFulls(env: Env, files: Files, order: seq<Id>, packsOf: Id -> seq<Path>) {
    forall i: nat, j: nat, s: Snapshot, b: Snapshot ::
      (i < |order| && j < |order| && IntactOrphan(env, files, order[i], packsOf, s)
       && IntactOrphan(env, files, order[j], packsOf, b) && s.base == Some(b.id)) ==> b.base.None?
  }

  /**
   `b` is an intact orphan that has its turn before the one met `k`-th: of a smaller step, or of the
   same and met first.
   */
  ghost predicate HasTurnBefore(
      env: Env, files: Files, order: seq<Id>, packsOf: Id -> seq<Path>, k: nat, s: Snapshot, j: nat, b: Snapshot) {
    && j < |order| && IntactOrphan(env, files, order[j], packsOf, b)
    && (b.step < s.step || (b.step == s.step && j < k))
  }

  /**
   An intact orphan is readmitted exactly when it is a full, or its base is known, or its base is an
   intact orphan of a smaller step, or of the same step and listed before it.
   */
  lemma OrphanReadmittedIff(
      env: Env, files: Files, ss: seq<Snapshot>, order: seq<Id>, packsOf: Id -> seq<Path>, k: nat, s: Snapshot)
    requires MeetsOrphans(files, Ids(ss), order) && OrphansAgainstFulls(env, files, order, packsOf)
    requires k < |order| && IntactOrphan(env, files, order[k], packsOf, s)
    ensures s in Recovered(env, files, ss, order, packsOf) <==>
            s.base.None? || s.base.value in Ids(ss)
            || exists j, b :: HasTurnBefore(env, files, order, packsOf, k, s, j, b) && b.id == s.base.value
  {
    hide *;
    var sorted := SortByStep(Candidates(env, files, order, packsOf));
    SortedCandidates(env, files, ss, order, packsOf, k, s);
    NotItsOwnBase(env, files, order, packsOf, k, s);
    if b :| b in sorted && s.base == Some(b.id) && Before(sorted, b, s) {
      var j := MetAt(env, files, order, packsOf, b);
      TurnsAreBySort(env, files, order, packsOf, k, s, j, b);
    }
    if j, b :| HasTurnBefore(env, files, order, packsOf, k, s, j, b) && s.base == Some(b.id) {
      MetIn(env, files, order, packsOf, k, s, j, b);
      TurnsAreBySort(env, files, order, packsOf, k, s, j, b);
    }
  }

  lemma NotItsOwnBase(env: Env, files: Files, order: seq<Id>, packsOf: Id -> seq<Path>, k: nat, s: Snapshot)
    requires OrphansAgainstFulls(env, files, order, packsOf) && k < |order|
             && IntactOrphan(env, files, order[k], packsOf, s)
    ensures s.base != Some(s.id)
  {
    hide IntactOrphan;
  }

  /** The same, said of the sorted candidates. */
  lemma SortedCandidates(
      env: Env, files: Files, ss: seq<Snapshot>, order: seq<Id>, packsOf: Id -> seq<Path>, k: nat, s: Snapshot)
    requires MeetsOrphans(files, Ids(ss), order) && OrphansAgainstFulls(env, files, order, packsOf)
    requires k < |order| && IntactOrphan(env, files, order[k], packsOf, s)
    ensures forall x, y :: 0 <= x < y < |order| ==> order[x] != order[y]
    ensures
      var sorted := SortByStep(Candidates(env, files, order, packsOf));
      s in Recovered(env, files, ss, order, packsOf) <==>
      s.base.None? || s.base.value in Ids(ss) || exists b :: b in sorted && s.base == Some(b.id) && Before(sorted, b, s)
  {
    hide Candidates, Rebuild, Intact, Recovered, IntactOrphan, SortByStep, Admitted, OrphansAgainstFulls, Before;
    var sorted := SortByStep(Candidates(env, files, order, packsOf));
    SortedIsFit(env, files, order, packsOf, k, s);
    RecoveredMembers(env, files, ss, order, packsOf);
    NoneIsKnown(env, files, ss, order, packsOf);
    AdmittedBefore(ss, sorted, s);
  }

  lemma SortedIsFit(env: Env, files: Files, order: seq<Id>, packsOf: Id -> seq<Path>, k: nat, s: Snapshot)
    requires forall x, y :: 0 <= x < y < |order| ==> order[x] != order[y]
    requires OrphansAgainstFulls(env, files, order, packsOf) && k < |order|
             && IntactOrphan(env, files, order[k], packsOf, s)
    ensures
      var sorted := SortByStep(Candidates(env, files, order, packsOf));
      Distinct(sorted) && AgainstFulls(sorted) && s in sorted
  {
    hide IntactOrphan;
    CandidatesDistinct(env, files, order, packsOf);
    SortIsDistinct(Candidates(env, files, order, packsOf));
  }

  lemma AdmittedBefore(ss: seq<Snapshot>, sorted: seq<Snapshot>, s: Snapshot)
    requires Distinct(sorted) && AgainstFulls(sorted) && s in sorted
    requires forall i :: 0 <= i < |sorted| ==> sorted[i].id !in Ids(ss)
    ensures s in Admitted(ss, sorted) <==>
            s.base.None? || s.base.value in Ids(ss) || exists b ::
              b in sorted && s.base == Some(b.id) && Before(sorted, b, s)
  {
    var i :| 0 <= i < |sorted| && sorted[i] == s;
    AdmittedExactly(ss, sorted, i);
    hide Admitted, AgainstFulls;
    if j :| 0 <= j < i && s.base == Some(sorted[j].id) {
      assert sorted[j] in sorted && Before(sorted, sorted[j], s);
    }
    if b :| b in sorted && s.base == Some(b.id) && Before(sorted, b, s) {
      var x, y :| 0 <= x < y < |sorted| && sorted[x] == b && sorted[y] == s;
      assert y == i;
    }
  }

  lemma MetAt(env: Env, files: Files, order: seq<Id>, packsOf: Id -> seq<Path>, b: Snapshot) returns (j: nat)
    requires b in SortByStep(Candidates(env, files, order, packsOf))
    ensures j < |order| && IntactOrphan(env, files, order[j], packsOf, b)
  {
    hide IntactOrphan;
    assert b in Candidates(env, files, order, packsOf);
    j :| 0 <= j < |order| && IntactOrphan(env, files, order[j], packsOf, b);
  }

  lemma MetIn(
      env: Env, files: Files, order: seq<Id>, packsOf: Id -> seq<Path>, k: nat, s: Snapshot, j: nat, b: Snapshot)
    requires HasTurnBefore(env, files, order, packsOf, k, s, j, b)
    ensures j < |order| && IntactOrphan(env, files, order[j], packsOf, b)
            && b in SortByStep(Candidates(env, files, order, packsOf))
  {
    hide IntactOrphan;
  }

  lemma NoneIsKnown(env: Env, files: Files, ss: seq<Snapshot>, order: seq<Id>, packsOf: Id -> seq<Path>)
    requires MeetsOrphans(files, Ids(ss), order)
    ensures
      var sorted := SortByStep(Candidates(env, files, order, packsOf));
      forall i :: 0 <= i < |sorted| ==> sorted[i].id !in Ids(ss)
  {
    CandidatesDistinct(env, files, order, packsOf);
    hide Candidates, Rebuild, Intact, SortByStep;
    var sorted := SortByStep(Candidates(env, files, order, packsOf));
    forall i | 0 <= i < |sorted|
      ensures sorted[i].id !in Ids(ss)
    {
      assert sorted[i] in sorted;
    }
  }

  lemma TurnsAreBySort(
      env: Env, files: Files, order: seq<Id>, packsOf: Id -> seq<Path>, k: nat, s: Snapshot, j: nat, b: Snapshot)
    requires forall x, y :: 0 <= x < y < |order| ==> order[x] != order[y]
    requires k < |order| && IntactOrphan(env, files, order[k], packsOf, s) && b != s
    requires j < |order| && IntactOrphan(env, files, order[j], packsOf, b)
    ensures Before(SortByStep(Candidates(env, files, order, packsOf)), b, s)
            <==> HasTurnBefore(env, files, order, packsOf, k, s, j, b)
  {
    var met := Candidates(env, files, order, packsOf);
    CandidatesDistinct(env, files, order, packsOf);
    assert j != k && b in met && s in met;
    hide Candidates, Rebuild, Intact, IntactOrphan;
    SortBefore(met, b, s);
    CandidatesInOrder(env, files, order, packsOf, j, k, b, s);
  }

  /**
   Within one step the listing order decides: the same two directories on storage, a delta's and its
   base's, both intact, lose the delta when it is listed first and keep both when the base is.
   */
  lemma SameStepCanLose(
      env: Env, files: Files, ss: seq<Snapshot>, packsOf: Id -> seq<Path>, x: Id, y: Id, delta: Snapshot,
      full: Snapshot)
    requires x != y && MeetsOrphans(files, Ids(ss), [x, y]) && MeetsOrphans(files, Ids(ss), [y, x])
    requires IntactOrphan(env, files, x, packsOf, delta) && IntactOrphan(env, files, y, packsOf, full)
    requires delta.base == Some(full.id) && full.base.None? && delta.step == full.step
    ensures Readmitted(env, files, ss, [x, y], packsOf) == ss + [full]
    ensures Readmitted(env, files, ss, [y, x], packsOf) == ss + [full, delta]
  {
    NoneIsKnown(env, files, ss, [x, y], packsOf);
    TwoCandidates(env, files, packsOf, x, y, delta, full);
    TwoCandidates(env, files, packsOf, y, x, full, delta);
    hide Candidates, Rebuild, Intact, IntactOrphan, MeetsOrphans;
    TwoInOrder(delta, full);
    TwoInOrder(full, delta);
    var sorted := SortByStep(Candidates(env, files, [x, y], packsOf));
    assert sorted[1] == full && full.id !in Ids(ss);
    TwoAdmitted(ss, delta, full);
  }

  lemma TwoCandidates(env: Env, files: Files, packsOf: Id -> seq<Path>, x: Id, y: Id, a: Snapshot, b: Snapshot)
    requires IntactOrphan(env, files, x, packsOf, a) && IntactOrphan(env, files, y, packsOf, b)
    ensures Candidates(env, files, [x, y], packsOf) == [a, b]
  {
    hide Rebuild, Intact;
    assert [x, y][..1] == [x] && [x][..0] == [];
    assert Candidates(env, files, [], packsOf) == [];
    assert Candidates(env, files, [x], packsOf) == [a];
  }

  lemma TwoAdmitted(ss: seq<Snapshot>, delta: Snapshot, full: Snapshot)
    requires delta.base == Some(full.id) && full.base.None? && full.id !in Ids(ss)
    ensures Admitted(ss, [delta, full]) == ss + [full] && Admitted(ss, [full, delta]) == ss + [full, delta]
  {
    assert [delta, full][..1] == [delta] && [full, delta][..1] == [full] && [delta][..0] == [] && [full][..0] == [];
    assert Admitted(ss, []) == ss && Admitted(ss, [delta]) == ss && Admitted(ss, [full]) == ss + [full];
    IdsSnoc(ss, full);
    assert ss + [full] + [delta] == ss + [full, delta];
  }

  lemma TwoInOrder(a: Snapshot, b: Snapshot)
    requires a.step <= b.step
    ensures SortByStep([a, b]) == [a, b]
  {
    assert [a, b][..1] == [a] && [a][..0] == [];
    assert SortByStep([a]) == Insert(SortByStep([]), a) == [a];
  }

  /** Once its deletes have gone through, running recovery again finds nothing to do. */
  lemma SecondRunIsIdle(
      env: Env, before: Files, after: Files, ss: seq<Snapshot>, order: seq<Id>, packsOf: Id -> seq<Path>,
      again: seq<Id>)
    requires MeetsOrphans(before, Ids(ss), order)
    requires forall p :: p in after ==> p in before
    requires forall p :: p in after && DirOf(p).Some? && DirOf(p).value in order ==>
               DirOf(p).value in Ids(Readmitted(env, before, ss, order, packsOf))
    requires MeetsOrphans(after, Ids(Recovered(env, before, ss, order, packsOf)), again)
    ensures again == []
    ensures
      var recovered := Recovered(env, before, ss, order, packsOf);
      Recovered(env, after, recovered, again, packsOf) == recovered
  {
    RecoveredMembers(env, before, ss, order, packsOf);
    var readmitted := Readmitted(env, before, ss, order, packsOf);
    var recovered := Recovered(env, before, ss, order, packsOf);
    assert Ids(recovered) == Ids(readmitted);
    assert forall s :: s in ss ==> s in readmitted;
    hide Recovered, Readmitted;
    assert forall id :: id in OrphanIds(after, Ids(recovered)) ==> id in OrphanIds(before, Ids(ss));
    HeadIsIn(again);
    NothingRecovered(env, after, recovered, packsOf);
  }

  lemma HeadIsIn(ids: seq<Id>)
    ensures ids == [] || ids[0] in ids
  {
  }

  lemma NothingRecovered(env: Env, files: Files, ss: seq<Snapshot>, packsOf: Id -> seq<Path>)
    ensures Recovered(env, files, ss, [], packsOf) == ss
  {
    assert Candidates(env, files, [], packsOf) == [];
    assert SortByStep([]) == [];
  }
}
