/** The manifest on storage: a small index, and one ranks file per finalized snapshot. */
module ManifestIO {
  import opened Bytes
  import opened Manifest
  import opened Env

  /** The manifest as this process holds it. */
  class ManifestCell {
    var manifest: Manifest

    constructor (manifest: Manifest)
      ensures this.manifest == manifest
    {
      this.manifest := manifest;
    }
  }

  // ── What persist writes ──────────────────────────────────────────

  /** An unfinalized snapshot has no ranks to put in a file of their own yet. */
  predicate OutOfLine(s: Snapshot) {
    s.finalized && s.ranks != map[]
  }

  function Unwritten(m: Manifest): set<Id> {
    set s | s in m.snapshots && OutOfLine(s) && s.id !in m.ranksWritten :: s.id
  }

  function WrittenAfter(m: Manifest): set<Id> {
    (m.ranksWritten + Unwritten(m)) * Ids(m.snapshots)
  }

  function RanksText(env: Env, s: Snapshot): Bytes {
    env.ranksJson(RanksFile(s.id, s.ranks))
  }

  function HeadOf(s: Snapshot, written: set<Id>): Head {
    Head(s.id, s.step, s.createdAt,
         if s.id in written then None else Some(s.ranks),
         if s.id in written then Some(Ranks(s.id)) else None,
         s.base, s.metadata, s.compression, s.finalized, s.pinned)
  }

  function HeadsOf(ss: seq<Snapshot>, written: set<Id>): (hs: seq<Head>)
    ensures |hs| == |ss|
  {
    seq(|ss|, i requires 0 <= i < |ss| => HeadOf(ss[i], written))
  }

  function IndexOf(m: Manifest, written: set<Id>): IndexFile {
    IndexFile(m.worldSize, HeadsOf(m.snapshots, written), m.retention, m.lineage)
  }

  /** Storage once the files of the unwritten among the first `n` snapshots are down. */
  function RanksPut(env: Env, files: Files, page: nat, ss: seq<Snapshot>, todo: set<Id>, n: nat): Files
    requires n <= |ss|
  {
    if n == 0 then files
    else
      var before := RanksPut(env, files, page, ss, todo, n - 1);
      if ss[n - 1].id in todo then before[Ranks(ss[n - 1].id) := Padded(RanksText(env, ss[n - 1]), page)] else before
  }

  function Persisted(env: Env, files: Files, page: nat, m: Manifest): Files {
    RanksPut(env, files, page, m.snapshots, Unwritten(m), |m.snapshots|)
      [Index := Padded(env.indexJson(IndexOf(m, WrittenAfter(m))), page)]
  }

  /** Every file it needs, then the index; a failed put leaves the index as it was. */
  method Persist(env: Env, disk: Disk, cell: ManifestCell) returns (r: Result<()>)
    modifies disk, cell
    ensures
      var m := old(cell.manifest);
      if r.Ok? then
        && cell.manifest == m.(ranksWritten := WrittenAfter(m))
        && disk.files == Persisted(env, old(disk.files), disk.page, m)
      else
        && r == Err(Error.Storage)
        && (cell.manifest == m || cell.manifest == m.(ranksWritten := WrittenAfter(m)))
        && exists n :: 0 <= n <= |m.snapshots|
             && disk.files == RanksPut(env, old(disk.files), disk.page, m.snapshots, Unwritten(m), n)
             && (cell.manifest != m ==> n == |m.snapshots|)
    ensures disk.NeverFails() ==> r.Ok?
  {
    var m := cell.manifest;
    var todo := Unwritten(m);
    for i := 0 to |m.snapshots|
      invariant cell.manifest == m
      invariant disk.files == RanksPut(env, old(disk.files), disk.page, m.snapshots, todo, i)
    {
      if m.snapshots[i].id in todo {
        var put := disk.Put(Ranks(m.snapshots[i].id), RanksText(env, m.snapshots[i]));
        if put.Err? {
          return put;
        }
      }
    }
    cell.manifest := m.(ranksWritten := m.ranksWritten + todo);
    cell.manifest := m.(ranksWritten := cell.manifest.ranksWritten * Ids(m.snapshots));
    r := disk.Put(Index, env.indexJson(IndexOf(m, cell.manifest.ranksWritten)));
  }

  // ── What load reads ──────────────────────────────────────────────

  function ReadRanks(env: Env, files: Files, path: Path, id: Id): Option<map<nat, RankEntry>> {
    if path !in files then None
    else
      match env.readRanks(TrimZeros(files[path]))
      case None => None
      case Some(read) => if read.snapshotId == id then Some(read.ranks) else None
  }

  /** The ranks the copy in memory lends, by id. */
  function HeldRanks(ss: seq<Snapshot>, written: set<Id>): (held: map<Id, map<nat, RankEntry>>)
    ensures forall id :: id in held ==> id in written && exists s :: s in ss && s.id == id && s.ranks == held[id]
    ensures forall s :: s in ss && s.id in written ==> s.id in held
  {
    if ss == [] then map[]
    else
      var last := ss[|ss| - 1];
      assert forall s :: s in ss <==> s in ss[..|ss| - 1] || s == last;
      var held := HeldRanks(ss[..|ss| - 1], written);
      if last.id in written then held[last.id := last.ranks] else held
  }

  /** What the copy in memory is left with: lent ranks are moved out of it. */
  function Emptied(ss: seq<Snapshot>, written: set<Id>): seq<Snapshot> {
    seq(|ss|, i requires 0 <= i < |ss| => if ss[i].id in written then ss[i].(ranks := map[]) else ss[i])
  }

  datatype Reading = Reading(
    held: map<Id, map<nat, RankEntry>>,
    written: set<Id>,
    snapshots: seq<Snapshot>,
    unreadable: set<Id>
  )

  function SnapshotOf(h: Head, ranks: map<nat, RankEntry>): Snapshot {
    Snapshot(h.id, h.step, h.createdAt, ranks, h.base, h.metadata, h.compression, h.finalized, h.pinned)
  }

  function Lent(
      env: Env, files: Files, held: map<Id, map<nat, RankEntry>>, path: Path, id: Id): Option<map<nat, RankEntry>> {
    if id in held then Some(held[id]) else ReadRanks(env, files, path, id)
  }

  function ReadHead(env: Env, files: Files, r: Reading, h: Head): Reading {
    if h.ranks.Some? then r.(snapshots := r.snapshots + [SnapshotOf(h, h.ranks.value)])
    else if h.ranksIn.None? then r.(snapshots := r.snapshots + [SnapshotOf(h, map[])])
    else
      match Lent(env, files, r.held, h.ranksIn.value, h.id)
      case Some(ranks) =>
        Reading(r.held - {h.id}, r.written + {h.id}, r.snapshots + [SnapshotOf(h, ranks)], r.unreadable)
      case None => Reading(r.held - {h.id}, r.written, r.snapshots, r.unreadable + {h.id})
  }

  function ReadHeads(env: Env, files: Files, held: map<Id, map<nat, RankEntry>>, hs: seq<Head>, n: nat): Reading
    requires n <= |hs|
  {
    if n == 0 then Reading(held, {}, [], {})
    else ReadHead(env, files, ReadHeads(env, files, held, hs, n - 1), hs[n - 1])
  }

  /** Drops what was taken against a snapshot nobody can read. */
  function WithoutOrphans(ss: seq<Snapshot>, unreadable: set<Id>): (r: seq<Snapshot>)
    ensures forall s :: s in r <==> s in ss && !(s.base.Some? && s.base.value in unreadable)
  {
    if ss == [] then []
    else
      var last := ss[|ss| - 1];
      assert forall s :: s in ss <==> s in ss[..|ss| - 1] || s == last;
      var r := WithoutOrphans(ss[..|ss| - 1], unreadable);
      if last.base.Some? && last.base.value in unreadable then r else r + [last]
  }

  function Loaded(index: IndexFile, r: Reading): Manifest {
    Manifest(index.worldSize,
             if r.unreadable == {} then r.snapshots else WithoutOrphans(r.snapshots, r.unreadable),
             index.retention, index.lineage, r.written)
  }

  function LoadManifest(env: Env, files: Files, held: map<Id, map<nat, RankEntry>>): Result<Option<Manifest>> {
    if Index !in files then Ok(None)
    else
      match env.readIndex(TrimZeros(files[Index]))
      case None => Err(Config)
      case Some(index) =>
        Ok(Some(Loaded(index, ReadHeads(env, files, held, index.snapshots, |index.snapshots|))))
  }

  function HeldBy(previous: Option<Manifest>): map<Id, map<nat, RankEntry>> {
    if previous.Some? then HeldRanks(previous.value.snapshots, previous.value.ranksWritten) else map[]
  }

  method LendRanks(
      ss: seq<Snapshot>, written: set<Id>) returns (held: map<Id, map<nat, RankEntry>>, left: seq<Snapshot>)
    ensures held == HeldRanks(ss, written) && left == Emptied(ss, written)
  {
    held, left := map[], [];
    for i := 0 to |ss|
      invariant held == HeldRanks(ss[..i], written)
      invariant |left| == i && left == Emptied(ss, written)[..i]
    {
      assert ss[..i + 1][..i] == ss[..i];
      if ss[i].id in written {
        held := held[ss[i].id := ss[i].ranks];
        left := left + [ss[i].(ranks := map[])];
      } else {
        left := left + [ss[i]];
      }
    }
    assert ss[..|ss|] == ss;
  }

  method Retained(ss: seq<Snapshot>, unreadable: set<Id>) returns (r: seq<Snapshot>)
    ensures r == WithoutOrphans(ss, unreadable)
  {
    r := [];
    for i := 0 to |ss|
      invariant r == WithoutOrphans(ss[..i], unreadable)
    {
      assert ss[..i + 1][..i] == ss[..i];
      if !(ss[i].base.Some? && ss[i].base.value in unreadable) {
        r := r + [ss[i]];
      }
    }
    assert ss[..|ss|] == ss;
  }

  /** Reads the index, and each snapshot's ranks from memory when it is lent there, else from its file. */
  method Load(env: Env, disk: Disk, previous: ManifestCell?) returns (r: Result<Option<Manifest>>)
    modifies previous
    ensures r == LoadManifest(env, disk.files, if previous == null then map[] else HeldBy(Some(old(previous.manifest))))
    ensures previous != null ==>
              previous.manifest == old(previous.manifest)
              || previous.manifest == old(previous.manifest).(snapshots :=
                   Emptied(old(previous.manifest).snapshots, old(previous.manifest).ranksWritten))
    ensures previous != null && (r.Err? || r.value.None?) ==> previous.manifest == old(previous.manifest)
  {
    if Index !in disk.files {
      return Ok(None);
    }
    var index := env.readIndex(TrimZeros(disk.files[Index]));
    if index.None? {
      return Err(Config);
    }
    var held: map<Id, map<nat, RankEntry>> := map[];
    if previous != null {
      var left;
      held, left := LendRanks(previous.manifest.snapshots, previous.manifest.ranksWritten);
      previous.manifest := previous.manifest.(snapshots := left);
    }
    ghost var lent := held;
    var hs := index.value.snapshots;
    var written: set<Id>, snapshots: seq<Snapshot>, unreadable: set<Id> := {}, [], {};
    hide Lent;
    for i := 0 to |hs|
      invariant Reading(held, written, snapshots, unreadable) == ReadHeads(env, disk.files, lent, hs, i)
    {
      if hs[i].ranks.Some? {
        snapshots := snapshots + [SnapshotOf(hs[i], hs[i].ranks.value)];
      } else if hs[i].ranksIn.None? {
        snapshots := snapshots + [SnapshotOf(hs[i], map[])];
      } else {
        var ranks := Lent(env, disk.files, held, hs[i].ranksIn.value, hs[i].id);
        held := held - {hs[i].id};
        if ranks.Some? {
          written := written + {hs[i].id};
          snapshots := snapshots + [SnapshotOf(hs[i], ranks.value)];
        } else {
          unreadable := unreadable + {hs[i].id};
        }
      }
    }
    if unreadable != {} {
      snapshots := Retained(snapshots, unreadable);
    }
    return Ok(Some(Manifest(index.value.worldSize, snapshots, index.value.retention, index.value.lineage, written)));
  }

  /** What `reload_manifest` reads: a copy in memory that can be trusted lends its ranks. */
  function Reread(env: Env, files: Files, m: Manifest, trusted: bool): Result<Manifest> {
    var read :- LoadManifest(env, files, if trusted then HeldBy(Some(m)) else map[]);
    Ok(if read.Some? then read.value else m)
  }

  /** With nothing on storage, or nothing readable there, the copy in memory stays as it was. */
  method ReloadManifest(env: Env, disk: Disk, cell: ManifestCell, trusted: bool) returns (r: Result<()>)
    modifies cell
    ensures match Reread(env, disk.files, old(cell.manifest), trusted)
            case Err(e) => r == Err(e) && cell.manifest == old(cell.manifest)
            case Ok(m) => r.Ok? && cell.manifest == m
  {
    hide LoadManifest, HeldBy;
    var read := Load(env, disk, if trusted then cell else null);
    if read.Err? {
      return Err(read.error);
    }
    if read.value.Some? {
      cell.manifest := read.value.value;
    }
    return Ok(());
  }

  // ── Loading gives back what was persisted ────────────────────────

  /** The files `written` speaks of are there, and say what the snapshots say. */
  ghost predicate FilesAgree(env: Env, files: Files, ss: seq<Snapshot>, written: set<Id>) {
    forall s :: s in ss && s.id in written ==>
      Ranks(s.id) in files && Holds(files[Ranks(s.id)], RanksText(env, s))
  }

  ghost predicate LendsOwn(held: map<Id, map<nat, RankEntry>>, ss: seq<Snapshot>) {
    forall s :: s in ss && s.id in held ==> held[s.id] == s.ranks
  }

  lemma RanksReadBack(env: Env, files: Files, s: Snapshot)
    requires Lawful(env) && Ranks(s.id) in files && Holds(files[Ranks(s.id)], RanksText(env, s))
    ensures ReadRanks(env, files, Ranks(s.id), s.id) == Some(s.ranks)
  {
    TextIsTrimmed(files[Ranks(s.id)], RanksText(env, s));
  }

  lemma HeadReadsBack(env: Env, files: Files, r: Reading, ss: seq<Snapshot>, s: Snapshot, written: set<Id>)
    requires Lawful(env) && FilesAgree(env, files, ss, written) && s in ss && LendsOwn(r.held, ss)
    ensures
      var after := ReadHead(env, files, r, HeadOf(s, written));
      && after.snapshots == r.snapshots + [s] && after.unreadable == r.unreadable
      && after.written == r.written + (if s.id in written then {s.id} else {})
      && LendsOwn(after.held, ss)
  {
    if s.id in written {
      RanksReadBack(env, files, s);
    }
  }

  lemma {:induction false} HeadsReadBack(
      env: Env, files: Files, held: map<Id, map<nat, RankEntry>>, ss: seq<Snapshot>, written: set<Id>, n: nat)
    requires Lawful(env) && FilesAgree(env, files, ss, written) && LendsOwn(held, ss) && n <= |ss|
    ensures
      var r := ReadHeads(env, files, held, HeadsOf(ss, written), n);
      r.snapshots == ss[..n] && r.unreadable == {} && r.written == written * Ids(ss[..n]) && LendsOwn(r.held, ss)
  {
    hide ReadHead, ReadHeads, FilesAgree, Lawful, HeadOf, LendsOwn, Ids, HeadsOf;
    ReadHeadsStep(env, files, held, ss, written, n);
    if n > 0 {
      HeadsReadBack(env, files, held, ss, written, n - 1);
      var before := ReadHeads(env, files, held, HeadsOf(ss, written), n - 1);
      HeadReadsBack(env, files, before, ss, ss[n - 1], written);
      assert ss[..n] == ss[..n - 1] + [ss[n - 1]];
      IdsAppend(ss[..n - 1], ss[n - 1]);
    }
  }

  lemma ReadHeadsStep(
      env: Env, files: Files, held: map<Id, map<nat, RankEntry>>, ss: seq<Snapshot>, written: set<Id>, n: nat)
    requires n <= |ss|
    ensures n == 0 ==> ReadHeads(env, files, held, HeadsOf(ss, written), n) == Reading(held, {}, [], {})
    ensures n > 0 ==> ReadHeads(env, files, held, HeadsOf(ss, written), n) ==
                      ReadHead(env, files, ReadHeads(env, files, held, HeadsOf(ss, written), n - 1),
                               HeadOf(ss[n - 1], written))
    ensures Ids(ss[..0]) == {}
  {
    hide ReadHead, HeadOf;
  }

  lemma IdsAppend(ss: seq<Snapshot>, s: Snapshot)
    ensures Ids(ss + [s]) == Ids(ss) + {s.id}
  {
    assert forall x :: x in ss + [s] <==> x in ss || x == s;
  }

  /** An index and the files it names stand for the manifest it was written from. */
  lemma IndexLoadsBack(env: Env, files: Files, held: map<Id, map<nat, RankEntry>>, m: Manifest, written: set<Id>)
    requires Lawful(env) && FilesAgree(env, files, m.snapshots, written) && LendsOwn(held, m.snapshots)
    requires Index in files && Holds(files[Index], env.indexJson(IndexOf(m, written)))
    ensures LoadManifest(env, files, held) == Ok(Some(m.(ranksWritten := written * Ids(m.snapshots))))
  {
    TextIsTrimmed(files[Index], env.indexJson(IndexOf(m, written)));
    HeadsReadBack(env, files, held, m.snapshots, written, |m.snapshots|);
    assert m.snapshots[..|m.snapshots|] == m.snapshots;
    hide ReadHeads, FilesAgree, LendsOwn;
  }

  lemma {:induction false} RanksPutAgree(
      env: Env, files: Files, page: nat, ss: seq<Snapshot>, todo: set<Id>, n: nat, k: nat)
    requires Distinct(ss) && k < |ss| && n <= |ss|
    ensures
      var after := RanksPut(env, files, page, ss, todo, n);
      var path := Ranks(ss[k].id);
      if k < n && ss[k].id in todo then path in after && after[path] == Padded(RanksText(env, ss[k]), page)
      else (path in after <==> path in files) && (path in files ==> after[path] == files[path])
  {
    hide Padded, RanksText;
    if n > 0 {
      RanksPutAgree(env, files, page, ss, todo, n - 1, k);
    }
  }

  /** Nothing but ranks files is touched on the way to the index. */
  lemma {:induction false} RanksPutElsewhere(
      env: Env, files: Files, page: nat, ss: seq<Snapshot>, todo: set<Id>, n: nat, path: Path)
    requires n <= |ss| && !path.Ranks?
    ensures
      var after := RanksPut(env, files, page, ss, todo, n);
      (path in after <==> path in files) && (path in files ==> after[path] == files[path])
  {
    if n > 0 {
      RanksPutElsewhere(env, files, page, ss, todo, n - 1, path);
    }
  }

  lemma PersistedAgrees(env: Env, files: Files, page: nat, m: Manifest)
    requires Distinct(m.snapshots) && FilesAgree(env, files, m.snapshots, m.ranksWritten)
    ensures FilesAgree(env, Persisted(env, files, page, m), m.snapshots, WrittenAfter(m))
  {
    var after := Persisted(env, files, page, m);
    var written := WrittenAfter(m);
    hide RanksPut, RanksText, Padded;
    forall s | s in m.snapshots && s.id in written
      ensures Ranks(s.id) in after && Holds(after[Ranks(s.id)], RanksText(env, s))
    {
      var k :| 0 <= k < |m.snapshots| && m.snapshots[k] == s;
      RanksPutAgree(env, files, page, m.snapshots, Unwritten(m), |m.snapshots|, k);
      PaddedHolds(RanksText(env, s), page);
    }
  }

  /** `load` after `persist` gives back every snapshot, with its ranks, in its order. */
  lemma LoadUndoesPersist(env: Env, files: Files, page: nat, m: Manifest)
    requires Lawful(env) && Distinct(m.snapshots) && FilesAgree(env, files, m.snapshots, m.ranksWritten)
    ensures LoadManifest(env, Persisted(env, files, page, m), map[]) == Ok(Some(m.(ranksWritten := WrittenAfter(m))))
  {
    PersistedAgrees(env, files, page, m);
    PaddedHolds(env.indexJson(IndexOf(m, WrittenAfter(m))), page);
    assert WrittenAfter(m) * Ids(m.snapshots) == WrittenAfter(m);
    hide FilesAgree, LoadManifest, RanksPut, IndexOf;
    IndexLoadsBack(env, Persisted(env, files, page, m), map[], m, WrittenAfter(m));
  }

  // ── Lending from memory changes nothing ──────────────────────────

  ghost predicate LendsFiles(env: Env, files: Files, held: map<Id, map<nat, RankEntry>>) {
    forall id :: id in held ==> ReadRanks(env, files, Ranks(id), id) == Some(held[id])
  }

  predicate NamesOwnFiles(hs: seq<Head>) {
    forall h :: h in hs && h.ranksIn.Some? ==> h.ranksIn.value == Ranks(h.id)
  }

  lemma {:induction false} LendingReadsTheSame(
      env: Env, files: Files, held: map<Id, map<nat, RankEntry>>, hs: seq<Head>, n: nat)
    requires LendsFiles(env, files, held) && NamesOwnFiles(hs) && n <= |hs|
    ensures
      var lent, read := ReadHeads(env, files, held, hs, n), ReadHeads(env, files, map[], hs, n);
      && lent.written == read.written && lent.snapshots == read.snapshots && lent.unreadable == read.unreadable
      && read.held == map[] && LendsFiles(env, files, lent.held)
  {
    if n > 0 {
      LendingReadsTheSame(env, files, held, hs, n - 1);
      assert hs[n - 1] in hs;
      hide ReadRanks, NamesOwnFiles;
    }
  }

  /** Whatever of a trusted copy in memory is lent, the result is the one the files alone give. */
  lemma LoadIgnoresLending(env: Env, files: Files, previous: Manifest)
    requires Lawful(env) && FilesAgree(env, files, previous.snapshots, previous.ranksWritten)
    requires Index in files && env.readIndex(TrimZeros(files[Index])).Some?
    requires NamesOwnFiles(env.readIndex(TrimZeros(files[Index])).value.snapshots)
    ensures LoadManifest(env, files, HeldBy(Some(previous))) == LoadManifest(env, files, map[])
  {
    var held := HeldBy(Some(previous));
    var hs := env.readIndex(TrimZeros(files[Index])).value.snapshots;
    forall id | id in held
      ensures ReadRanks(env, files, Ranks(id), id) == Some(held[id])
    {
      var s :| s in previous.snapshots && s.id == id && s.ranks == held[id];
      RanksReadBack(env, files, s);
    }
    hide ReadRanks, ReadHeads, FilesAgree, HeldRanks;
    LendingReadsTheSame(env, files, held, hs, |hs|);
  }

  // ── What an incomplete store leaves ──────────────────────────────

  /** Every base an index names is in it, as a full. */
  predicate HeadsClosed(hs: seq<Head>) {
    forall h :: h in hs && h.base.Some? ==> exists g :: g in hs && g.id == h.base.value && g.base.None?
  }

  ghost predicate HaveHeads(ss: seq<Snapshot>, hs: seq<Head>, n: nat)
    requires n <= |hs|
  {
    forall s :: s in ss ==> exists i :: 0 <= i < n && hs[i].id == s.id && hs[i].base == s.base
  }

  ghost predicate HeadsAreRead(r: Reading, hs: seq<Head>, n: nat)
    requires n <= |hs|
  {
    forall i :: 0 <= i < n ==>
      hs[i].id in r.unreadable || exists s :: s in r.snapshots && s.id == hs[i].id && s.base == hs[i].base
  }

  ghost predicate ReadFrom(r: Reading, hs: seq<Head>, n: nat)
    requires n <= |hs|
  {
    HaveHeads(r.snapshots, hs, n) && HeadsAreRead(r, hs, n)
  }

  lemma {:induction false} ReadHeadsFrom(
      env: Env, files: Files, held: map<Id, map<nat, RankEntry>>, hs: seq<Head>, n: nat)
    requires n <= |hs|
    ensures ReadFrom(ReadHeads(env, files, held, hs, n), hs, n)
  {
    if n > 0 {
      ReadHeadsFrom(env, files, held, hs, n - 1);
      var before, h := ReadHeads(env, files, held, hs, n - 1), hs[n - 1];
      var after := ReadHeads(env, files, held, hs, n);
      var added := if after.snapshots == before.snapshots then None else Some(after.snapshots[|before.snapshots|]);
      assert if added.Some? then after.snapshots == before.snapshots + [added.value] && added.value.id == h.id
                                 && added.value.base == h.base && after.unreadable == before.unreadable
             else after.unreadable == before.unreadable + {h.id};
      hide ReadHeads, ReadHead;
      ReadFromStep(before, after, hs, n, added);
    }
  }

  lemma ReadFromStep(before: Reading, after: Reading, hs: seq<Head>, n: nat, added: Option<Snapshot>)
    requires 0 < n <= |hs| && ReadFrom(before, hs, n - 1)
    requires match added
             case None => after.snapshots == before.snapshots && after.unreadable == before.unreadable + {hs[n - 1].id}
             case Some(s) => && after.snapshots == before.snapshots + [s] && after.unreadable == before.unreadable
                             && s.id == hs[n - 1].id && s.base == hs[n - 1].base
    ensures ReadFrom(after, hs, n)
  {
    if added.Some? {
      assert added.value in after.snapshots;
      assert forall x :: x in after.snapshots <==> x in before.snapshots || x == added.value;
    }
    assert HaveHeads(after.snapshots, hs, n) by {
      hide HeadsAreRead;
    }
    assert HeadsAreRead(after, hs, n) by {
      hide HaveHeads;
    }
  }

  /** One pass of dropping leaves no delta without its base, because bases are fulls. */
  lemma LoadIsClosed(env: Env, files: Files, held: map<Id, map<nat, RankEntry>>)
    requires Index in files && env.readIndex(TrimZeros(files[Index])).Some?
    requires HeadsClosed(env.readIndex(TrimZeros(files[Index])).value.snapshots)
    ensures
      var m := LoadManifest(env, files, held);
      m.Ok? && m.value.Some? && Closed(m.value.value.snapshots)
  {
    var index := env.readIndex(TrimZeros(files[Index])).value;
    var hs := index.snapshots;
    var r := ReadHeads(env, files, held, hs, |hs|);
    ReadHeadsFrom(env, files, held, hs, |hs|);
    var ss := Loaded(index, r).snapshots;
    assert forall s :: s in ss <==> s in r.snapshots && !(s.base.Some? && s.base.value in r.unreadable);
    assert LoadManifest(env, files, held) == Ok(Some(Loaded(index, r)));
    assert HeadsClosed(hs);
    hide *;
    forall s | s in ss && s.base.Some?
      ensures exists b :: b in ss && b.id == s.base.value
    {
      BaseIsRead(hs, r, s);
    }
    ClosedByBases(ss);
  }

  lemma BaseIsRead(hs: seq<Head>, r: Reading, s: Snapshot)
    requires ReadFrom(r, hs, |hs|) && HeadsClosed(hs)
    requires s in r.snapshots && s.base.Some? && s.base.value !in r.unreadable
    ensures exists b :: b in r.snapshots && b.id == s.base.value && b.base.None?
  {
    hide *;
    var i := HeadBehind(hs, r, s);
    var j := BaseHead(hs, i);
    var b := SnapshotBehind(hs, r, j);
  }

  lemma HeadBehind(hs: seq<Head>, r: Reading, s: Snapshot) returns (i: nat)
    requires ReadFrom(r, hs, |hs|) && s in r.snapshots
    ensures i < |hs| && hs[i].base == s.base
  {
    hide HeadsAreRead;
    i :| 0 <= i < |hs| && hs[i].id == s.id && hs[i].base == s.base;
  }

  lemma BaseHead(hs: seq<Head>, i: nat) returns (j: nat)
    requires HeadsClosed(hs) && i < |hs| && hs[i].base.Some?
    ensures j < |hs| && hs[j].id == hs[i].base.value && hs[j].base.None?
  {
    assert hs[i] in hs;
    var g :| g in hs && g.id == hs[i].base.value && g.base.None?;
    j :| 0 <= j < |hs| && hs[j] == g;
  }

  lemma SnapshotBehind(hs: seq<Head>, r: Reading, j: nat) returns (b: Snapshot)
    requires ReadFrom(r, hs, |hs|) && j < |hs| && hs[j].id !in r.unreadable
    ensures b in r.snapshots && b.id == hs[j].id && b.base == hs[j].base
  {
    hide HaveHeads;
    b :| b in r.snapshots && b.id == hs[j].id && b.base == hs[j].base;
  }

  lemma ClosedByBases(ss: seq<Snapshot>)
    requires forall s :: s in ss && s.base.Some? ==> exists b :: b in ss && b.id == s.base.value
    ensures Closed(ss)
  {
  }

  /** The snapshot a head in the index stands for, when its ranks can be read. */
  function HeadReads(env: Env, files: Files, h: Head): Option<Snapshot> {
    if h.ranks.Some? then Some(SnapshotOf(h, h.ranks.value))
    else if h.ranksIn.None? then Some(SnapshotOf(h, map[]))
    else
      match ReadRanks(env, files, h.ranksIn.value, h.id)
      case None => None
      case Some(ranks) => Some(SnapshotOf(h, ranks))
  }

  lemma HeadIsRead(env: Env, files: Files, r: Reading, h: Head)
    requires r.held == map[]
    ensures
      var after := ReadHead(env, files, r, h);
      && after.held == map[]
      && match HeadReads(env, files, h)
         case None => after.snapshots == r.snapshots && after.unreadable == r.unreadable + {h.id}
         case Some(s) => after.snapshots == r.snapshots + [s] && after.unreadable == r.unreadable
  {
    hide ReadRanks;
  }

  lemma {:induction false} HeadsRead(env: Env, files: Files, hs: seq<Head>, n: nat)
    requires n <= |hs|
    ensures
      var r := ReadHeads(env, files, map[], hs, n);
      && r.held == map[]
      && (forall s :: s in r.snapshots <==> exists h :: h in hs[..n] && HeadReads(env, files, h) == Some(s))
      && forall id :: id in r.unreadable <==> exists h :: h in hs[..n] && h.id == id && HeadReads(env, files, h).None?
  {
    if n > 0 {
      HeadsRead(env, files, hs, n - 1);
      var before, h := ReadHeads(env, files, map[], hs, n - 1), hs[n - 1];
      HeadIsRead(env, files, before, h);
      assert hs[..n] == hs[..n - 1] + [h];
      hide HeadReads, ReadHead;
    }
  }

  lemma LoadedIs(index: IndexFile, r: Reading, s: Snapshot)
    ensures s in Loaded(index, r).snapshots <==> s in r.snapshots && (s.base.Some? ==> s.base.value !in r.unreadable)
  {
  }

  /**
   What an incomplete store loads as: exactly the snapshots whose ranks can be read and whose base,
   when the index names one, can be read as well.
   */
  lemma LoadsWhatIsReadable(env: Env, files: Files, s: Snapshot)
    requires Index in files && env.readIndex(TrimZeros(files[Index])).Some?
    ensures LoadManifest(env, files, map[]).Ok? && LoadManifest(env, files, map[]).value.Some?
    ensures
      var hs := env.readIndex(TrimZeros(files[Index])).value.snapshots;
      s in LoadManifest(env, files, map[]).value.value.snapshots <==>
        && (exists h :: h in hs && HeadReads(env, files, h) == Some(s))
        && forall g :: g in hs && s.base == Some(g.id) ==> HeadReads(env, files, g).Some?
  {
    var index := env.readIndex(TrimZeros(files[Index])).value;
    var hs := index.snapshots;
    HeadsRead(env, files, hs, |hs|);
    assert hs[..|hs|] == hs;
    var r := ReadHeads(env, files, map[], hs, |hs|);
    assert LoadManifest(env, files, map[]) == Ok(Some(Loaded(index, r)));
    hide *;
    LoadedIs(index, r, s);
  }
}
