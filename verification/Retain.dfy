/** Retention: first the number of fulls is capped, then the number of snapshots. */
module Retain {
  import opened Bytes
  import opened Manifest
  import opened Env
  import opened ManifestIO

  // ── Dropping snapshots ───────────────────────────────────────────

  /** The snapshots whose ids are not in `ids`, in their order. */
  function Without(ss: seq<Snapshot>, ids: set<Id>): (r: seq<Snapshot>)
    ensures forall s :: s in r <==> s in ss && s.id !in ids
    ensures |r| <= |ss|
    ensures (exists s :: s in ss && s.id in ids) ==> |r| < |ss|
  {
    if ss == [] then []
    else
      assert forall s :: s in ss <==> s == ss[0] || s in ss[1..];
      var r := Without(ss[1..], ids);
      if ss[0].id in ids then r else
        assert forall s :: s in [ss[0]] + r <==> s == ss[0] || s in r;
        [ss[0]] + r
  }

  function Only(ss: seq<Snapshot>, ids: set<Id>): (r: seq<Snapshot>)
    ensures forall s :: s in r <==> s in ss && s.id in ids
  {
    if ss == [] then []
    else
      assert forall s :: s in ss <==> s == ss[0] || s in ss[1..];
      var r := Only(ss[1..], ids);
      if ss[0].id in ids then
        assert forall s :: s in [ss[0]] + r <==> s == ss[0] || s in r;
        [ss[0]] + r
      else r
  }

  lemma {:induction false} WithoutDistinct(ss: seq<Snapshot>, ids: set<Id>)
    requires Distinct(ss)
    ensures Distinct(Without(ss, ids))
  {
    if ss != [] {
      WithoutDistinct(ss[1..], ids);
      var r := Without(ss[1..], ids);
      forall s | s in r
        ensures s.id != ss[0].id
      {
        assert s in ss[1..];
        var k :| 0 <= k < |ss[1..]| && ss[1..][k] == s;
        assert ss[k + 1] == s;
      }
      if ss[0].id !in ids {
        forall i, j | 0 <= i < j < |[ss[0]] + r|
          ensures ([ss[0]] + r)[i].id != ([ss[0]] + r)[j].id
        {
          assert ([ss[0]] + r)[j] == r[j - 1] && r[j - 1] in r;
        }
      }
    }
  }

  // ── Pass 1: fulls ────────────────────────────────────────────────

  predicate Removable(s: Snapshot, kept: set<Id>) {
    IsFull(s) && s.id !in kept
  }

  /** What a pass counts. */
  datatype Kind = FullKind | FinalizedKind | RemovableKind(kept: set<Id>) | ProtectedKind(kept: set<Id>) | IntervalKind(l: Lineage)

  predicate Has(kind: Kind, s: Snapshot) {
    match kind
    case FullKind => IsFull(s)
    case FinalizedKind => s.finalized
    case RemovableKind(kept) => Removable(s, kept)
    case ProtectedKind(kept) => IsFull(s) && s.id in kept
    case IntervalKind(l) => OnInterval(s, l)
  }

  function Count(ss: seq<Snapshot>, kind: Kind): nat {
    if ss == [] then 0 else (if Has(kind, ss[0]) then 1 else 0) + Count(ss[1..], kind)
  }

  /** The oldest full nothing protects. */
  function OldestRemovable(ss: seq<Snapshot>, kept: set<Id>): (r: Option<Snapshot>)
    ensures r.Some? ==> r.value in ss && Removable(r.value, kept)
    ensures r.None? ==> forall s :: s in ss ==> !Removable(s, kept)
  {
    if ss == [] then None
    else if Removable(ss[0], kept) then Some(ss[0])
    else OldestRemovable(ss[1..], kept)
  }

  /** A full and every delta against it. */
  function Group(ss: seq<Snapshot>, id: Id): set<Id> {
    set s | s in ss && (s.id == id || s.base == Some(id)) :: s.id
  }

  function CapFulls(ss: seq<Snapshot>, max: nat, kept: set<Id>): (r: seq<Snapshot>)
    ensures forall s :: s in r ==> s in ss
    ensures Count(r, FullKind) <= max || forall s :: s in r && IsFull(s) ==> s.id in kept
    decreases |ss|
  {
    if Count(ss, FullKind) <= max then ss
    else
      match OldestRemovable(ss, kept)
      case None => ss
      case Some(oldest) =>
        assert oldest.id in Group(ss, oldest.id);
        CapFulls(Without(ss, Group(ss, oldest.id)), max, kept)
  }

  // ── Pass 2: everything ───────────────────────────────────────────

  /** The last finalized snapshot: what a resume would take. */
  function Newest(ss: seq<Snapshot>): (r: Option<Snapshot>)
    ensures r.Some? ==> r.value in ss && r.value.finalized
    ensures r.None? ==> forall s :: s in ss ==> !s.finalized
  {
    if ss == [] then None
    else if ss[|ss| - 1].finalized then Some(ss[|ss| - 1])
    else
      assert forall s :: s in ss <==> s in ss[..|ss| - 1] || s == ss[|ss| - 1];
      Newest(ss[..|ss| - 1])
  }

  predicate Needed(ss: seq<Snapshot>, id: Id) {
    exists d :: d in ss && d.base == Some(id)
  }

  predicate Evictable(ss: seq<Snapshot>, s: Snapshot, newest: Id, kept: set<Id>) {
    s.finalized && s.id != newest && s.id !in kept && (s.base.Some? || !Needed(ss, s.id))
  }

  /** The oldest of `among` that nothing protects and nothing depends on. */
  function Candidate(ss: seq<Snapshot>, among: seq<Snapshot>, newest: Id, kept: set<Id>): (r: Option<Snapshot>)
    ensures r.Some? ==> r.value in among && Evictable(ss, r.value, newest, kept)
    ensures r.None? ==> forall s :: s in among ==> !Evictable(ss, s, newest, kept)
  {
    if among == [] then None
    else if Evictable(ss, among[0], newest, kept) then Some(among[0])
    else
      assert forall s :: s in among <==> s == among[0] || s in among[1..];
      Candidate(ss, among[1..], newest, kept)
  }

  /** Over the cap only if everything but the newest is protected, or a full something depends on. */
  predicate Stuck(ss: seq<Snapshot>, kept: set<Id>) {
    forall s :: s in ss && s.finalized && s.id !in kept && Newest(ss) != Some(s) ==>
      s.base.None? && Needed(ss, s.id)
  }

  function CapTotal(ss: seq<Snapshot>, max: nat, kept: set<Id>): (r: seq<Snapshot>)
    ensures forall s :: s in r ==> s in ss
    ensures Distinct(ss) ==> Count(r, FinalizedKind) <= max || Stuck(r, kept)
    ensures Newest(r) == Newest(ss)
    decreases |ss|
  {
    if Count(ss, FinalizedKind) <= max then ss
    else
      match Newest(ss)
      case None => ss
      case Some(newest) =>
        match Candidate(ss, ss, newest.id, kept)
        case None =>
          assert Distinct(ss) ==> Stuck(ss, kept) by {
            NothingLeftIsStuck(ss, newest, kept);
          }
          ss
        case Some(s) =>
          NewestOfRest(ss, {s.id});
          assert Distinct(ss) ==> Distinct(Without(ss, {s.id})) by {
            if Distinct(ss) {
              WithoutDistinct(ss, {s.id});
            }
          }
          CapTotal(Without(ss, {s.id}), max, kept)
  }

  lemma NothingLeftIsStuck(ss: seq<Snapshot>, newest: Snapshot, kept: set<Id>)
    requires Newest(ss) == Some(newest) && Candidate(ss, ss, newest.id, kept).None?
    ensures Distinct(ss) ==> Stuck(ss, kept)
  {
    if Distinct(ss) {
      forall s | s in ss && s.finalized && s.id !in kept && Newest(ss) != Some(s)
        ensures s.base.None? && Needed(ss, s.id)
      {
        if s.id == newest.id {
          SameId(ss, s, newest);
        }
        assert !Evictable(ss, s, newest.id, kept);
      }
    }
  }

  lemma {:induction false} WithoutSnoc(ss: seq<Snapshot>, s: Snapshot, ids: set<Id>)
    ensures Without(ss + [s], ids) == Without(ss, ids) + (if s.id in ids then [] else [s])
  {
    if ss == [] {
      assert ss + [s] == [s] && Without([], ids) == [];
      assert Without([s][1..], ids) == [];
    } else {
      assert (ss + [s])[1..] == ss[1..] + [s];
      WithoutSnoc(ss[1..], s, ids);
    }
  }

  lemma {:induction false} NewestOfRest(ss: seq<Snapshot>, ids: set<Id>)
    requires Newest(ss).Some? && Newest(ss).value.id !in ids
    ensures Newest(Without(ss, ids)) == Newest(ss)
  {
    var last, init := ss[|ss| - 1], ss[..|ss| - 1];
    var r := Without(init, ids);
    assert init + [last] == ss && r + [] == r;
    assert ss != [];
    hide *;
    WithoutSnoc(init, last, ids);
    NewestSnoc(init, last);
    NewestSnoc(r, last);
    if !last.finalized {
      NewestOfRest(init, ids);
    }
  }

  lemma NewestSnoc(ss: seq<Snapshot>, last: Snapshot)
    ensures Newest(ss + [last]) == if last.finalized then Some(last) else Newest(ss)
  {
    assert (ss + [last])[..|ss|] == ss;
  }

  // ── What retention keeps ─────────────────────────────────────────

  /** A manifest worth the name: distinct ids, every delta's base there, every base a full. */
  predicate Sound(ss: seq<Snapshot>) {
    Distinct(ss) && Closed(ss) && BasesAreFull(ss)
  }

  predicate KeptIsClosed(ss: seq<Snapshot>, kept: set<Id>) {
    forall s :: s in ss && s.id in kept && s.base.Some? ==> s.base.value in kept
  }

  lemma DropKeepsSound(ss: seq<Snapshot>, ids: set<Id>)
    requires Sound(ss) && forall s :: s in ss && s.base.Some? && s.base.value in ids ==> s.id in ids
    ensures Sound(Without(ss, ids))
  {
    WithoutDistinct(ss, ids);
    var r := Without(ss, ids);
    forall s | s in r && s.base.Some?
      ensures s.base.value in Ids(r)
    {
      var b :| b in ss && b.id == s.base.value;
      assert b in r;
    }
  }

  lemma GroupIsComplete(ss: seq<Snapshot>, oldest: Snapshot)
    requires Sound(ss) && oldest in ss && IsFull(oldest)
    ensures
      var ids := Group(ss, oldest.id);
      forall s :: s in ss && s.base.Some? && s.base.value in ids ==> s.id in ids
  {
    forall s | s in ss && s.base.Some? && s.base.value in Group(ss, oldest.id)
      ensures s.base == Some(oldest.id)
    {
      var b :| b in ss && (b.id == oldest.id || b.base == Some(oldest.id)) && b.id == s.base.value;
      assert s.base == Some(b.id);
    }
  }

  lemma {:induction false} CapFullsKeeps(ss: seq<Snapshot>, max: nat, kept: set<Id>)
    requires Sound(ss) && KeptIsClosed(ss, kept)
    ensures Sound(CapFulls(ss, max, kept))
    ensures forall s :: s in ss && s.id in kept ==> s in CapFulls(ss, max, kept)
    decreases |ss|
  {
    if Count(ss, FullKind) > max && OldestRemovable(ss, kept).Some? {
      var oldest := OldestRemovable(ss, kept).value;
      var ids := Group(ss, oldest.id);
      GroupIsComplete(ss, oldest);
      DropKeepsSound(ss, ids);
      assert oldest.id in ids;
      assert forall s :: s in ss && s.id in kept ==> s.id !in ids by {
        forall s | s in ss && s.id in ids
          ensures s.id !in kept
        {
          var t :| t in ss && (t.id == oldest.id || t.base == Some(oldest.id)) && t.id == s.id;
          SameId(ss, s, t);
        }
      }
      hide Sound, Group;
      CapFullsKeeps(Without(ss, ids), max, kept);
    }
  }

  lemma {:induction false} CapTotalKeeps(ss: seq<Snapshot>, max: nat, kept: set<Id>)
    requires Sound(ss)
    ensures Sound(CapTotal(ss, max, kept))
    ensures forall s :: s in ss && s.id in kept ==> s in CapTotal(ss, max, kept)
    decreases |ss|
  {
    if Count(ss, FinalizedKind) > max && Newest(ss).Some? {
      var candidate := Candidate(ss, ss, Newest(ss).value.id, kept);
      if candidate.Some? {
        var s := candidate.value;
        forall d | d in ss
          ensures d.base != Some(s.id)
        {
          assert d.base == Some(s.id) ==> s.base.None? && Needed(ss, s.id);
        }
        DropKeepsSound(ss, {s.id});
        hide Sound;
        CapTotalKeeps(Without(ss, {s.id}), max, kept);
      }
    }
  }

  function RetainedOf(m: Manifest): seq<Snapshot> {
    CapTotal(CapFulls(m.snapshots, m.retention.maxFullSnapshots, Protected(m)), m.retention.EffectiveTotalCap(),
             Protected(m))
  }

  /** Whatever retention drops, no delta is left without its base and nothing protected goes. */
  lemma RetentionKeeps(m: Manifest)
    requires Sound(m.snapshots)
    ensures Sound(RetainedOf(m))
    ensures forall s :: s in RetainedOf(m) ==> s in m.snapshots
    ensures forall s :: s in m.snapshots && s.id in Protected(m) ==> s in RetainedOf(m)
    ensures Count(RetainedOf(m), FinalizedKind) <= m.retention.EffectiveTotalCap() || Stuck(RetainedOf(m), Protected(m))
  {
    ProtectedIsClosed(m);
    var kept := Protected(m);
    var first := CapFulls(m.snapshots, m.retention.maxFullSnapshots, kept);
    CapFullsKeeps(m.snapshots, m.retention.maxFullSnapshots, kept);
    CapTotalKeeps(first, m.retention.EffectiveTotalCap(), kept);
  }

  // ── Exactly which fulls survive the first pass ───────────────────

  /** The snapshots from `id` on. */
  function From(ss: seq<Snapshot>, id: Id): seq<Snapshot> {
    if ss == [] || ss[0].id == id then ss else From(ss[1..], id)
  }

  lemma {:induction false} CountsAdd(ss: seq<Snapshot>, kept: set<Id>)
    ensures Count(ss, FullKind) == Count(ss, RemovableKind(kept)) + Count(ss, ProtectedKind(kept))
  {
    if ss != [] {
      CountsAdd(ss[1..], kept);
    }
  }

  lemma {:induction false} CountWithout(ss: seq<Snapshot>, ids: set<Id>, kind: Kind)
    requires forall s :: s in ss && Has(kind, s) ==> s.id !in ids
    ensures Count(Without(ss, ids), kind) == Count(ss, kind)
  {
    hide Has;
    if ss != [] {
      CountWithout(ss[1..], ids, kind);
      assert ss[0] in ss;
    }
  }

  lemma {:induction false} CountFromWithout(ss: seq<Snapshot>, ids: set<Id>, kind: Kind, id: Id)
    requires id !in ids && id in Ids(ss) && Distinct(ss)
    requires forall s :: s in From(ss, id) && Has(kind, s) ==> s.id !in ids
    ensures Count(From(Without(ss, ids), id), kind) == Count(From(ss, id), kind)
  {
    hide Has;
    if ss[0].id == id {
      CountWithout(ss, ids, kind);
    } else {
      assert forall s :: s in ss <==> s == ss[0] || s in ss[1..];
      CountFromWithout(ss[1..], ids, kind, id);
    }
  }

  lemma {:induction false} FromIsAll(ss: seq<Snapshot>, kept: set<Id>)
    requires OldestRemovable(ss, kept).Some? && Distinct(ss)
    ensures Count(From(ss, OldestRemovable(ss, kept).value.id), RemovableKind(kept)) == Count(ss, RemovableKind(kept))
  {
    if !Removable(ss[0], kept) {
      var oldest := OldestRemovable(ss, kept).value;
      assert oldest in ss[1..];
      var k :| 0 <= k < |ss[1..]| && ss[1..][k] == oldest;
      assert ss[k + 1] == oldest && ss[0].id != oldest.id;
      FromIsAll(ss[1..], kept);
    }
  }

  lemma {:induction false} FromMembers(ss: seq<Snapshot>, id: Id)
    ensures forall s :: s in From(ss, id) ==> s in ss
  {
    if ss != [] && ss[0].id != id {
      FromMembers(ss[1..], id);
    }
  }

  /** The oldest removable full comes before every other, so it is not among those from `f` on. */
  lemma {:induction false} OldestIsFirst(ss: seq<Snapshot>, kept: set<Id>, f: Snapshot)
    requires Distinct(ss) && f in ss && Removable(f, kept) && OldestRemovable(ss, kept) != Some(f)
    ensures forall s :: s in From(ss, f.id) ==> Some(s) != OldestRemovable(ss, kept)
  {
    if Removable(ss[0], kept) {
      assert f in ss[1..];
      FromMembers(ss[1..], f.id);
      forall s | s in From(ss, f.id)
        ensures s != ss[0]
      {
        assert s in ss[1..];
        var k :| 0 <= k < |ss[1..]| && ss[1..][k] == s;
        assert ss[k + 1] == s;
      }
    } else {
      assert f in ss[1..];
      var k :| 0 <= k < |ss[1..]| && ss[1..][k] == f;
      assert ss[k + 1] == f;
      OldestIsFirst(ss[1..], kept, f);
    }
  }

  /**
   An unprotected full survives the first pass exactly when it, the unprotected fulls after it
   and every protected full together fit under the cap.
   */
  lemma {:induction false} FullSurvivesIff(ss: seq<Snapshot>, max: nat, kept: set<Id>, f: Snapshot)
    requires Sound(ss) && KeptIsClosed(ss, kept) && f in ss && Removable(f, kept)
    ensures f in CapFulls(ss, max, kept) <==>
            Count(From(ss, f.id), RemovableKind(kept)) + Count(ss, ProtectedKind(kept)) <= max
    decreases |ss|
  {
    CountsAdd(ss, kept);
    var oldest := OldestRemovable(ss, kept).value;
    var ids := Group(ss, oldest.id);
    assert oldest.id in ids;
    if Count(ss, FullKind) <= max {
      FromAtMost(ss, f.id, RemovableKind(kept));
    } else if f.id == oldest.id {
      SameId(ss, f, oldest);
      FromIsAll(ss, kept);
    } else {
      OldestIsFirst(ss, kept, f);
      GroupOutside(ss, oldest, kept, f);
      GroupIsComplete(ss, oldest);
      DropKeepsSound(ss, ids);
      CountWithout(ss, ids, ProtectedKind(kept));
      CountFromWithout(ss, ids, RemovableKind(kept), f.id);
      hide Sound, Group, Has;
      FullSurvivesIff(Without(ss, ids), max, kept, f);
    }
  }

  lemma {:induction false} FromAtMost(ss: seq<Snapshot>, id: Id, kind: Kind)
    ensures Count(From(ss, id), kind) <= Count(ss, kind)
  {
    if ss != [] && ss[0].id != id {
      FromAtMost(ss[1..], id, kind);
    }
  }

  lemma GroupOutside(ss: seq<Snapshot>, oldest: Snapshot, kept: set<Id>, f: Snapshot)
    requires Distinct(ss) && f in ss && Removable(f, kept) && oldest in ss && Removable(oldest, kept)
             && f.id != oldest.id
    requires forall s :: s in From(ss, f.id) ==> s != oldest
    ensures f.id !in Group(ss, oldest.id)
    ensures forall s :: s in ss && Has(ProtectedKind(kept), s) ==> s.id !in Group(ss, oldest.id)
    ensures forall s :: s in From(ss, f.id) && Has(RemovableKind(kept), s) ==> s.id !in Group(ss, oldest.id)
  {
    FromMembers(ss, f.id);
    forall s | s in ss && IsFull(s) && s.id in Group(ss, oldest.id)
      ensures s == oldest
    {
      var t :| t in ss && (t.id == oldest.id || t.base == Some(oldest.id)) && t.id == s.id;
      SameId(ss, s, t);
      SameId(ss, s, if s.id == oldest.id then oldest else s);
    }
  }

  /** A delta goes with its base and stays with it. */
  lemma {:induction false} DeltaFollowsBase(ss: seq<Snapshot>, max: nat, kept: set<Id>, d: Snapshot, b: Snapshot)
    requires Sound(ss) && d in ss && b in ss && d.base == Some(b.id)
    ensures d in CapFulls(ss, max, kept) <==> b in CapFulls(ss, max, kept)
    decreases |ss|
  {
    if Count(ss, FullKind) > max && OldestRemovable(ss, kept).Some? {
      var oldest := OldestRemovable(ss, kept).value;
      var ids := Group(ss, oldest.id);
      assert oldest.id in ids;
      InGroup(ss, oldest, d);
      InGroup(ss, oldest, b);
      GroupIsComplete(ss, oldest);
      DropKeepsSound(ss, ids);
      hide Sound, Group;
      if d.id !in ids {
        DeltaFollowsBase(Without(ss, ids), max, kept, d, b);
      }
    }
  }

  lemma InGroup(ss: seq<Snapshot>, oldest: Snapshot, s: Snapshot)
    requires Sound(ss) && s in ss && oldest in ss && oldest.base.None?
    ensures s.id in Group(ss, oldest.id) <==> s.id == oldest.id || s.base == Some(oldest.id)
    ensures s.base.Some? ==> s.id != oldest.id
    ensures forall d :: d in ss && d.base == Some(s.id) ==> s.base.None?
  {
    if s.id in Group(ss, oldest.id) {
      var t :| t in ss && (t.id == oldest.id || t.base == Some(oldest.id)) && t.id == s.id;
      SameId(ss, s, t);
    }
    if s.id == oldest.id {
      SameId(ss, s, oldest);
    }
  }

  /** Whatever is neither a finalized full nor a delta is not the first pass's business. */
  lemma {:induction false} OthersStay(ss: seq<Snapshot>, max: nat, kept: set<Id>, s: Snapshot)
    requires Sound(ss) && s in ss && s.base.None? && !s.finalized
    ensures s in CapFulls(ss, max, kept)
    decreases |ss|
  {
    if Count(ss, FullKind) > max && OldestRemovable(ss, kept).Some? {
      var oldest := OldestRemovable(ss, kept).value;
      var ids := Group(ss, oldest.id);
      assert oldest.id in ids;
      InGroup(ss, oldest, s);
      if s.id == oldest.id {
        SameId(ss, s, oldest);
      }
      GroupIsComplete(ss, oldest);
      DropKeepsSound(ss, ids);
      hide Sound, Group;
      OthersStay(Without(ss, ids), max, kept, s);
    }
  }

  // ── Exactly which snapshots the second pass takes ────────────────

  /** Dropping some leaves the rest in their order. */
  lemma {:induction false} FromWithout(ss: seq<Snapshot>, ids: set<Id>, t: Snapshot, s: Snapshot)
    requires Distinct(ss) && t in ss && t.id !in ids && s.id !in ids && s in From(ss, t.id)
    ensures s in From(Without(ss, ids), t.id)
  {
    if ss[0].id == t.id {
      SameId(ss, ss[0], t);
    } else {
      assert forall x :: x in ss <==> x == ss[0] || x in ss[1..];
      FromWithout(ss[1..], ids, t, s);
    }
  }

  /** The one taken has nothing that could be taken before it. */
  lemma {:induction false} CandidateIsFirst(
      ss: seq<Snapshot>, among: seq<Snapshot>, newest: Id, kept: set<Id>, t: Snapshot)
    requires Distinct(among) && t in among && Evictable(ss, t, newest, kept)
    ensures
      var c := Candidate(ss, among, newest, kept);
      c.Some? && (c.value == t || c.value !in From(among, t.id))
  {
    hide Evictable;
    if Evictable(ss, among[0], newest, kept) {
      if among[0] != t {
        assert t in among[1..];
        NotAmongRest(among);
        FromMembers(among[1..], t.id);
        FirstIsOther(among, t);
      }
    } else {
      assert t in among[1..];
      FirstIsOther(among, t);
      CandidateIsFirst(ss, among[1..], newest, kept, t);
    }
  }

  lemma NotAmongRest(ss: seq<Snapshot>)
    requires Distinct(ss) && ss != []
    ensures forall s :: s in ss[1..] ==> s != ss[0]
  {
    forall s | s in ss[1..]
      ensures s != ss[0]
    {
      var k :| 0 <= k < |ss[1..]| && ss[1..][k] == s;
      assert ss[k + 1] == s;
    }
  }

  lemma FirstIsOther(ss: seq<Snapshot>, t: Snapshot)
    requires Distinct(ss) && ss != [] && t in ss[1..]
    ensures ss[0].id != t.id
  {
    var k :| 0 <= k < |ss[1..]| && ss[1..][k] == t;
    assert ss[k + 1] == t;
  }

  lemma {:induction false} NoneAfterNewest(ss: seq<Snapshot>, newest: Snapshot, s: Snapshot)
    requires Distinct(ss) && Newest(ss) == Some(newest) && s in From(ss, newest.id) && s != newest
    ensures !s.finalized
  {
    var last, init := ss[|ss| - 1], ss[..|ss| - 1];
    assert ss == init + [last];
    if last.finalized {
      FromLast(init, last);
    } else if s != last {
      FromSnoc(init, last, newest.id);
      NoneAfterNewest(init, newest, s);
    }
  }

  lemma {:induction false} FromLast(ss: seq<Snapshot>, last: Snapshot)
    requires Distinct(ss + [last])
    ensures From(ss + [last], last.id) == [last]
  {
    if ss != [] {
      assert (ss + [last])[1..] == ss[1..] + [last] && (ss + [last])[|ss|] == last;
      FromLast(ss[1..], last);
    } else {
      assert ss + [last] == [last];
    }
  }

  lemma {:induction false} FromSnoc(ss: seq<Snapshot>, last: Snapshot, id: Id)
    requires id in Ids(ss)
    ensures From(ss + [last], id) == From(ss, id) + [last]
  {
    if ss[0].id != id {
      assert (ss + [last])[1..] == ss[1..] + [last];
      assert forall x :: x in ss <==> x == ss[0] || x in ss[1..];
      FromSnoc(ss[1..], last, id);
    }
  }

  /** A pass one takes from is left with one snapshot fewer. */
  lemma {:induction false} CountWithoutOne(ss: seq<Snapshot>, s: Snapshot, kind: Kind)
    requires Distinct(ss) && s in ss && Has(kind, s)
    ensures Count(Without(ss, {s.id}), kind) == Count(ss, kind) - 1
  {
    hide Has;
    if ss[0] == s {
      forall x | x in ss[1..]
        ensures x.id != s.id
      {
        FirstIsOther(ss, x);
      }
      CountWithout(ss[1..], {s.id}, kind);
    } else {
      assert s in ss[1..];
      FirstIsOther(ss, s);
      CountWithoutOne(ss[1..], s, kind);
    }
  }

  /** Nothing goes from a list within the cap, and no list is taken below it. */
  lemma {:induction false} CapTotalCounts(ss: seq<Snapshot>, max: nat, kept: set<Id>)
    requires Distinct(ss)
    ensures Count(ss, FinalizedKind) <= max ==> CapTotal(ss, max, kept) == ss
    ensures Count(ss, FinalizedKind) > max ==> Count(CapTotal(ss, max, kept), FinalizedKind) >= max
    decreases |ss|
  {
    if Count(ss, FinalizedKind) > max && Newest(ss).Some? {
      var candidate := Candidate(ss, ss, Newest(ss).value.id, kept);
      if candidate.Some? {
        var s := candidate.value;
        WithoutDistinct(ss, {s.id});
        CountWithoutOne(ss, s, FinalizedKind);
        hide Candidate, Count, Newest, Distinct;
        CapTotalCounts(Without(ss, {s.id}), max, kept);
      }
    }
  }

  /** As long as something is still to go, the pass takes its candidate. */
  lemma TakesCandidate(ss: seq<Snapshot>, max: nat, kept: set<Id>, s: Snapshot)
    requires s in ss && s !in CapTotal(ss, max, kept)
    ensures Newest(ss).Some? && Candidate(ss, ss, Newest(ss).value.id, kept).Some?
    ensures
      var c := Candidate(ss, ss, Newest(ss).value.id, kept).value;
      c in ss && c.finalized && c.id != Newest(ss).value.id && |Without(ss, {c.id})| < |ss|
      && CapTotal(ss, max, kept) == CapTotal(Without(ss, {c.id}), max, kept)
  {
    hide Count, Newest, Candidate;
  }

  /** Only what is finalized, unprotected and not the newest goes, and a full only once every delta on it has. */
  lemma {:induction false} TakenFor(ss: seq<Snapshot>, max: nat, kept: set<Id>, s: Snapshot)
    requires Distinct(ss) && s in ss && s !in CapTotal(ss, max, kept)
    ensures s.finalized && s.id !in kept && Newest(ss) != Some(s)
    ensures s.base.Some? || !Needed(CapTotal(ss, max, kept), s.id)
    decreases |ss|
  {
    TakesCandidate(ss, max, kept, s);
    var c := Candidate(ss, ss, Newest(ss).value.id, kept).value;
    hide CapTotal, Newest, Count;
    if s.id == c.id {
      SameId(ss, s, c);
      TakenIsNotNeeded(ss, c, Newest(ss).value.id, max, kept);
    } else {
      WithoutDistinct(ss, {c.id});
      NewestOfRest(ss, {c.id});
      hide Candidate, Distinct;
      TakenFor(Without(ss, {c.id}), max, kept, s);
    }
  }

  lemma TakenIsNotNeeded(ss: seq<Snapshot>, c: Snapshot, newest: Id, max: nat, kept: set<Id>)
    requires Evictable(ss, c, newest, kept)
    ensures c.base.Some? || !Needed(CapTotal(Without(ss, {c.id}), max, kept), c.id)
  {
  }

  /** Neither `t` nor what it takes to be taken changes when something else goes. */
  lemma StillThere(ss: seq<Snapshot>, c: Snapshot, max: nat, kept: set<Id>, t: Snapshot, s: Snapshot)
    requires Distinct(ss) && c in ss && t in ss && s in ss && c != t && c != s && s in From(ss, t.id)
    ensures
      var rest := Without(ss, {c.id});
      Distinct(rest) && t in rest && s in From(rest, t.id) && (Needed(rest, t.id) ==> Needed(ss, t.id))
  {
    OtherIds(ss, c, t);
    OtherIds(ss, c, s);
    WithoutDistinct(ss, {c.id});
    hide Distinct, From;
    FromWithout(ss, {c.id}, t, s);
  }

  /** What is older than a finalized snapshot, and could be taken, is taken or has its turn first. */
  lemma OlderHasItsTurn(ss: seq<Snapshot>, kept: set<Id>, t: Snapshot, s: Snapshot)
    requires Distinct(ss) && t in ss && s in From(ss, t.id) && s != t && s.finalized && Newest(ss).Some?
    requires t.finalized && t.id !in kept && (t.base.Some? || !Needed(ss, t.id))
    ensures Candidate(ss, ss, Newest(ss).value.id, kept) != Some(s)
  {
    var newest := Newest(ss).value;
    if t.id == newest.id {
      SameId(ss, t, newest);
      NoneAfterNewest(ss, newest, s);
    } else {
      CandidateIsFirst(ss, ss, newest.id, kept, t);
    }
  }

  /** Oldest first: what is older than a snapshot that goes, and could go itself, is gone as well. */
  lemma {:induction false} OlderGoesFirst(ss: seq<Snapshot>, max: nat, kept: set<Id>, t: Snapshot, s: Snapshot)
    requires Distinct(ss) && t in ss && s in From(ss, t.id) && s !in CapTotal(ss, max, kept)
    requires t.finalized && t.id !in kept && (t.base.Some? || !Needed(ss, t.id))
    ensures t !in CapTotal(ss, max, kept)
    decreases |ss|
  {
    hide *;
    FromMembers(ss, t.id);
    if s != t {
      TakenFor(ss, max, kept, s);
      TakesCandidate(ss, max, kept, s);
      var c := Candidate(ss, ss, Newest(ss).value.id, kept).value;
      OlderHasItsTurn(ss, kept, t, s);
      if c != t {
        StillThere(ss, c, max, kept, t, s);
        OlderGoesFirst(Without(ss, {c.id}), max, kept, t, s);
      } else {
        IsGone(ss, t, max, kept);
      }
    }
  }

  lemma IsGone(ss: seq<Snapshot>, t: Snapshot, max: nat, kept: set<Id>)
    ensures t !in CapTotal(Without(ss, {t.id}), max, kept)
  {
  }

  lemma OtherIds(ss: seq<Snapshot>, a: Snapshot, b: Snapshot)
    requires Distinct(ss) && a in ss && b in ss && a != b
    ensures a.id != b.id
  {
    if a.id == b.id {
      SameId(ss, a, b);
    }
  }

  lemma {:induction false} CapFullsKeepsOrder(ss: seq<Snapshot>, max: nat, kept: set<Id>, t: Snapshot, s: Snapshot)
    requires Distinct(ss) && t in ss && s in From(ss, t.id)
    requires t in CapFulls(ss, max, kept) && s in CapFulls(ss, max, kept)
    ensures Distinct(CapFulls(ss, max, kept)) && s in From(CapFulls(ss, max, kept), t.id)
    decreases |ss|
  {
    if Count(ss, FullKind) > max && OldestRemovable(ss, kept).Some? {
      var ids := Group(ss, OldestRemovable(ss, kept).value.id);
      assert OldestRemovable(ss, kept).value.id in ids;
      WithoutDistinct(ss, ids);
      FromWithout(ss, ids, t, s);
      hide Distinct, From, Group, Count;
      CapFullsKeepsOrder(Without(ss, ids), max, kept, t, s);
    }
  }

  /**
   Of the deltas whose bases stay, retention takes the oldest first: when one goes, every older one
   that nothing protects is gone too, and no more go than the cap on the total asks for.
   */
  lemma OldestDeltasGoFirst(m: Manifest, t: Snapshot, s: Snapshot)
    requires Sound(m.snapshots) && t in m.snapshots && s in From(m.snapshots, t.id)
    requires t.finalized && t.base.Some? && t.id !in Protected(m)
    requires s.base.Some? && s.base.value in Ids(RetainedOf(m)) && s !in RetainedOf(m)
    ensures t !in RetainedOf(m)
    ensures Count(RetainedOf(m), FinalizedKind) >= m.retention.EffectiveTotalCap()
    ensures s.finalized && s.id !in Protected(m) && Newest(RetainedOf(m)) != Some(s)
  {
    var ss, kept, max := m.snapshots, Protected(m), m.retention.maxFullSnapshots;
    var first, cap := CapFulls(ss, max, kept), m.retention.EffectiveTotalCap();
    ProtectedIsClosed(m);
    CapFullsKeeps(ss, max, kept);
    FromMembers(ss, t.id);
    hide Protected, CapFulls, Candidate, Newest, Count, Distinct, Closed, BasesAreFull, From;
    var b :| b in RetainedOf(m) && b.id == s.base.value;
    assert b in first;
    DeltaFollowsBase(ss, max, kept, s, b);
    CapTotalCounts(first, cap, kept);
    TakenFor(first, cap, kept, s);
    if t in first {
      CapFullsKeepsOrder(ss, max, kept, t, s);
      OlderGoesFirst(first, cap, kept, t, s);
    }
  }

  /** Retention leaves a list that fits both caps as it is. */
  lemma NothingGoesWithinTheCaps(m: Manifest)
    requires Distinct(m.snapshots)
    requires Count(m.snapshots, FullKind) <= m.retention.maxFullSnapshots
    requires Count(m.snapshots, FinalizedKind) <= m.retention.EffectiveTotalCap()
    ensures RetainedOf(m) == m.snapshots
  {
    CapTotalCounts(m.snapshots, m.retention.EffectiveTotalCap(), Protected(m));
  }

  /** A cap on the total that was set is the one that counts: exactly that many are left, where they can be. */
  lemma TheCapThatIsSetCounts(m: Manifest, cap: nat)
    requires Sound(m.snapshots) && m.retention.maxTotalSnapshots == Some(cap)
    ensures Count(RetainedOf(m), FinalizedKind) <= cap || Stuck(RetainedOf(m), Protected(m))
    ensures
      Count(m.snapshots, FullKind) <= m.retention.maxFullSnapshots && Count(m.snapshots, FinalizedKind) >= cap
      && !Stuck(RetainedOf(m), Protected(m))
      ==> Count(RetainedOf(m), FinalizedKind) == cap
  {
    RetentionKeeps(m);
    CapTotalCounts(m.snapshots, cap, Protected(m));
    hide Stuck, Protected, Sound, CapTotal;
  }

  // ── The cap on the total ─────────────────────────────────────────

  function Joined(groups: seq<seq<Snapshot>>): seq<Snapshot> {
    if groups == [] then [] else Joined(groups[..|groups| - 1]) + groups[|groups| - 1]
  }

  function Times(n: nat, each: nat): nat {
    if n == 0 then 0 else Times(n - 1, each) + each
  }

  lemma {:induction false} TimesIs(n: nat, each: nat)
    ensures Times(n, each) == n * each
  {
    if n > 0 {
      TimesIs(n - 1, each);
      assert n * each == (n - 1) * each + each;
    }
  }

  lemma {:induction false} JoinedSize(groups: seq<seq<Snapshot>>, each: nat)
    requires forall g :: g in groups ==> |g| <= each
    ensures |Joined(groups)| <= Times(|groups|, each)
    ensures (forall g :: g in groups ==> |g| == each) ==> |Joined(groups)| == Times(|groups|, each)
  {
    if groups != [] {
      var init, last := groups[..|groups| - 1], groups[|groups| - 1];
      assert last in groups && forall g :: g in init ==> g in groups;
      JoinedSize(init, each);
    }
  }

  /**
   A cap nobody set never cuts into what the other two limits allow: as many fulls as may be kept,
   each with as many deltas as it may have, just fit it.
   */
  lemma DefaultCapFits(r: Retention, groups: seq<seq<Snapshot>>)
    requires r.maxTotalSnapshots.None? && |groups| == r.maxFullSnapshots
    requires forall g :: g in groups ==> |g| <= 1 + r.maxDeltasPerFull
    ensures |Joined(groups)| <= r.EffectiveTotalCap()
    ensures (forall g :: g in groups ==> |g| == 1 + r.maxDeltasPerFull) ==> |Joined(groups)| == r.EffectiveTotalCap()
  {
    JoinedSize(groups, 1 + r.maxDeltasPerFull);
    TimesIs(|groups|, 1 + r.maxDeltasPerFull);
  }

  // ── Rollback points ──────────────────────────────────────────────

  lemma {:induction false} CountSnoc(ss: seq<Snapshot>, last: Snapshot, kind: Kind)
    ensures Count(ss + [last], kind) == Count(ss, kind) + if Has(kind, last) then 1 else 0
  {
    hide Has;
    if ss == [] {
      assert ss + [last] == [last] && [last][1..] == [];
    } else {
      assert (ss + [last])[1..] == ss[1..] + [last];
      CountSnoc(ss[1..], last, kind);
    }
  }

  /** The rollback points are the newest fulls on the interval: those with fewer than `max` of them after them. */
  lemma {:induction false} RollbackIsNewest(ss: seq<Snapshot>, l: Lineage, max: nat, s: Snapshot)
    requires Distinct(ss) && s in ss
    ensures s.id in RollbackOf(ss, l, max) <==> OnInterval(s, l) && Count(From(ss, s.id), IntervalKind(l)) <= max
  {
    var last, init := ss[|ss| - 1], ss[..|ss| - 1];
    assert ss == init + [last];
    hide OnInterval, Has;
    if s == last {
      FromLast(init, last);
      LastOnInterval(ss, l, max);
    } else {
      OtherIds(ss, s, last);
      FromSnoc(init, last, s.id);
      CountSnoc(From(init, s.id), last, IntervalKind(l));
      IntervalIs(last, l);
      if max > 0 {
        RollbackIsNewest(init, l, if OnInterval(last, l) then max - 1 else max, s);
      } else if OnInterval(s, l) {
        FromMeets(init, s);
        CountsSome(From(init, s.id), s, IntervalKind(l));
      }
    }
  }

  lemma IntervalIs(s: Snapshot, l: Lineage)
    ensures Has(IntervalKind(l), s) <==> OnInterval(s, l)
  {
  }

  lemma LastOnInterval(ss: seq<Snapshot>, l: Lineage, max: nat)
    requires Distinct(ss) && ss != []
    ensures
      var last := ss[|ss| - 1];
      last.id in RollbackOf(ss, l, max) <==> OnInterval(last, l) && Count([last], IntervalKind(l)) <= max
  {
    var last, init := ss[|ss| - 1], ss[..|ss| - 1];
    assert Count([last], IntervalKind(l))
           == (if OnInterval(last, l) then 1 else 0) + Count([last][1..], IntervalKind(l));
    LastIsNew(ss);
  }

  lemma LastIsNew(ss: seq<Snapshot>)
    requires Distinct(ss) && ss != []
    ensures forall s :: s in ss[..|ss| - 1] ==> s.id != ss[|ss| - 1].id
  {
  }

  lemma {:induction false} FromMeets(ss: seq<Snapshot>, s: Snapshot)
    requires s in ss
    ensures s in From(ss, s.id)
  {
    if ss[0].id != s.id {
      FromMeets(ss[1..], s);
    }
  }

  lemma {:induction false} CountsSome(ss: seq<Snapshot>, s: Snapshot, kind: Kind)
    requires s in ss && Has(kind, s)
    ensures Count(ss, kind) > 0
  {
    if ss[0] != s {
      CountsSome(ss[1..], s, kind);
    }
  }

  /** Retention keeps each of them, and the base of none can be missing: a rollback point is a full. */
  lemma RollbackPointsStay(m: Manifest, s: Snapshot)
    requires Sound(m.snapshots) && s in m.snapshots && IsFull(s)
    requires m.lineage.rollbackIntervalSteps > 0 && s.step % m.lineage.rollbackIntervalSteps == 0
    requires Count(From(m.snapshots, s.id), IntervalKind(m.lineage)) <= m.lineage.maxRollbackSnapshots
    ensures s in RetainedOf(m)
  {
    RollbackIsNewest(m.snapshots, m.lineage, m.lineage.maxRollbackSnapshots, s);
    assert s.id in Protected(m);
    hide RetainedOf, Protected, Count, From;
    RetentionKeeps(m);
  }

  // ── The newest checkpoint ────────────────────────────────────────

  lemma {:induction false} NewestOfCapped(ss: seq<Snapshot>, max: nat, kept: set<Id>)
    requires Distinct(ss) && Newest(ss).Some? && Newest(ss).value in CapFulls(ss, max, kept)
    ensures Newest(CapFulls(ss, max, kept)) == Newest(ss)
    decreases |ss|
  {
    if Count(ss, FullKind) > max && OldestRemovable(ss, kept).Some? {
      var ids := Group(ss, OldestRemovable(ss, kept).value.id);
      assert OldestRemovable(ss, kept).value.id in ids;
      WithoutDistinct(ss, ids);
      NewestOfRest(ss, ids);
      NewestOfCapped(Without(ss, ids), max, kept);
    }
  }

  /** The full a snapshot needs: itself, or its base. */
  predicate HeldUpBy(ss: seq<Snapshot>, s: Snapshot, f: Snapshot) {
    s in ss && f in ss && IsFull(f) && (s == f || s.base == Some(f.id))
  }

  /** The newest checkpoint survives retention exactly when the full holding it up survives the first pass. */
  lemma NewestSurvivesIff(m: Manifest, newest: Snapshot, f: Snapshot)
    requires Sound(m.snapshots) && Newest(m.snapshots) == Some(newest) && HeldUpBy(m.snapshots, newest, f)
    ensures newest in RetainedOf(m) <==>
            f.id in Protected(m)
            || Count(From(m.snapshots, f.id), RemovableKind(Protected(m))) +
               Count(m.snapshots, ProtectedKind(Protected(m)))
               <= m.retention.maxFullSnapshots
  {
    ProtectedIsClosed(m);
    var ss, kept, max := m.snapshots, Protected(m), m.retention.maxFullSnapshots;
    var first := CapFulls(ss, max, kept);
    if newest != f {
      DeltaFollowsBase(ss, max, kept, newest, f);
    }
    if f.id in kept {
      CapFullsKeeps(ss, max, kept);
    } else {
      FullSurvivesIff(ss, max, kept, f);
    }
    if newest in first {
      NewestOfCapped(ss, max, kept);
    }
  }

  /** While fewer fulls are protected than may be kept, a newest checkpoint on the last full always stays. */
  lemma NewestStaysWhileThereIsRoom(m: Manifest, newest: Snapshot)
    requires Sound(m.snapshots) && Newest(m.snapshots) == Some(newest)
    requires LastFull(m.snapshots).Some? && HeldUpBy(m.snapshots, newest, LastFull(m.snapshots).value)
    requires Count(m.snapshots, ProtectedKind(Protected(m))) < m.retention.maxFullSnapshots
    ensures newest in RetainedOf(m)
  {
    var f := LastFull(m.snapshots).value;
    NoneAfterLast(m.snapshots, f, Protected(m));
    NewestSurvivesIff(m, newest, f);
  }

  lemma {:induction false} NoneAfterLast(ss: seq<Snapshot>, f: Snapshot, kept: set<Id>)
    requires Distinct(ss) && LastFull(ss) == Some(f)
    ensures Count(From(ss, f.id), RemovableKind(kept)) <= 1
  {
    LastFullSplits(ss);
    if ss[0].id == f.id {
      SameId(ss, ss[0], f);
      NoFulls(ss[1..], kept);
    } else {
      NoneAfterLast(ss[1..], f, kept);
    }
  }

  lemma {:induction false} LastFullSplits(ss: seq<Snapshot>)
    requires ss != []
    ensures LastFull(ss) == if LastFull(ss[1..]).Some? then LastFull(ss[1..]) else if IsFull(ss[0]) then Some(ss[0])
            else None
  {
    if |ss| > 1 {
      assert ss[..|ss| - 1][1..] == ss[1..][..|ss| - 2];
      LastFullSplits(ss[..|ss| - 1]);
    }
  }

  lemma {:induction false} NoFulls(ss: seq<Snapshot>, kept: set<Id>)
    requires LastFull(ss).None?
    ensures Count(ss, RemovableKind(kept)) == 0
  {
    if ss != [] {
      LastFullSplits(ss);
      NoFulls(ss[1..], kept);
    }
  }

  /** With the cap filled by a pinned full, the newest full is the one that goes. */
  lemma NewestCanGo(a: Snapshot, b: Snapshot, m: Manifest)
    requires IsFull(a) && IsFull(b) && a.pinned && !b.pinned && a.id != b.id
    requires m.snapshots == [a, b] && m.retention.maxFullSnapshots == 1 && m.lineage.rollbackIntervalSteps == 0
    ensures Newest(m.snapshots) == Some(b) && RetainedOf(m) == [a]
  {
    var ss := m.snapshots;
    assert ss[1..] == [b] && ss[..1] == [a] && [b][1..] == [] && [a][..0] == [] && [b][..0] == [];
    RollbackNeedsInterval(ss, m.lineage, m.lineage.maxRollbackSnapshots);
    assert Protected(m) == {a.id};
    assert OldestRemovable([b], {a.id}) == Some(b);
    assert OldestRemovable(ss, {a.id}) == Some(b);
    assert Count([b], FullKind) == 1 + Count([b][1..], FullKind) == 1;
    assert Count(ss, FullKind) == 2;
    var rest := Without(ss, Group(ss, b.id));
    assert Group(ss, b.id) == {b.id};
    assert Without([b], {b.id}) == Without([b][1..], {b.id}) == [];
    assert rest == [a] + [] == [a];
    assert Count([a], FullKind) == 1 + Count([a][1..], FullKind);
    assert [a][1..] == [];
    assert CapFulls(ss, 1, {a.id}) == CapFulls([a], 1, {a.id}) == [a];
    assert Newest([a]) == Some(a);
    assert Candidate([a], [a], a.id, {a.id}).None?;
  }

  lemma {:induction false} RollbackNeedsInterval(ss: seq<Snapshot>, l: Lineage, max: nat)
    requires l.rollbackIntervalSteps == 0
    ensures RollbackOf(ss, l, max) == []
  {
    if ss != [] && max > 0 {
      RollbackNeedsInterval(ss[..|ss| - 1], l, max);
    }
  }

  // ── The two loops ────────────────────────────────────────────────

  /** What a removal leaves in the manifest and hands back for unlinking. */
  method RemoveSnapshots(cell: ManifestCell, ids: set<Id>) returns (evicted: seq<Snapshot>)
    modifies cell
    ensures cell.manifest == old(cell.manifest).(snapshots := Without(old(cell.manifest).snapshots, ids))
    ensures evicted == Only(old(cell.manifest).snapshots, ids)
  {
    evicted := Only(cell.manifest.snapshots, ids);
    cell.manifest := cell.manifest.(snapshots := Without(cell.manifest.snapshots, ids));
  }

  /** What has gone from `before` to get to `after`. */
  ghost predicate Gone(before: seq<Snapshot>, after: seq<Snapshot>, evicted: seq<Snapshot>) {
    forall s :: s in before <==> s in after || s in evicted
  }

  method CapFullsPass(cell: ManifestCell, kept: set<Id>) returns (evicted: seq<Snapshot>)
    modifies cell
    ensures
      var m := old(cell.manifest);
      && cell.manifest == m.(snapshots := CapFulls(m.snapshots, m.retention.maxFullSnapshots, kept))
      && Gone(m.snapshots, cell.manifest.snapshots, evicted)
      && forall s :: s in evicted ==> s !in cell.manifest.snapshots
  {
    ghost var m := cell.manifest;
    var max := cell.manifest.retention.maxFullSnapshots;
    evicted := [];
    while true
      invariant cell.manifest == m.(snapshots := cell.manifest.snapshots)
      invariant CapFulls(cell.manifest.snapshots, max, kept) == CapFulls(m.snapshots, max, kept)
      invariant Gone(m.snapshots, cell.manifest.snapshots, evicted)
      invariant forall s :: s in evicted ==> s !in cell.manifest.snapshots
      decreases |cell.manifest.snapshots|
    {
      if Count(cell.manifest.snapshots, FullKind) <= max {
        break;
      }
      var oldest := OldestRemovable(cell.manifest.snapshots, kept);
      if oldest.None? {
        break;
      }
      var group := Group(cell.manifest.snapshots, oldest.value.id);
      assert oldest.value.id in group;
      var gone := RemoveSnapshots(cell, group);
      evicted := evicted + gone;
    }
  }

  method CapTotalPass(cell: ManifestCell, kept: set<Id>) returns (evicted: seq<Snapshot>)
    modifies cell
    ensures
      var m := old(cell.manifest);
      && cell.manifest == m.(snapshots := CapTotal(m.snapshots, m.retention.EffectiveTotalCap(), kept))
      && Gone(m.snapshots, cell.manifest.snapshots, evicted)
      && forall s :: s in evicted ==> s !in cell.manifest.snapshots
  {
    ghost var m := cell.manifest;
    var max := cell.manifest.retention.EffectiveTotalCap();
    evicted := [];
    while true
      invariant cell.manifest == m.(snapshots := cell.manifest.snapshots)
      invariant CapTotal(cell.manifest.snapshots, max, kept) == CapTotal(m.snapshots, max, kept)
      invariant Gone(m.snapshots, cell.manifest.snapshots, evicted)
      invariant forall s :: s in evicted ==> s !in cell.manifest.snapshots
      decreases |cell.manifest.snapshots|
    {
      var ss := cell.manifest.snapshots;
      if Count(ss, FinalizedKind) <= max {
        break;
      }
      var newest := Newest(ss);
      if newest.None? {
        break;
      }
      var candidate := Candidate(ss, ss, newest.value.id, kept);
      if candidate.None? {
        break;
      }
      var gone := RemoveSnapshots(cell, {candidate.value.id});
      evicted := evicted + gone;
    }
  }

  predicate SameAt(a: Files, b: Files, p: Path) {
    (p in a <==> p in b) && (p in a ==> a[p] == b[p])
  }

  /** Caps the fulls, caps the total, persists; the caller unlinks what was evicted. */
  method ApplyRetention(env: Env, disk: Disk, cell: ManifestCell) returns (r: Result<seq<Snapshot>>)
    modifies cell, disk
    ensures
      var m := old(cell.manifest);
      var left := m.(snapshots := RetainedOf(m));
      && cell.manifest.snapshots == left.snapshots
      && (r.Ok? ==>
            && cell.manifest == left.(ranksWritten := WrittenAfter(left))
            && disk.files == Persisted(env, old(disk.files), disk.page, left)
            && Gone(m.snapshots, left.snapshots, r.value)
            && forall s :: s in r.value ==> s !in left.snapshots)
      && (r.Err? ==> forall p: Path :: !p.Ranks? ==> SameAt(disk.files, old(disk.files), p))
    ensures disk.NeverFails() ==> r.Ok?
  {
    var kept := Protected(cell.manifest);
    var first := CapFullsPass(cell, kept);
    var second := CapTotalPass(cell, kept);
    ghost var left := cell.manifest;
    hide CapFulls, CapTotal, Protected;
    var put := Persist(env, disk, cell);
    if put.Err? {
      ghost var n :| 0 <= n <= |left.snapshots|
                     && disk.files == RanksPut(env, old(disk.files), disk.page, left.snapshots, Unwritten(left), n);
      forall p: Path | !p.Ranks?
        ensures SameAt(disk.files, old(disk.files), p)
      {
        RanksPutElsewhere(env, old(disk.files), disk.page, left.snapshots, Unwritten(left), n, p);
      }
      return Err(put.error);
    }
    return Ok(first + second);
  }
}
