/** Keeping snapshots in the order of their steps. */
module Order {
  import opened Manifest

  predicate ByStep(ss: seq<Snapshot>) {
    forall i, j :: 0 <= i < j < |ss| ==> ss[i].step <= ss[j].step
  }

  /** After every snapshot of the same step or an earlier one. */
  function Insert(ss: seq<Snapshot>, s: Snapshot): (r: seq<Snapshot>)
    ensures multiset(r) == multiset(ss) + multiset{s}
    ensures forall x :: x in r <==> x in ss || x == s
  {
    if ss == [] || ss[|ss| - 1].step <= s.step then
      assert forall x :: x in ss + [s] <==> x in ss || x == s;
      ss + [s]
    else
      var last, init := ss[|ss| - 1], ss[..|ss| - 1];
      assert init + [last] == ss;
      var r := Insert(init, s);
      assert forall x :: x in r + [last] <==> x in r || x == last;
      assert forall x :: x in ss <==> x in init || x == last;
      r + [last]
  }

  lemma {:induction false} InsertKeepsOrder(ss: seq<Snapshot>, s: Snapshot)
    requires ByStep(ss)
    ensures ByStep(Insert(ss, s))
  {
    if ss != [] && ss[|ss| - 1].step > s.step {
      var last, init := ss[|ss| - 1], ss[..|ss| - 1];
      InsertKeepsOrder(init, s);
      var r := Insert(init, s);
      forall i | 0 <= i < |r|
        ensures r[i].step <= last.step
      {
        assert r[i] in r;
        if r[i] in init {
          var k :| 0 <= k < |init| && init[k] == r[i];
          assert ss[k] == r[i];
        }
      }
    }
  }

  /** The stable sort by step. */
  function SortByStep(ss: seq<Snapshot>): (r: seq<Snapshot>)
    ensures multiset(r) == multiset(ss)
    ensures forall x :: x in r <==> x in ss
  {
    if ss == [] then []
    else
      var last, init := ss[|ss| - 1], ss[..|ss| - 1];
      assert ss == init + [last];
      assert forall x :: x in ss <==> x in init || x == last;
      Insert(SortByStep(init), last)
  }

  lemma {:induction false} SortedByStep(ss: seq<Snapshot>)
    ensures ByStep(SortByStep(ss))
  {
    if ss != [] {
      SortedByStep(ss[..|ss| - 1]);
      InsertKeepsOrder(SortByStep(ss[..|ss| - 1]), ss[|ss| - 1]);
    }
  }

  /** Snapshots of one step keep the order they came in. */
  function OfStep(ss: seq<Snapshot>, step: nat): seq<Snapshot> {
    if ss == [] then []
    else OfStep(ss[..|ss| - 1], step) + if ss[|ss| - 1].step == step then [ss[|ss| - 1]] else []
  }

  lemma OfStepSnoc(ss: seq<Snapshot>, s: Snapshot, step: nat)
    ensures OfStep(ss + [s], step) == OfStep(ss, step) + if s.step == step then [s] else []
  {
    assert (ss + [s])[..|ss|] == ss;
  }

  lemma {:induction false} InsertIsLast(ss: seq<Snapshot>, s: Snapshot, step: nat)
    ensures OfStep(Insert(ss, s), step) == OfStep(ss, step) + if s.step == step then [s] else []
  {
    if ss == [] || ss[|ss| - 1].step <= s.step {
      assert Insert(ss, s) == ss + [s];
      hide *;
      OfStepSnoc(ss, s, step);
    } else {
      var last, init := ss[|ss| - 1], ss[..|ss| - 1];
      assert Insert(ss, s) == Insert(init, s) + [last] && ss == init + [last];
      hide *;
      InsertIsLast(init, s, step);
      OfStepSnoc(init, last, step);
      OfStepSnoc(Insert(init, s), last, step);
    }
  }

  lemma {:induction false} SortIsStable(ss: seq<Snapshot>, step: nat)
    ensures OfStep(SortByStep(ss), step) == OfStep(ss, step)
  {
    if ss != [] {
      SortIsStable(ss[..|ss| - 1], step);
      InsertIsLast(SortByStep(ss[..|ss| - 1]), ss[|ss| - 1], step);
    }
  }

  lemma DistinctByCount(ss: seq<Snapshot>, rs: seq<Snapshot>)
    requires Distinct(ss) && multiset(ss) == multiset(rs)
    ensures Distinct(rs)
  {
    forall i, j | 0 <= i < j < |rs|
      ensures rs[i].id != rs[j].id
    {
      assert rs[i] in multiset(rs) && rs[j] in multiset(rs);
      assert rs[i] in ss && rs[j] in ss;
      if rs[i].id == rs[j].id {
        SameId(ss, rs[i], rs[j]);
        Twice(rs, i, j);
        OnceEach(ss, rs[i]);
      }
    }
  }

  lemma Twice(rs: seq<Snapshot>, i: nat, j: nat)
    requires i < j < |rs| && rs[i] == rs[j]
    ensures multiset(rs)[rs[i]] >= 2
  {
    assert rs == rs[..j] + [rs[j]] + rs[j + 1..];
    assert rs[i] in multiset(rs[..j]) by {
      assert rs[..j][i] == rs[i];
    }
  }

  lemma {:induction false} OnceEach(ss: seq<Snapshot>, s: Snapshot)
    requires Distinct(ss)
    ensures multiset(ss)[s] <= 1
  {
    if ss != [] {
      OnceEach(ss[1..], s);
      assert ss == [ss[0]] + ss[1..];
      if s in ss[1..] {
        var k :| 0 <= k < |ss[1..]| && ss[1..][k] == s;
        assert ss[k + 1] == s;
      } else {
        assert multiset(ss[1..])[s] == 0;
      }
    }
  }

  lemma SortIsDistinct(ss: seq<Snapshot>)
    requires Distinct(ss)
    ensures Distinct(SortByStep(ss))
  {
    DistinctByCount(ss, SortByStep(ss));
  }

  // ── Who comes before whom ────────────────────────────────────────

  predicate Before(ss: seq<Snapshot>, a: Snapshot, b: Snapshot) {
    exists i, j :: 0 <= i < j < |ss| && ss[i] == a && ss[j] == b
  }

  lemma BeforeLast(ss: seq<Snapshot>, a: Snapshot, b: Snapshot)
    requires a in ss
    ensures Before(ss + [b], a, b)
  {
    var i :| 0 <= i < |ss| && ss[i] == a;
    assert (ss + [b])[i] == a && (ss + [b])[|ss|] == b;
  }

  lemma BeforeStays(ss: seq<Snapshot>, a: Snapshot, b: Snapshot, s: Snapshot)
    requires Before(ss, a, b)
    ensures Before(ss + [s], a, b)
  {
    var i, j :| 0 <= i < j < |ss| && ss[i] == a && ss[j] == b;
    assert (ss + [s])[i] == a && (ss + [s])[j] == b;
  }

  lemma BeforeSnoc(ss: seq<Snapshot>, s: Snapshot, a: Snapshot, b: Snapshot)
    ensures Before(ss + [s], a, b) <==> Before(ss, a, b) || (a in ss && b == s)
  {
    if a in ss && b == s {
      BeforeLast(ss, a, b);
    }
    if Before(ss, a, b) {
      BeforeStays(ss, a, b, s);
    }
    if Before(ss + [s], a, b) {
      var i, j :| 0 <= i < j < |ss + [s]| && (ss + [s])[i] == a && (ss + [s])[j] == b;
      assert ss[i] == a;
    }
  }

  lemma NotBothWays(ss: seq<Snapshot>, a: Snapshot, b: Snapshot)
    requires Distinct(ss) && Before(ss, a, b)
    ensures !Before(ss, b, a)
  {
  }

  lemma {:induction false} OfStepMembers(ss: seq<Snapshot>, step: nat)
    ensures forall s :: s in OfStep(ss, step) <==> s in ss && s.step == step
  {
    if ss != [] {
      OfStepMembers(ss[..|ss| - 1], step);
      assert ss == ss[..|ss| - 1] + [ss[|ss| - 1]];
    }
  }

  lemma {:induction false} OfStepBefore(ss: seq<Snapshot>, a: Snapshot, b: Snapshot)
    requires a.step == b.step
    ensures Before(OfStep(ss, a.step), a, b) <==> Before(ss, a, b)
  {
    if ss != [] {
      var init, last := ss[..|ss| - 1], ss[|ss| - 1];
      assert ss == init + [last];
      OfStepBefore(init, a, b);
      OfStepMembers(init, a.step);
      OfStepSnoc(init, last, a.step);
      assert OfStep(init, a.step) + [] == OfStep(init, a.step);
      hide Before, OfStep;
      BeforeSnoc(init, last, a, b);
      BeforeSnoc(OfStep(init, a.step), last, a, b);
    }
  }

  /** The sort puts `a` before `b` exactly when it has the smaller step, or the same and came first. */
  lemma SortBefore(ss: seq<Snapshot>, a: Snapshot, b: Snapshot)
    requires Distinct(ss) && a in ss && b in ss && a != b
    ensures Before(SortByStep(ss), a, b) <==> a.step < b.step || (a.step == b.step && Before(ss, a, b))
  {
    var r := SortByStep(ss);
    SortedByStep(ss);
    SortIsDistinct(ss);
    assert a in r && b in r;
    if a.step == b.step {
      OfStepBefore(ss, a, b);
      OfStepBefore(r, a, b);
      SortIsStable(ss, a.step);
    } else {
      var i :| 0 <= i < |r| && r[i] == a;
      var j :| 0 <= j < |r| && r[j] == b;
      assert i != j;
    }
  }
}
