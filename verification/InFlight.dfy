/** Which snapshots are being read, and which a merge has claimed. */
module InFlight {
  import opened Manifest

  // ── Counting guards ──────────────────────────────────────────────

  /** How often each id is named by the outstanding guards. */
  ghost function Total(guards: seq<seq<Id>>): multiset<Id> {
    if guards == [] then multiset{} else multiset(guards[0]) + Total(guards[1..])
  }

  ghost predicate Names(guards: seq<seq<Id>>, id: Id) {
    exists k :: 0 <= k < |guards| && id in guards[k]
  }

  lemma {:induction false} TotalCountsNames(guards: seq<seq<Id>>, id: Id)
    ensures id in Total(guards) <==> Names(guards, id)
  {
    if guards != [] {
      TotalCountsNames(guards[1..], id);
      assert forall k :: 0 <= k < |guards[1..]| ==> guards[1..][k] == guards[k + 1];
      if Names(guards, id) && id !in guards[0] {
        var k :| 0 <= k < |guards| && id in guards[k];
        assert guards[1..][k - 1] == guards[k];
      }
    }
  }

  lemma {:induction false} TotalAppend(guards: seq<seq<Id>>, ids: seq<Id>)
    ensures Total(guards + [ids]) == Total(guards) + multiset(ids)
  {
    if guards == [] {
      assert guards + [ids] == [ids] && [ids][1..] == [];
    } else {
      assert (guards + [ids])[1..] == guards[1..] + [ids];
      TotalAppend(guards[1..], ids);
    }
  }

  ghost function Dropped(guards: seq<seq<Id>>, at: nat): seq<seq<Id>>
    requires at < |guards|
  {
    guards[..at] + guards[at + 1..]
  }

  lemma {:induction false} TotalDropped(guards: seq<seq<Id>>, at: nat)
    requires at < |guards|
    ensures Total(guards) == Total(Dropped(guards, at)) + multiset(guards[at])
  {
    if at == 0 {
      assert Dropped(guards, 0) == guards[1..];
    } else {
      TotalDropped(guards[1..], at - 1);
      assert Dropped(guards, at)[1..] == Dropped(guards[1..], at - 1);
    }
  }

  /** The table holds exactly the ids that are named, each as often as it is named. */
  ghost predicate Counts(pinned: map<Id, nat>, named: multiset<Id>) {
    forall id :: (id in pinned <==> id in named) && (id in pinned ==> pinned[id] == named[id])
  }

  /** One reader of `id` fewer. */
  function Released(pinned: map<Id, nat>, id: Id): map<Id, nat> {
    if id in pinned && pinned[id] > 1 then pinned[id := pinned[id] - 1] else pinned - {id}
  }

  lemma ReleaseUncounts(pinned: map<Id, nat>, ids: seq<Id>, rest: multiset<Id>)
    requires ids != [] && Counts(pinned, rest + multiset(ids))
    ensures Counts(Released(pinned, ids[0]), rest + multiset(ids[1..]))
  {
    assert ids == [ids[0]] + ids[1..];
    var before, after := rest + multiset(ids), rest + multiset(ids[1..]);
    assert before == after + multiset{ids[0]};
  }

  predicate AnyPinned(pinned: map<Id, nat>, ids: seq<Id>) {
    exists id :: id in ids && id in pinned && pinned[id] > 0
  }

  /** The counts say that one of `ids` is being read exactly when some outstanding guard names one. */
  lemma PinnedIffGuarded(pinned: map<Id, nat>, guards: seq<seq<Id>>, ids: seq<Id>)
    requires Counts(pinned, Total(guards))
    ensures AnyPinned(pinned, ids) <==> exists id :: id in ids && Names(guards, id)
  {
    forall id
      ensures id in pinned <==> Names(guards, id)
    {
      TotalCountsNames(guards, id);
    }
  }

  method AnyOf(pinned: map<Id, nat>, ids: seq<Id>) returns (r: bool)
    ensures r == AnyPinned(pinned, ids)
  {
    for i := 0 to |ids|
      invariant forall j :: 0 <= j < i ==> !(ids[j] in pinned && pinned[ids[j]] > 0)
    {
      if ids[i] in pinned && pinned[ids[i]] > 0 {
        return true;
      }
    }
    return false;
  }

  class Registry {
    var pinned: map<Id, nat>
    var doomed: set<Id>
    /** The guards handed out and not yet dropped. */
    ghost var pins: seq<seq<Id>>
    ghost var claims: seq<seq<Id>>

    ghost predicate Valid()
      reads this
    {
      && Counts(pinned, Total(pins))
      && forall id :: id in doomed ==> Names(claims, id)
    }

    /** Doomed is what outstanding claims name, all of it. */
    ghost predicate Exact()
      reads this
    {
      forall id :: id in doomed <==> Names(claims, id)
    }

    constructor ()
      ensures Valid() && Exact() && pins == [] && claims == []
    {
      pinned, doomed, pins, claims := map[], {}, [], [];
    }

    /** Marks `ids` as being read. */
    method Pin(ids: seq<Id>)
      requires Valid()
      modifies this
      ensures Valid() && pins == old(pins) + [ids]
      ensures claims == old(claims) && doomed == old(doomed)
    {
      ghost var named := Total(pins);
      for i := 0 to |ids|
        invariant Counts(pinned, named + multiset(ids[..i]))
        invariant pins == old(pins) && claims == old(claims) && doomed == old(doomed)
      {
        assert ids[..i + 1] == ids[..i] + [ids[i]];
        pinned := pinned[ids[i] := 1 + if ids[i] in pinned then pinned[ids[i]] else 0];
      }
      assert ids[..|ids|] == ids;
      TotalAppend(pins, ids);
      pins := pins + [ids];
    }

    /** Drops an outstanding guard: each id counts once less, and leaves the table at zero. */
    method DropPin(ids: seq<Id>, ghost at: nat)
      requires Valid() && at < |pins| && pins[at] == ids
      modifies this
      ensures Valid() && pins == Dropped(old(pins), at)
      ensures claims == old(claims) && doomed == old(doomed)
    {
      ghost var left := Dropped(pins, at);
      ghost var rest := Total(left);
      TotalDropped(pins, at);
      assert ids[0..] == ids;
      hide Counts, Total, Dropped, Names;
      for i := 0 to |ids|
        invariant Counts(pinned, rest + multiset(ids[i..]))
        invariant pins == old(pins) && claims == old(claims) && doomed == old(doomed)
      {
        ReleaseUncounts(pinned, ids[i..], rest);
        var id := ids[i];
        if id in pinned && pinned[id] > 1 {
          pinned := pinned[id := pinned[id] - 1];
        } else {
          pinned := pinned - {id};
        }
      }
      assert rest + multiset(ids[|ids|..]) == rest;
      pins := left;
    }

    /** Refused while any outstanding pin names one of `ids`, granted otherwise; never waits. */
    method Claim(ids: seq<Id>) returns (granted: bool)
      requires Valid()
      modifies this
      ensures Valid() && pins == old(pins)
      ensures granted <==> !exists id :: id in ids && Names(old(pins), id)
      ensures granted ==> claims == old(claims) + [ids] && doomed == old(doomed) + set id | id in ids
      ensures !granted ==> claims == old(claims) && doomed == old(doomed)
      ensures old(Exact()) ==> Exact()
    {
      PinnedIffGuarded(pinned, pins, ids);
      var reading := AnyOf(pinned, ids);
      if reading {
        return false;
      }
      doomed := doomed + set id | id in ids;
      claims := claims + [ids];
      ClaimsAppend(old(claims), ids);
      return true;
    }

    /**
     Withdraws a claim, and with it every mark on the ids it named: what another outstanding
     claim shares with it stops being doomed too, so the marks stay exact only if none is shared.
     */
    method DropClaim(ids: seq<Id>, ghost at: nat)
      requires Valid() && at < |claims| && claims[at] == ids
      modifies this
      ensures Valid() && pins == old(pins) && claims == Dropped(old(claims), at)
      ensures doomed == old(doomed) - set id | id in ids
      ensures old(Exact()) ==> (Exact() <==> forall id :: id in ids ==> !Names(claims, id))
    {
      ClaimsDropped(claims, at);
      doomed := doomed - set id | id in ids;
      claims := Dropped(claims, at);
    }

    predicate IsDoomed(id: Id)
      reads this
    {
      id in doomed
    }
  }

  lemma ClaimsAppend(claims: seq<seq<Id>>, ids: seq<Id>)
    ensures forall id :: Names(claims + [ids], id) <==> Names(claims, id) || id in ids
  {
    forall id
      ensures Names(claims + [ids], id) <==> Names(claims, id) || id in ids
    {
      if Names(claims, id) {
        var k :| 0 <= k < |claims| && id in claims[k];
        assert (claims + [ids])[k] == claims[k];
      }
      if id in ids {
        assert (claims + [ids])[|claims|] == ids;
      }
    }
  }

  lemma ClaimsDropped(claims: seq<seq<Id>>, at: nat)
    requires at < |claims|
    ensures forall id :: Names(claims, id) <==> Names(Dropped(claims, at), id) || id in claims[at]
  {
    forall id
      ensures Names(claims, id) <==> Names(Dropped(claims, at), id) || id in claims[at]
    {
      TotalDropped(claims, at);
      TotalCountsNames(claims, id);
      TotalCountsNames(Dropped(claims, at), id);
    }
  }

  /** Whether some reading of the table, up to the deadline, shows none of `ids` in use. */
  ghost predicate ClearBy(seen: nat -> map<Id, nat>, ids: seq<Id>, deadline: nat) {
    exists t: nat :: t <= deadline && !AnyPinned(seen(t), ids)
  }

  /**
   The wait before an unlink: looks at the table each time it is woken, `seen(t)` being what it
   finds at the `t`-th look, and gives up at the deadline.
   */
  method WaitUntilUnpinned(seen: nat -> map<Id, nat>, ids: seq<Id>, deadline: nat) returns (clear: bool, at: nat)
    ensures clear <==> ClearBy(seen, ids, deadline)
    ensures clear ==> at <= deadline && !AnyPinned(seen(at), ids)
  {
    at := 0;
    var reading := AnyOf(seen(at), ids);
    while reading
      invariant at <= deadline
      invariant reading == AnyPinned(seen(at), ids)
      invariant forall t: nat :: t < at ==> AnyPinned(seen(t), ids)
      decreases deadline - at, reading
    {
      if at == deadline {
        return false, at;
      }
      at := at + 1;
      reading := AnyOf(seen(at), ids);
    }
    return true, at;
  }
}
