/** Which tensors of one save hold their own bytes, and which are written as aliases of another. */
module Dedup {
  import opened Bytes
  import opened Env
  import opened Tensor
  import Delta

  type Key = (string, string)

  function KeyOf(env: Env, t: TensorData): Key {
    (env.hash(t.data), t.dtype)
  }

  predicate Large(t: TensorData) {
    |t.data| >= Delta.DELTA_MIN_SIZE
  }

  /** The first of the first `n` tensors that is large enough to share and has this key. */
  function FirstSeen(env: Env, ts: seq<TensorData>, n: nat, key: Key): (r: Option<nat>)
    requires n <= |ts|
    ensures r.Some? ==> r.value < n && Large(ts[r.value]) && KeyOf(env, ts[r.value]) == key
    ensures r.Some? ==> forall j :: 0 <= j < r.value ==> !(Large(ts[j]) && KeyOf(env, ts[j]) == key)
    ensures r.None? ==> forall j :: 0 <= j < n ==> !(Large(ts[j]) && KeyOf(env, ts[j]) == key)
  {
    if n == 0 then None
    else
      var earlier := FirstSeen(env, ts, n - 1, key);
      if earlier.Some? then earlier
      else if Large(ts[n - 1]) && KeyOf(env, ts[n - 1]) == key then Some(n - 1)
      else None
  }

  /** Whose bytes tensor `i` shares, by position; None when it holds its own. */
  function OwnerOf(env: Env, ts: seq<TensorData>, i: nat): (r: Option<nat>)
    requires i < |ts|
    ensures r.Some? ==> r.value < i
  {
    if Large(ts[i]) then FirstSeen(env, ts, i, KeyOf(env, ts[i])) else None
  }

  function Planned(env: Env, ts: seq<TensorData>, i: nat): Option<string>
    requires i < |ts|
  {
    match OwnerOf(env, ts, i)
    case None => None
    case Some(j) => Some(ts[j].name)
  }

  function Plan(env: Env, ts: seq<TensorData>): (plan: seq<Option<string>>)
    ensures |plan| == |ts|
  {
    seq(|ts|, i requires 0 <= i < |ts| => Planned(env, ts, i))
  }

  /** The table of first holders, as the loop has built it after `n` tensors. */
  ghost predicate Table(env: Env, ts: seq<TensorData>, n: nat, seen: map<Key, string>)
    requires n <= |ts|
  {
    forall key :: match FirstSeen(env, ts, n, key)
                  case None => key !in seen
                  case Some(j) => key in seen && seen[key] == ts[j].name
  }

  method DedupPlan(env: Env, ts: seq<TensorData>) returns (plan: seq<Option<string>>)
    ensures plan == Plan(env, ts)
  {
    var seen: map<Key, string> := map[];
    plan := [];
    for i := 0 to |ts|
      invariant |plan| == i && Table(env, ts, i, seen)
      invariant forall j :: 0 <= j < i ==> plan[j] == Planned(env, ts, j)
    {
      var key := KeyOf(env, ts[i]);
      if !Large(ts[i]) {
        plan := plan + [None];
      } else if key in seen {
        plan := plan + [Some(seen[key])];
      } else {
        seen := seen[key := ts[i].name];
        plan := plan + [None];
      }
    }
  }

  /** An owner holds its own bytes, and they are the same bytes: one hop is always enough. */
  lemma OwnersHoldTheSameBytes(env: Env, ts: seq<TensorData>, i: nat)
    requires Injective(env.hash) && i < |ts| && OwnerOf(env, ts, i).Some?
    ensures
      var j := OwnerOf(env, ts, i).value;
      && j < i && OwnerOf(env, ts, j).None?
      && ts[j].data == ts[i].data && ts[j].dtype == ts[i].dtype
  {
    var j := OwnerOf(env, ts, i).value;
    assert FirstSeen(env, ts, j, KeyOf(env, ts[j])).None?;
  }

  /** Nothing large is written twice: a later tensor with the same bytes and dtype is always shared. */
  lemma DuplicatesAreShared(env: Env, ts: seq<TensorData>, i: nat, j: nat)
    requires i < j < |ts| && Large(ts[i]) && ts[i].data == ts[j].data && ts[i].dtype == ts[j].dtype
    ensures Planned(env, ts, j).Some?
  {
    assert KeyOf(env, ts[i]) == KeyOf(env, ts[j]);
    assert FirstSeen(env, ts, j, KeyOf(env, ts[j])).Some?;
  }
}
