/** Writing one rank of a snapshot: deduplicate, keep each tensor, lay the blobs out in one pack. */
module Save {
  import opened Bytes
  import opened Compression
  import opened Manifest
  import opened Env
  import opened Tensor
  import opened Shard
  import opened Dedup
  import opened Layout
  import opened Glob

  datatype RankConfig = RankConfig(rank: nat, worldSize: nat, tensors: Config, keepBase: bool)

  // ── Which tensors carry bytes ────────────────────────────────────

  function Own(env: Env, ts: seq<TensorData>, n: nat): (r: seq<nat>)
    requires n <= |ts|
    ensures forall k :: 0 <= k < |r| ==> r[k] < n && OwnerOf(env, ts, r[k]).None?
  {
    if n == 0 then []
    else Own(env, ts, n - 1) + if OwnerOf(env, ts, n - 1).None? then [n - 1] else []
  }

  function Shared(env: Env, ts: seq<TensorData>, n: nat): (r: seq<nat>)
    requires n <= |ts|
    ensures forall k :: 0 <= k < |r| ==> r[k] < n && OwnerOf(env, ts, r[k]).Some?
  {
    if n == 0 then []
    else Shared(env, ts, n - 1) + if OwnerOf(env, ts, n - 1).Some? then [n - 1] else []
  }

  lemma {:induction false} OwnFacts(env: Env, ts: seq<TensorData>, n: nat)
    requires n <= |ts|
    ensures
      var r := Own(env, ts, n);
      && (forall j, k :: 0 <= j < k < |r| ==> r[j] < r[k])
      && forall i :: 0 <= i < n && OwnerOf(env, ts, i).None? ==> i in r
  {
    hide OwnerOf;
    if n > 0 {
      OwnFacts(env, ts, n - 1);
    }
  }

  lemma {:induction false} SharedFacts(env: Env, ts: seq<TensorData>, n: nat)
    requires n <= |ts|
    ensures
      var r := Shared(env, ts, n);
      && (forall j, k :: 0 <= j < k < |r| ==> r[j] < r[k])
      && forall i :: 0 <= i < n && OwnerOf(env, ts, i).Some? ==> i in r
  {
    hide OwnerOf;
    if n > 0 {
      SharedFacts(env, ts, n - 1);
    }
  }

  function Processes(
      env: Env, files: Files, cfg: Config, cache: Option<Cache>, ts: seq<TensorData>): (r: Result<seq<Processed>>)
    ensures r.Ok? ==> |r.value| == |ts|
    ensures r.Ok? ==> forall k :: 0 <= k < |ts| ==> ProcessTensor(env, files, cfg, cache, ts[k]) == Ok(r.value[k])
  {
    if ts == [] then Ok([])
    else
      var last := |ts| - 1;
      var done :- Processes(env, files, cfg, cache, ts[..last]);
      var p :- ProcessTensor(env, files, cfg, cache, ts[last]);
      Ok(done + [p])
  }

  /** One alias entry per shared tensor whose owner was stored. */
  function Aliases(env: Env, ts: seq<TensorData>, shared: seq<nat>, stored: map<string, TensorEntry>): seq<Processed>
    requires forall k :: 0 <= k < |shared| ==> shared[k] < |ts| && OwnerOf(env, ts, shared[k]).Some?
  {
    if shared == [] then []
    else
      var last := |shared| - 1;
      var i := shared[last];
      var owner := Planned(env, ts, i).value;
      Aliases(env, ts, shared[..last], stored) +
      if owner in stored then [Processed(AliasEntry(ts[i], stored[owner]), None)] else []
  }

  function Picked(ts: seq<TensorData>, idx: seq<nat>): (r: seq<TensorData>)
    requires forall k :: 0 <= k < |idx| ==> idx[k] < |ts|
    ensures |r| == |idx|
  {
    seq(|idx|, k requires 0 <= k < |idx| => ts[idx[k]])
  }

  function ProcessedAll(
      env: Env, files: Files, cfg: Config, cache: Option<Cache>, ts: seq<TensorData>): Result<seq<Processed>> {
    var stored :- Processes(env, files, cfg, cache, Picked(ts, Own(env, ts, |ts|)));
    Ok(stored + Aliases(env, ts, Shared(env, ts, |ts|), EntryMap(EntriesOf(stored))))
  }

  /** Everything `save_rank_tensors` computes before its one write. */
  function SavedRank(
      env: Env, files: Files, cfg: RankConfig, cache: Option<Cache>, ts: seq<TensorData>,
      ctx: Context): Result<Written> {
    var ps :- ProcessedAll(env, files, cfg.tensors, cache, ts);
    Ok(Laid(env, ps, ctx, cfg.tensors.compression, cfg.rank, cfg.worldSize))
  }

  // ── What a save stands for ───────────────────────────────────────

  predicate DistinctTensors(ts: seq<TensorData>) {
    forall i, j :: 0 <= i < j < |ts| ==> ts[i].name != ts[j].name
  }

  /** Whose bytes, cast as its owner's name says, are found under tensor `i`'s name. */
  function HolderOf(env: Env, ts: seq<TensorData>, i: nat): (j: nat)
    requires i < |ts|
    ensures j <= i
  {
    match OwnerOf(env, ts, i)
    case None => i
    case Some(owner) => owner
  }

  function Kept(env: Env, policy: Policy, ts: seq<TensorData>, i: nat): Result<Held>
    requires i < |ts|
  {
    Given(env, policy, ts[HolderOf(env, ts, i)])
  }

  function HeldOr(r: Result<Held>): Held {
    match r
    case Ok(h) => h
    case Err(_) => Held([], "", None, None)
  }

  function ContentsTo(env: Env, policy: Policy, ts: seq<TensorData>, n: nat): (c: Contents)
    requires n <= |ts|
    ensures forall m :: m in c <==> exists i :: 0 <= i < n && ts[i].name == m
  {
    if n == 0 then map[]
    else ContentsTo(env, policy, ts, n - 1)[ts[n - 1].name := HeldOr(Kept(env, policy, ts, n - 1))]
  }

  function ContentsOf(env: Env, policy: Policy, ts: seq<TensorData>): Contents {
    ContentsTo(env, policy, ts, |ts|)
  }

  lemma {:induction false} ContentsAt(env: Env, policy: Policy, ts: seq<TensorData>, n: nat, i: nat)
    requires DistinctTensors(ts) && i < n <= |ts|
    ensures var c := ContentsTo(env, policy, ts, n);
            ts[i].name in c && c[ts[i].name] == HeldOr(Kept(env, policy, ts, i))
  {
    hide Kept;
    if i < n - 1 {
      ContentsAt(env, policy, ts, n - 1, i);
    }
  }

  lemma HolderHoldsItself(env: Env, ts: seq<TensorData>, i: nat)
    requires Injective(env.hash) && i < |ts|
    ensures
      var j := HolderOf(env, ts, i);
      && HolderOf(env, ts, j) == j && OwnerOf(env, ts, j).None?
      && ts[j].data == ts[i].data && ts[j].dtype == ts[i].dtype
  {
    if OwnerOf(env, ts, i).Some? {
      OwnersHoldTheSameBytes(env, ts, i);
    }
  }

  /** The dtype a tensor ends up in on disk. */
  function StoredDtype(policy: Policy, t: TensorData): string {
    match Chosen(policy, t.name)
    case Keep => t.dtype
    case Cast(target) => if CastableFloat(t.dtype) then target else t.dtype
  }

  /**
   A name gets what its own policy asks for exactly when the policy sends it to the same stored
   dtype as the name whose bytes it shares.
   */
  lemma OwnPolicyIff(env: Env, policy: Policy, ts: seq<TensorData>, i: nat)
    requires Injective(env.hash) && i < |ts|
    requires Given(env, policy, ts[i]).Ok? && Kept(env, policy, ts, i).Ok?
    ensures Kept(env, policy, ts, i) == Given(env, policy, ts[i]) <==>
            StoredDtype(policy, ts[i]) == StoredDtype(policy, ts[HolderOf(env, ts, i)])
  {
    HolderHoldsItself(env, ts, i);
    GivenByDtype(env, policy, ts[i]);
    GivenByDtype(env, policy, ts[HolderOf(env, ts, i)]);
    hide WorkingOf, Given, StoredDtype, OwnerOf;
  }

  lemma GivenByDtype(env: Env, policy: Policy, t: TensorData)
    ensures
      var d := StoredDtype(policy, t);
      Given(env, policy, t) ==
      if d == t.dtype then Ok(Held(t.data, t.dtype, None, None))
      else match env.narrow(t.data, t.dtype, d)
           case Ok((bytes, scale)) => Ok(Held(bytes, d, Some(t.dtype), scale))
           case Err(e) => Err(e)
  {
  }

  /** Two tied weights of which only the second is to be cast: the second is kept uncast all the same. */
  lemma TiedNamesCanDisagree(env: Env, data: Bytes)
    requires Injective(env.hash) && |data| == 4096
    ensures
      var ts := [TensorData("a", [1024], "float32", data), TensorData("b", [1024], "float32", data)];
      var policy: Policy := [("b", Cast("bfloat16"))];
      && Kept(env, policy, ts, 1) == Ok(Held(data, "float32", None, None))
      && Given(env, policy, ts[1]) != Kept(env, policy, ts, 1)
  {
    var ts := [TensorData("a", [1024], "float32", data), TensorData("b", [1024], "float32", data)];
    var policy: Policy := [("b", Cast("bfloat16"))];
    assert KeyOf(env, ts[0]) == KeyOf(env, ts[1]);
    assert FirstSeen(env, ts, 0, KeyOf(env, ts[1])).None?;
    assert FirstSeen(env, ts, 1, KeyOf(env, ts[1])) == Some(0);
    assert Matches("b", "b") && !Matches("b", "a");
    assert Chosen(policy, "a") == Keep && Chosen(policy, "b") == Cast("bfloat16");
  }

  /** A tensor no rule casts, sharing with none that a rule casts, is held bit for bit. */
  lemma UncastIsHeldExactly(env: Env, policy: Policy, ts: seq<TensorData>, i: nat)
    requires Injective(env.hash) && i < |ts| && Uncast(policy, ts[HolderOf(env, ts, i)])
    ensures Kept(env, policy, ts, i) == Ok(Held(ts[i].data, ts[i].dtype, None, None))
  {
    HolderHoldsItself(env, ts, i);
    UncastIsExact(env, policy, ts[HolderOf(env, ts, i)]);
  }

  // ── A save keeps what it was given ───────────────────────────────

  /** The order entries are written in: tensors with bytes first, then the aliases. */
  function Order(env: Env, ts: seq<TensorData>): (idx: seq<nat>)
    ensures forall k :: 0 <= k < |idx| ==> idx[k] < |ts|
  {
    Own(env, ts, |ts|) + Shared(env, ts, |ts|)
  }

  lemma OrderIsPermutation(env: Env, ts: seq<TensorData>)
    ensures forall j, k :: 0 <= j < k < |Order(env, ts)| ==> Order(env, ts)[j] != Order(env, ts)[k]
    ensures forall i :: 0 <= i < |ts| ==> i in Order(env, ts)
  {
    OwnFacts(env, ts, |ts|);
    SharedFacts(env, ts, |ts|);
    hide OwnerOf, Own, Shared;
  }

  lemma NamesFollowOrder(env: Env, ts: seq<TensorData>, es: seq<TensorEntry>)
    requires DistinctTensors(ts) && |es| == |Order(env, ts)|
    requires forall k :: 0 <= k < |es| ==> es[k].name == ts[Order(env, ts)[k]].name
    ensures DistinctNames(es)
    ensures forall n :: n in NamesOf(es) <==> exists i :: 0 <= i < |ts| && ts[i].name == n
  {
    OrderIsPermutation(env, ts);
    var idx := Order(env, ts);
    hide Order;
    forall i | 0 <= i < |ts|
      ensures ts[i].name in NamesOf(es)
    {
      assert i in idx;
      var k :| 0 <= k < |idx| && idx[k] == i;
      assert es[k] in es;
    }
    forall n | n in NamesOf(es)
      ensures exists i :: 0 <= i < |ts| && ts[i].name == n
    {
      var e :| e in es && e.name == n;
      var k :| 0 <= k < |es| && es[k] == e;
      assert ts[idx[k]].name == n;
    }
    forall j, k | 0 <= j < k < |es|
      ensures es[j].name != es[k].name
    {
      assert idx[j] < idx[k] || idx[k] < idx[j];
    }
  }

  lemma {:induction false} AliasesAll(env: Env, ts: seq<TensorData>, shared: seq<nat>, stored: map<string, TensorEntry>)
    requires forall k :: 0 <= k < |shared| ==> shared[k] < |ts| && OwnerOf(env, ts, shared[k]).Some?
    requires forall k :: 0 <= k < |shared| ==> Planned(env, ts, shared[k]).value in stored
    ensures
      var r := Aliases(env, ts, shared, stored);
      && |r| == |shared|
      && forall k :: 0 <= k < |shared| ==>
           r[k] == Processed(AliasEntry(ts[shared[k]], stored[Planned(env, ts, shared[k]).value]), None)
  {
    hide OwnerOf;
    if shared != [] {
      AliasesAll(env, ts, shared[..|shared| - 1], stored);
    }
  }

  /** What `process_tensor` made of the tensors that carry bytes, `k` by `k`. */
  ghost predicate StoredOk(
      env: Env, cfg: Config, ts: seq<TensorData>, stored: seq<Processed>, base: map<string, Bytes>) {
    var own := Own(env, ts, |ts|);
    && |stored| == |own|
    && forall k :: 0 <= k < |own| ==>
         && stored[k].entry.name == ts[own[k]].name && stored[k].entry.shape == ts[own[k]].shape
         && var held := Given(env, cfg.policy, ts[own[k]]);
            && held.Ok?
            && HeldAs(stored[k].entry, held.value.raw) == held.value
            && Stores(env, cfg.compression, stored[k].entry, stored[k].data, base, held.value.raw)
  }

  lemma ProcessesStore(
      env: Env, files: Files, cfg: Config, cache: Option<Cache>, ts: seq<TensorData>, base: map<string, Bytes>)
    requires Lawful(env)
    requires cache.Some? ==> Faithful(env, files, cache.value, base)
    requires Processes(env, files, cfg, cache, Picked(ts, Own(env, ts, |ts|))).Ok?
    ensures StoredOk(env, cfg, ts, Processes(env, files, cfg, cache, Picked(ts, Own(env, ts, |ts|))).value, base)
  {
    var own := Own(env, ts, |ts|);
    var picked := Picked(ts, own);
    var stored := Processes(env, files, cfg, cache, picked).value;
    hide ProcessTensor, Stores, Given, Own, Processes;
    forall k | 0 <= k < |own|
      ensures
        var held := Given(env, cfg.policy, ts[own[k]]);
        && stored[k].entry.name == ts[own[k]].name && stored[k].entry.shape == ts[own[k]].shape
        && held.Ok? && HeldAs(stored[k].entry, held.value.raw) == held.value
        && Stores(env, cfg.compression, stored[k].entry, stored[k].data, base, held.value.raw)
    {
      assert picked[k] == ts[own[k]];
      ProcessedStores(env, files, cfg, cache, ts[own[k]], base);
    }
  }

  lemma OwnerStored(
      env: Env, cfg: Config, ts: seq<TensorData>, stored: seq<Processed>, base: map<string, Bytes>, i: nat)
    returns (k: nat)
    requires Injective(env.hash) && DistinctTensors(ts) && StoredOk(env, cfg, ts, stored, base)
    requires i < |ts| && OwnerOf(env, ts, i).Some?
    ensures k < |stored| && k < |Own(env, ts, |ts|)| && Own(env, ts, |ts|)[k] == OwnerOf(env, ts, i).value
    ensures Planned(env, ts, i).value in EntryMap(EntriesOf(stored))
    ensures EntryMap(EntriesOf(stored))[Planned(env, ts, i).value] == stored[k].entry
  {
    var own := Own(env, ts, |ts|);
    var j := OwnerOf(env, ts, i).value;
    OwnersHoldTheSameBytes(env, ts, i);
    OwnFacts(env, ts, |ts|);
    k :| 0 <= k < |own| && own[k] == j;
    var es := EntriesOf(stored);
    hide Own, OwnerOf, Stores, Given;
    forall a, b | 0 <= a < b < |es|
      ensures es[a].name != es[b].name
    {
      assert own[a] < own[b];
    }
    EntryMapAt(es, k);
  }

  /** Entry `k` of a finished list, and whose tensor it is. */
  ghost predicate EntryOk(
      env: Env, cfg: Config, ts: seq<TensorData>, ps: seq<Processed>, k: nat, base: map<string, Bytes>,
      contents: Contents) {
    && k < |ps| && k < |Order(env, ts)|
    && ps[k].entry.name == ts[Order(env, ts)[k]].name && ps[k].entry.shape == ts[Order(env, ts)[k]].shape
    && ps[k].entry.name in contents && ps[k].entry.rawSize == |contents[ps[k].entry.name].raw|
    && Keeps(env, cfg.compression, ps, ps[k], base, contents)
  }

  lemma OwnEntryKept(
      env: Env, cfg: Config, ts: seq<TensorData>, stored: seq<Processed>, ps: seq<Processed>, k: nat,
      base: map<string, Bytes>)
    requires DistinctTensors(ts) && StoredOk(env, cfg, ts, stored, base) && stored <= ps && k < |stored|
    ensures EntryOk(env, cfg, ts, ps, k, base, ContentsOf(env, cfg.policy, ts))
  {
    var i := Own(env, ts, |ts|)[k];
    ContentsAt(env, cfg.policy, ts, |ts|, i);
    assert HolderOf(env, ts, i) == i && Order(env, ts)[k] == i && ps[k] == stored[k];
    hide Own, Shared, OwnerOf, ContentsTo, Given;
  }

  lemma AliasEntryKept(
      env: Env, cfg: Config, ts: seq<TensorData>, stored: seq<Processed>, ps: seq<Processed>, at: nat,
      base: map<string, Bytes>)
    requires Injective(env.hash) && DistinctTensors(ts) && StoredOk(env, cfg, ts, stored, base) && stored <= ps
    requires |stored| <= at < |ps| && at < |Order(env, ts)|
    requires
      var i := Order(env, ts)[at];
      && OwnerOf(env, ts, i).Some? && Planned(env, ts, i).value in EntryMap(EntriesOf(stored))
      && ps[at] == Processed(AliasEntry(ts[i], EntryMap(EntriesOf(stored))[Planned(env, ts, i).value]), None)
    ensures EntryOk(env, cfg, ts, ps, at, base, ContentsOf(env, cfg.policy, ts))
  {
    var i := Order(env, ts)[at];
    var k := OwnerStored(env, cfg, ts, stored, base, i);
    OwnEntryKept(env, cfg, ts, stored, ps, k, base);
    ContentsAt(env, cfg.policy, ts, |ts|, i);
    ContentsAt(env, cfg.policy, ts, |ts|, OwnerOf(env, ts, i).value);
    OwnersHoldTheSameBytes(env, ts, i);
    assert HolderOf(env, ts, i) == OwnerOf(env, ts, i).value == HolderOf(env, ts, OwnerOf(env, ts, i).value);
    var contents := ContentsOf(env, cfg.policy, ts);
    assert ps[k].entry.storage != Alias && ps[k] == stored[k];
    assert contents[ts[i].name] == contents[ps[k].entry.name];
    assert ps[k].entry.hashRaw == env.hash(contents[ps[k].entry.name].raw)
           && ps[k].entry.rawSize == |contents[ps[k].entry.name].raw|;
    hide Own, Shared, OwnerOf, ContentsTo, Given, Stores, EntryMap, StoredOk, HolderOf;
    assert SharesWith(ps, ps[at].entry, contents);
  }

  lemma ProcessedAllKeeps(
      env: Env, files: Files, cfg: Config, cache: Option<Cache>, ts: seq<TensorData>, base: map<string, Bytes>)
    requires Lawful(env) && DistinctTensors(ts)
    requires cache.Some? ==> Faithful(env, files, cache.value, base)
    requires ProcessedAll(env, files, cfg, cache, ts).Ok?
    ensures
      var ps := ProcessedAll(env, files, cfg, cache, ts).value;
      && |ps| == |Order(env, ts)|
      && forall k :: 0 <= k < |ps| ==> EntryOk(env, cfg, ts, ps, k, base, ContentsOf(env, cfg.policy, ts))
  {
    var own, shared := Own(env, ts, |ts|), Shared(env, ts, |ts|);
    var stored := Processes(env, files, cfg, cache, Picked(ts, own)).value;
    var table := EntryMap(EntriesOf(stored));
    var aliases := Aliases(env, ts, shared, table);
    var ps := stored + aliases;
    assert ProcessedAll(env, files, cfg, cache, ts) == Ok(ps);
    assert |stored| == |own| && |Order(env, ts)| == |own| + |shared|;
    hide *;
    ProcessesStore(env, files, cfg, cache, ts, base);
    AliasesComplete(env, cfg, ts, stored, base);
    forall k | 0 <= k < |ps|
      ensures EntryOk(env, cfg, ts, ps, k, base, ContentsOf(env, cfg.policy, ts))
    {
      EntryKept(env, cfg, ts, stored, base, k);
    }
  }

  lemma EntryKept(env: Env, cfg: Config, ts: seq<TensorData>, stored: seq<Processed>, base: map<string, Bytes>, k: nat)
    requires Injective(env.hash) && DistinctTensors(ts) && StoredOk(env, cfg, ts, stored, base)
    requires k < |stored + Aliases(env, ts, Shared(env, ts, |ts|), EntryMap(EntriesOf(stored)))|
    ensures EntryOk(env, cfg, ts, stored + Aliases(env, ts, Shared(env, ts, |ts|), EntryMap(EntriesOf(stored))), k,
                    base,
                    ContentsOf(env, cfg.policy, ts))
  {
    var aliases := Aliases(env, ts, Shared(env, ts, |ts|), EntryMap(EntriesOf(stored)));
    var ps := stored + aliases;
    assert stored <= ps && (k >= |stored| ==> ps[k] == aliases[k - |stored|]);
    assert |stored| == |Own(env, ts, |ts|)|;
    hide *;
    if k < |stored| {
      OwnEntryKept(env, cfg, ts, stored, ps, k, base);
    } else {
      AliasesComplete(env, cfg, ts, stored, base);
      OrderLength(env, ts);
      OrderAt(env, ts, k);
      OwnerInTable(env, cfg, ts, stored, base, k - |stored|);
      AliasEntryKept(env, cfg, ts, stored, ps, k, base);
    }
  }

  lemma OrderLength(env: Env, ts: seq<TensorData>)
    ensures |Order(env, ts)| == |Own(env, ts, |ts|)| + |Shared(env, ts, |ts|)|
  {
  }

  lemma AliasesComplete(env: Env, cfg: Config, ts: seq<TensorData>, stored: seq<Processed>, base: map<string, Bytes>)
    requires Injective(env.hash) && DistinctTensors(ts) && StoredOk(env, cfg, ts, stored, base)
    ensures
      var shared := Shared(env, ts, |ts|);
      var table := EntryMap(EntriesOf(stored));
      var aliases := Aliases(env, ts, shared, table);
      && |aliases| == |shared|
      && forall k :: 0 <= k < |shared| ==>
           && Planned(env, ts, shared[k]).Some? && Planned(env, ts, shared[k]).value in table
           && aliases[k] == Processed(AliasEntry(ts[shared[k]], table[Planned(env, ts, shared[k]).value]), None)
  {
    var shared := Shared(env, ts, |ts|);
    hide *;
    forall k | 0 <= k < |shared|
      ensures OwnerOf(env, ts, shared[k]).Some?
      ensures Planned(env, ts, shared[k]).Some? && Planned(env, ts, shared[k]).value in EntryMap(EntriesOf(stored))
    {
      OwnerInTable(env, cfg, ts, stored, base, k);
    }
    AliasesAll(env, ts, shared, EntryMap(EntriesOf(stored)));
  }

  lemma OrderAt(env: Env, ts: seq<TensorData>, k: nat)
    requires k < |Order(env, ts)|
    ensures |Order(env, ts)| == |Own(env, ts, |ts|)| + |Shared(env, ts, |ts|)|
    ensures k >= |Own(env, ts, |ts|)| ==> Order(env, ts)[k] == Shared(env, ts, |ts|)[k - |Own(env, ts, |ts|)|]
  {
    hide Own, Shared;
  }

  lemma OwnerInTable(
      env: Env, cfg: Config, ts: seq<TensorData>, stored: seq<Processed>, base: map<string, Bytes>, k: nat)
    requires Injective(env.hash) && DistinctTensors(ts) && StoredOk(env, cfg, ts, stored, base)
    requires k < |Shared(env, ts, |ts|)|
    ensures
      var i := Shared(env, ts, |ts|)[k];
      && OwnerOf(env, ts, i).Some? && Planned(env, ts, i).Some?
      && Planned(env, ts, i).value in EntryMap(EntriesOf(stored))
  {
    hide *;
    SharedAt(env, ts, k);
    PlannedSome(env, ts, Shared(env, ts, |ts|)[k]);
    var at := OwnerStored(env, cfg, ts, stored, base, Shared(env, ts, |ts|)[k]);
  }

  lemma SharedAt(env: Env, ts: seq<TensorData>, k: nat)
    requires k < |Shared(env, ts, |ts|)|
    ensures Shared(env, ts, |ts|)[k] < |ts| && OwnerOf(env, ts, Shared(env, ts, |ts|)[k]).Some?
  {
  }

  lemma PlannedSome(env: Env, ts: seq<TensorData>, i: nat)
    requires i < |ts| && OwnerOf(env, ts, i).Some?
    ensures Planned(env, ts, i).Some?
  {
  }

  lemma ContentsNames(env: Env, policy: Policy, ts: seq<TensorData>)
    ensures forall n :: n in ContentsOf(env, policy, ts) <==> exists i :: 0 <= i < |ts| && ts[i].name == n
  {
    assert forall n :: n in ContentsTo(env, policy, ts, |ts|) <==> exists i :: 0 <= i < |ts| && ts[i].name == n;
  }

  lemma EntriesMeet(env: Env, cfg: Config, ts: seq<TensorData>, ps: seq<Processed>, base: map<string, Bytes>)
    requires DistinctTensors(ts) && |ps| == |Order(env, ts)|
    requires forall k :: 0 <= k < |ps| ==> EntryOk(env, cfg, ts, ps, k, base, ContentsOf(env, cfg.policy, ts))
    ensures DistinctNames(EntriesOf(ps)) && ContentsOf(env, cfg.policy, ts).Keys == NamesOf(EntriesOf(ps))
    ensures forall p :: p in ps ==> Keeps(env, cfg.compression, ps, p, base, ContentsOf(env, cfg.policy, ts))
  {
    var contents := ContentsOf(env, cfg.policy, ts);
    var es := EntriesOf(ps);
    forall k | 0 <= k < |ps|
      ensures es[k].name == ts[Order(env, ts)[k]].name
    {
      KeepsAt(env, cfg, ts, ps, k, base, contents);
    }
    ContentsNames(env, cfg.policy, ts);
    hide *;
    NamesFollowOrder(env, ts, es);
    forall p | p in ps
      ensures Keeps(env, cfg.compression, ps, p, base, contents)
    {
      var k :| 0 <= k < |ps| && ps[k] == p;
      KeepsAt(env, cfg, ts, ps, k, base, contents);
    }
  }

  lemma KeepsAt(
      env: Env, cfg: Config, ts: seq<TensorData>, ps: seq<Processed>, k: nat, base: map<string, Bytes>,
      contents: Contents)
    requires EntryOk(env, cfg, ts, ps, k, base, contents)
    ensures k < |ps| && Keeps(env, cfg.compression, ps, ps[k], base, contents)
    ensures k < |Order(env, ts)| && ps[k].entry.name == ts[Order(env, ts)[k]].name
    ensures ps[k].entry.shape == ts[Order(env, ts)[k]].shape
    ensures ps[k].entry.name in contents && ps[k].entry.rawSize == |contents[ps[k].entry.name].raw|
  {
    hide Keeps;
  }

  /** The pack a save writes, with its entries, holds every tensor it was given: skipped, delta, full or alias. */
  lemma SavedHolds(
      env: Env, files: Files, cfg: RankConfig, cache: Option<Cache>, ts: seq<TensorData>, ctx: Context,
      base: map<string, Bytes>)
    requires Lawful(env) && DistinctTensors(ts)
    requires cache.Some? ==> Faithful(env, files, cache.value, base)
    requires SavedRank(env, files, cfg, cache, ts, ctx).Ok?
    ensures
      var w := SavedRank(env, files, cfg, cache, ts, ctx).value;
      ShardHolds(env, Shard(w.entry.tensors, w.pack, cfg.tensors.compression), base,
                 ContentsOf(env, cfg.tensors.policy, ts))
  {
    var ps := ProcessedAll(env, files, cfg.tensors, cache, ts).value;
    var algo := cfg.tensors.compression;
    var d := DescriptorOf(ctx, algo, cfg.worldSize, RankEntryOf(ctx.id, cfg.rank, Placed(ps)));
    assert SavedRank(env, files, cfg, cache, ts, ctx) == Ok(Written(d.rank, PackOf(env, ps, d)))
           && d.rank.tensors == Placed(ps) by {
      hide ProcessedAll, PackOf, Placed;
    }
    hide *;
    ProcessedAllKeeps(env, files, cfg.tensors, cache, ts, base);
    EntriesMeet(env, cfg.tensors, ts, ps, base);
    PlacedHolds(env, ps, d, algo, base, ContentsOf(env, cfg.tensors.policy, ts));
  }

  /** A save that succeeds could cast everything it was given. */
  lemma SavedMeansGiven(
      env: Env, files: Files, cfg: Config, cache: Option<Cache>, ts: seq<TensorData>, base: map<string, Bytes>, i: nat)
    requires Lawful(env) && i < |ts|
    requires cache.Some? ==> Faithful(env, files, cache.value, base)
    requires ProcessedAll(env, files, cfg, cache, ts).Ok?
    ensures Kept(env, cfg.policy, ts, i).Ok?
  {
    var own := Own(env, ts, |ts|);
    var j := HolderOf(env, ts, i);
    OwnFacts(env, ts, |ts|);
    HolderHoldsItself(env, ts, i);
    assert j in own;
    var k :| 0 <= k < |own| && own[k] == j;
    ProcessesStore(env, files, cfg, cache, ts, base);
    hide Own, OwnerOf, Processes, Stores, HolderOf, Given;
  }
}
