/** Loading one rank of a snapshot: everything in its pack, or a few named tensors by ranged reads. */
module Load {
  import opened Bytes
  import opened Compression
  import opened Manifest
  import opened Env
  import opened Tensor
  import opened Shard

  type State = map<string, Bytes>

  // ── The two passes of a whole load ───────────────────────────────

  function FirstPass(
      env: Env, files: Files, es: seq<TensorEntry>, n: nat, base: Option<Finder>, algo: Algo,
      source: Source): Result<State>
    requires n <= |es|
  {
    if n == 0 then Ok(map[])
    else
      var out :- FirstPass(env, files, es, n - 1, base, algo, source);
      var e := es[n - 1];
      if e.storage == Alias then Ok(out)
      else
        var data :- LoadTensor(env, files, e, base, algo, source);
        Ok(out[e.name := data])
  }

  /** Aliases take the bytes another name already has. */
  function SecondPass(es: seq<TensorEntry>, n: nat, out: State): Result<State>
    requires n <= |es|
  {
    if n == 0 then Ok(out)
    else
      var done :- SecondPass(es, n - 1, out);
      var e := es[n - 1];
      if e.storage != Alias then Ok(done)
      else if e.aliasOf.None? || e.aliasOf.value !in done then Err(NotFound)
      else Ok(done[e.name := done[e.aliasOf.value]])
  }

  function LoadAll(
      env: Env, files: Files, es: seq<TensorEntry>, base: Option<Finder>, algo: Algo, source: Source): Result<State> {
    var out :- FirstPass(env, files, es, |es|, base, algo, source);
    SecondPass(es, |es|, out)
  }

  method LoadEntries(env: Env, files: Files, es: seq<TensorEntry>, base: Option<Finder>, algo: Algo, source: Source)
    returns (r: Result<State>)
    ensures r == LoadAll(env, files, es, base, algo, source)
  {
    hide LoadTensor;
    var out: State := map[];
    for i := 0 to |es|
      invariant Ok(out) == FirstPass(env, files, es, i, base, algo, source)
    {
      if es[i].storage != Alias {
        var data := LoadTensor(env, files, es[i], base, algo, source);
        if data.Err? {
          FirstPassFails(env, files, es, i, |es|, base, algo, source);
          return Err(data.error);
        }
        out := out[es[i].name := data.value];
      }
    }
    ghost var loaded := out;
    for i := 0 to |es|
      invariant Ok(out) == SecondPass(es, i, loaded)
    {
      if es[i].storage == Alias {
        if es[i].aliasOf.None? || es[i].aliasOf.value !in out {
          SecondPassFails(es, i, |es|, loaded);
          return Err(NotFound);
        }
        out := out[es[i].name := out[es[i].aliasOf.value]];
      }
    }
    return Ok(out);
  }

  lemma {:induction false} FirstPassFails(
      env: Env, files: Files, es: seq<TensorEntry>, i: nat, n: nat, base: Option<Finder>, algo: Algo, source: Source)
    requires i < n <= |es| && es[i].storage != Alias
    requires FirstPass(env, files, es, i, base, algo, source).Ok?
    requires LoadTensor(env, files, es[i], base, algo, source).Err?
    ensures FirstPass(env, files, es, n, base, algo, source)
            == Err(LoadTensor(env, files, es[i], base, algo, source).error)
    decreases n
  {
    hide LoadTensor;
    if i + 1 < n {
      FirstPassFails(env, files, es, i, n - 1, base, algo, source);
    }
  }

  lemma {:induction false} SecondPassFails(es: seq<TensorEntry>, i: nat, n: nat, out: State)
    requires i < n <= |es| && es[i].storage == Alias && SecondPass(es, i, out).Ok?
    requires es[i].aliasOf.None? || es[i].aliasOf.value !in SecondPass(es, i, out).value
    ensures SecondPass(es, n, out) == Err(NotFound)
    decreases n
  {
    if i + 1 < n {
      SecondPassFails(es, i, n - 1, out);
    }
  }

  // ── A load hands back what the shard holds ───────────────────────

  ghost predicate Readable(env: Env, c: Contents) {
    forall n :: n in c ==> Read(env, c[n]).Ok?
  }

  ghost function ReadAll(env: Env, c: Contents): State
    requires Readable(env, c)
  {
    map n | n in c :: Read(env, c[n]).value
  }

  /** Where a shard is read from, and that the base it needs is found there. */
  ghost predicate Reachable(
      env: Env, files: Files, sh: Shard, base: map<string, Bytes>, find: Option<Finder>, algo: Algo, source: Source)
  {
    && SameKind(algo, sh.algo)
    && Provides(files, source, sh.pack)
    && forall n :: n in base ==> find.Some? && BaseRaw(env, files, find.value, n) == Ok(base[n])
  }

  lemma EntryLoads(
      env: Env, files: Files, sh: Shard, e: TensorEntry, base: map<string, Bytes>, contents: Contents,
      find: Option<Finder>, algo: Algo, source: Source)
    requires HoldsEntry(env, sh, e, base, contents) && e.storage != Alias
    requires Reachable(env, files, sh, base, find, algo, source)
    ensures LoadTensor(env, files, e, find, algo, source) == Read(env, contents[e.name])
  {
    var raw := contents[e.name].raw;
    var blob := BlobIn(sh, e);
    assert Stores(env, algo, e, blob, base, raw);
    if blob.Some? {
      ExtractsBlob(files, source, sh, e);
    }
    LoadsWhatIsStored(env, files, e, blob, find, algo, source, base, raw);
  }

  /** The names among the first `n` entries that carry bytes of their own, or all of them. */
  function Names(es: seq<TensorEntry>, n: nat, aliasesToo: bool): set<string>
    requires n <= |es|
  {
    if n == 0 then {}
    else Names(es, n - 1, aliasesToo) + if aliasesToo || es[n - 1].storage != Alias then {es[n - 1].name} else {}
  }

  ghost predicate ReadsAs(env: Env, contents: Contents, names: set<string>, out: Result<State>) {
    && names <= contents.Keys
    && (out.Ok? <==> forall m :: m in names ==> Read(env, contents[m]).Ok?)
    && (out.Ok? ==> out.value.Keys == names && forall m :: m in names ==> Ok(out.value[m]) == Read(env, contents[m]))
  }

  function Added(out: Result<State>, n: string, data: Result<Bytes>): Result<State> {
    var m :- out;
    var d :- data;
    Ok(m[n := d])
  }

  lemma ReadsOneMore(env: Env, contents: Contents, names: set<string>, out: Result<State>, n: string)
    requires ReadsAs(env, contents, names, out) && n in contents
    ensures ReadsAs(env, contents, names + {n}, Added(out, n, Read(env, contents[n])))
    ensures out.Ok? && Read(env, contents[n]).Ok? ==> Added(out, n, Read(env, contents[n])).Ok?
  {
    hide Read;
  }

  lemma FirstPassStep(
      env: Env, files: Files, es: seq<TensorEntry>, n: nat, base: Option<Finder>, algo: Algo, source: Source)
    requires 0 < n <= |es|
    ensures
      var e := es[n - 1];
      var before := FirstPass(env, files, es, n - 1, base, algo, source);
      var after := FirstPass(env, files, es, n, base, algo, source);
      if e.storage == Alias then after == before && Names(es, n, false) == Names(es, n - 1, false)
      else after == Added(before, e.name, LoadTensor(env, files, e, base, algo, source))
           && Names(es, n, false) == Names(es, n - 1, false) + {e.name}
  {
    hide LoadTensor;
  }

  lemma NothingRead(
      env: Env, files: Files, es: seq<TensorEntry>, contents: Contents, base: Option<Finder>, algo: Algo,
      source: Source)
    ensures ReadsAs(env, contents, Names(es, 0, false), FirstPass(env, files, es, 0, base, algo, source))
  {
  }

  lemma {:induction false} FirstPassReads(
      env: Env, files: Files, sh: Shard, n: nat, base: map<string, Bytes>, contents: Contents,
      find: Option<Finder>, algo: Algo, source: Source)
    requires ShardHolds(env, sh, base, contents) && n <= |sh.entries|
    requires Reachable(env, files, sh, base, find, algo, source)
    ensures ReadsAs(env, contents, Names(sh.entries, n, false),
                    FirstPass(env, files, sh.entries, n, find, algo, source))
  {
    hide *;
    if n == 0 {
      NothingRead(env, files, sh.entries, contents, find, algo, source);
    } else {
      FirstPassReads(env, files, sh, n - 1, base, contents, find, algo, source);
      FirstPassStep(env, files, sh.entries, n, find, algo, source);
      HoldsAt(env, sh, base, contents, n - 1);
      var e := sh.entries[n - 1];
      if e.storage != Alias {
        EntryLoads(env, files, sh, e, base, contents, find, algo, source);
        ReadsOneMore(env, contents, Names(sh.entries, n - 1, false),
                     FirstPass(env, files, sh.entries, n - 1, find, algo, source), e.name);
      }
    }
  }

  /** The names with bytes once the second pass has been through `n` entries. */
  function Covered(es: seq<TensorEntry>, n: nat): set<string>
    requires n <= |es|
  {
    Names(es, |es|, false) + Names(es, n, true)
  }

  lemma SecondPassStart(es: seq<TensorEntry>, out: State)
    ensures Covered(es, 0) == Names(es, |es|, false) && SecondPass(es, 0, out) == Ok(out)
  {
  }

  lemma SecondPassStep(es: seq<TensorEntry>, n: nat, out: State)
    requires 0 < n <= |es|
    ensures
      var e := es[n - 1];
      var before := SecondPass(es, n - 1, out);
      && Covered(es, n) == Covered(es, n - 1) + {e.name}
      && (e.storage != Alias ==> Covered(es, n) == Covered(es, n - 1) && SecondPass(es, n, out) == before)
      && (e.storage == Alias && before.Ok? && e.aliasOf.Some? && e.aliasOf.value in before.value ==>
            SecondPass(es, n, out) == Added(before, e.name, Ok(before.value[e.aliasOf.value])))
  {
    if es[n - 1].storage != Alias {
      NamesInclude(es, n - 1, |es|, false);
    }
    hide Names;
  }

  lemma {:induction false} SecondPassReads(
      env: Env, sh: Shard, n: nat, base: map<string, Bytes>, contents: Contents, out: State)
    requires ShardHolds(env, sh, base, contents) && n <= |sh.entries|
    requires ReadsAs(env, contents, Names(sh.entries, |sh.entries|, false), Ok(out))
    ensures ReadsAs(env, contents, Covered(sh.entries, n), SecondPass(sh.entries, n, out))
    ensures SecondPass(sh.entries, n, out).Ok?
  {
    hide *;
    var es := sh.entries;
    if n == 0 {
      SecondPassStart(es, out);
    } else {
      SecondPassReads(env, sh, n - 1, base, contents, out);
      SecondPassStep(es, n, out);
      if es[n - 1].storage == Alias {
        HoldsAt(env, sh, base, contents, n - 1);
        var t := Target(env, sh, base, contents, n - 1);
        CoversDirect(es, t, n - 1);
        ReadsHas(env, contents, Covered(es, n - 1), SecondPass(es, n - 1, out), es[t].name);
        ReadsOneMore(env, contents, Covered(es, n - 1), SecondPass(es, n - 1, out), es[n - 1].name);
      }
    }
  }

  lemma CoversDirect(es: seq<TensorEntry>, k: nat, n: nat)
    requires n <= |es| && k < |es| && es[k].storage != Alias
    ensures es[k].name in Covered(es, n)
  {
    NamesInclude(es, k, |es|, false);
    hide Names;
  }

  lemma ReadsHas(env: Env, contents: Contents, names: set<string>, out: Result<State>, n: string)
    requires ReadsAs(env, contents, names, out) && n in names && out.Ok?
    ensures n in contents && n in out.value && Ok(out.value[n]) == Read(env, contents[n])
  {
  }

  lemma {:induction false} NamesInclude(es: seq<TensorEntry>, k: nat, n: nat, aliasesToo: bool)
    requires k < n <= |es| && (aliasesToo || es[k].storage != Alias)
    ensures es[k].name in Names(es, n, aliasesToo)
  {
    if k < n - 1 {
      NamesInclude(es, k, n - 1, aliasesToo);
    }
  }

  lemma {:induction false} NamesAreThere(es: seq<TensorEntry>, n: nat, aliasesToo: bool)
    requires n <= |es|
    ensures Names(es, n, aliasesToo) <= NamesOf(es)
  {
    if n > 0 {
      NamesAreThere(es, n - 1, aliasesToo);
      assert es[n - 1] in es;
    }
  }

  lemma AllNames(es: seq<TensorEntry>)
    ensures Covered(es, |es|) == NamesOf(es)
  {
    NamesAreThere(es, |es|, true);
    NamesAreThere(es, |es|, false);
    forall e | e in es
      ensures e.name in Names(es, |es|, true)
    {
      var k :| 0 <= k < |es| && es[k] == e;
      NamesInclude(es, k, |es|, true);
    }
  }

  /** A load gives, under every name, what the shard holds there; it fails only if a cast cannot be undone. */
  lemma LoadAllReads(
      env: Env, files: Files, sh: Shard, base: map<string, Bytes>, contents: Contents,
      find: Option<Finder>, algo: Algo, source: Source)
    requires ShardHolds(env, sh, base, contents)
    requires Reachable(env, files, sh, base, find, algo, source)
    ensures
      var out := LoadAll(env, files, sh.entries, find, algo, source);
      && (out.Ok? <==> Readable(env, contents))
      && (out.Ok? ==> out.value == ReadAll(env, contents))
  {
    var es := sh.entries;
    var first := FirstPass(env, files, es, |es|, find, algo, source);
    var out := LoadAll(env, files, es, find, algo, source);
    assert out == match first case Err(e) => Err(e) case Ok(m) => SecondPass(es, |es|, m);
    assert contents.Keys == NamesOf(es);
    hide *;
    FirstPassReads(env, files, sh, |es|, base, contents, find, algo, source);
    AllNames(es);
    if first.Ok? {
      SecondPassReads(env, sh, |es|, base, contents, first.value);
      AllRead(env, contents, out);
    } else {
      SomeUnreadable(env, contents, Names(es, |es|, false), first);
    }
  }

  // ── A base that may be out of reach ──────────────────────────────

  /** A lookup in the base either fails or gives the base's own bytes. */
  ghost predicate NeverWrong(
      env: Env, files: Files, sh: Shard, base: map<string, Bytes>, find: Option<Finder>, algo: Algo)
  {
    && SameKind(algo, sh.algo)
    && (find.Some? ==> forall n ::
        n in base && BaseRaw(env, files, find.value, n).Ok? ==> BaseRaw(env, files, find.value, n) == Ok(base[n]))
  }

  lemma EntryNeverWrong(
      env: Env, files: Files, sh: Shard, e: TensorEntry, base: map<string, Bytes>, contents: Contents,
      find: Option<Finder>, algo: Algo, source: Source)
    requires Lawful(env) && HoldsEntry(env, sh, e, base, contents) && e.storage != Alias
    requires NeverWrong(env, files, sh, base, find, algo)
    requires LoadTensor(env, files, e, find, algo, source).Ok?
    ensures LoadTensor(env, files, e, find, algo, source) == Read(env, contents[e.name])
  {
    hide *;
    NeverWrongAt(env, files, sh, base, find, algo, e.name);
    HeldStores(env, sh, e, base, contents, algo);
    var raw := contents[e.name].raw;
    if e.storage == Skipped {
      SkippedShows(env, files, e, find, algo, source, base, raw);
    } else {
      DamageShows(env, files, e, BlobIn(sh, e), find, algo, source, base, raw);
    }
    ReadOf(env, files, e, find, algo, source, contents[e.name]);
  }

  lemma ReadOf(
      env: Env, files: Files, e: TensorEntry, find: Option<Finder>, algo: Algo, source: Source, held: Held)
    requires LoadTensor(env, files, e, find, algo, source).Ok? && HeldAs(e, held.raw) == held
    requires LoadRaw(env, files, e, find, algo, source).Ok? ==>
               LoadRaw(env, files, e, find, algo, source) == Ok(held.raw)
    ensures LoadTensor(env, files, e, find, algo, source) == Read(env, held)
  {
    hide LoadRaw, Read;
  }

  lemma NeverWrongAt(
      env: Env, files: Files, sh: Shard, base: map<string, Bytes>, find: Option<Finder>, algo: Algo, n: string)
    requires NeverWrong(env, files, sh, base, find, algo)
    ensures SameKind(algo, sh.algo)
    ensures find.Some? && n in base && BaseRaw(env, files, find.value, n).Ok? ==>
              BaseRaw(env, files, find.value, n) == Ok(base[n])
  {
    hide BaseRaw;
  }

  /** An entry the shard holds, under any algorithm of the writer's kind. */
  lemma HeldStores(
      env: Env, sh: Shard, e: TensorEntry, base: map<string, Bytes>, contents: Contents, algo: Algo)
    requires HoldsEntry(env, sh, e, base, contents) && e.storage != Alias
    requires SameKind(algo, sh.algo)
    ensures e.name in contents && HeldAs(e, contents[e.name].raw) == contents[e.name]
    ensures e.storage in {Full, DeltaXor, Skipped}
    ensures Stores(env, algo, e, BlobIn(sh, e), base, contents[e.name].raw)
    ensures e.storage == Skipped ==> BlobIn(sh, e) == None && e.name in base
  {
  }

  lemma {:induction false} FirstPassNeverWrong(
      env: Env, files: Files, sh: Shard, n: nat, base: map<string, Bytes>, contents: Contents,
      find: Option<Finder>, algo: Algo, source: Source)
    requires Lawful(env) && ShardHolds(env, sh, base, contents) && n <= |sh.entries|
    requires NeverWrong(env, files, sh, base, find, algo)
    requires FirstPass(env, files, sh.entries, n, find, algo, source).Ok?
    ensures ReadsAs(env, contents, Names(sh.entries, n, false),
                    FirstPass(env, files, sh.entries, n, find, algo, source))
  {
    hide *;
    if n == 0 {
      NothingRead(env, files, sh.entries, contents, find, algo, source);
    } else {
      FirstPassStep(env, files, sh.entries, n, find, algo, source);
      AddedOk(FirstPass(env, files, sh.entries, n - 1, find, algo, source), sh.entries[n - 1].name,
              LoadTensor(env, files, sh.entries[n - 1], find, algo, source));
      FirstPassNeverWrong(env, files, sh, n - 1, base, contents, find, algo, source);
      HoldsAt(env, sh, base, contents, n - 1);
      var e := sh.entries[n - 1];
      if e.storage != Alias {
        EntryNeverWrong(env, files, sh, e, base, contents, find, algo, source);
        ReadsOneMore(env, contents, Names(sh.entries, n - 1, false),
                     FirstPass(env, files, sh.entries, n - 1, find, algo, source), e.name);
      }
    }
  }

  lemma AddedOk(out: Result<State>, n: string, data: Result<Bytes>)
    ensures Added(out, n, data).Ok? ==> out.Ok? && data.Ok?
  {
  }

  /**
   Whatever becomes of the base, and whatever is read for the pack, a load that succeeds returns what
   the shard holds.
   */
  lemma LoadAllNeverWrong(
      env: Env, files: Files, sh: Shard, base: map<string, Bytes>, contents: Contents,
      find: Option<Finder>, algo: Algo, source: Source)
    requires Lawful(env) && ShardHolds(env, sh, base, contents)
    requires NeverWrong(env, files, sh, base, find, algo)
    requires LoadAll(env, files, sh.entries, find, algo, source).Ok?
    ensures Readable(env, contents)
            && LoadAll(env, files, sh.entries, find, algo, source).value == ReadAll(env, contents)
  {
    var es := sh.entries;
    var first := FirstPass(env, files, es, |es|, find, algo, source);
    var out := LoadAll(env, files, es, find, algo, source);
    assert first.Ok? && out == SecondPass(es, |es|, first.value);
    assert contents.Keys == NamesOf(es);
    hide *;
    FirstPassNeverWrong(env, files, sh, |es|, base, contents, find, algo, source);
    AllNames(es);
    SecondPassReads(env, sh, |es|, base, contents, first.value);
    AllRead(env, contents, out);
  }

  /**
   Storage can be damaged in any way: with any bytes in place of the snapshot's pack and any in place
   of its base's, a load gives what the snapshot holds, all of it, or an error.
   */
  lemma DamageIsNoticed(
      env: Env, files: Files, sh: Shard, contents: Contents, algo: Algo, source: Source,
      baseShard: Shard, baseContents: Contents, baseSource: Source)
    requires Lawful(env) && SameKind(algo, sh.algo)
    requires ShardHolds(env, baseShard, map[], baseContents) && ShardHolds(env, sh, Raws(baseContents), contents)
    ensures
      var ctx := BaseCtx(EntryMap(baseShard.entries), baseShard.algo, baseSource);
      var out := LoadAll(env, files, sh.entries, Some(ctx.Finder()), algo, source);
      out.Ok? ==> Readable(env, contents) && out.value == ReadAll(env, contents)
  {
    var ctx := BaseCtx(EntryMap(baseShard.entries), baseShard.algo, baseSource);
    var base, find := Raws(baseContents), Some(ctx.Finder());
    hide ShardHolds, LoadAll, Readable, ReadAll, Lawful, EntryMap, BaseRaw;
    forall n | n in base && BaseRaw(env, files, find.value, n).Ok?
      ensures BaseRaw(env, files, find.value, n) == Ok(base[n])
    {
      FullBaseNeverWrong(env, files, baseShard, baseContents, ctx, n);
    }
    if LoadAll(env, files, sh.entries, find, algo, source).Ok? {
      LoadAllNeverWrong(env, files, sh, base, contents, find, algo, source);
    }
  }

  // ── Exactly when a load succeeds ─────────────────────────────────

  predicate NeedsBase(e: TensorEntry) {
    e.storage in {Skipped, DeltaXor}
  }

  ghost predicate BaseFound(env: Env, files: Files, base: map<string, Bytes>, find: Option<Finder>) {
    forall n :: n in base ==> find.Some? && BaseRaw(env, files, find.value, n) == Ok(base[n])
  }

  ghost predicate BaseLost(env: Env, files: Files, find: Option<Finder>) {
    find.Some? ==> forall n :: BaseRaw(env, files, find.value, n).Err?
  }

  lemma LostEntryFails(env: Env, files: Files, e: TensorEntry, find: Option<Finder>, algo: Algo, source: Source)
    requires BaseLost(env, files, find) && NeedsBase(e)
    ensures LoadTensor(env, files, e, find, algo, source).Err?
  {
    assert find.Some? ==> BaseRaw(env, files, find.value, e.name).Err?;
    hide Resolved, Extract, Decompressed, Read;
  }

  lemma {:induction false} LostPassFails(
      env: Env, files: Files, es: seq<TensorEntry>, n: nat, find: Option<Finder>, algo: Algo, source: Source, k: nat)
    requires BaseLost(env, files, find) && k < n <= |es| && NeedsBase(es[k])
    ensures FirstPass(env, files, es, n, find, algo, source).Err?
  {
    if k == n - 1 {
      LostEntryFails(env, files, es[k], find, algo, source);
    } else {
      LostPassFails(env, files, es, n - 1, find, algo, source, k);
    }
    hide BaseLost, LoadTensor;
  }

  lemma HoldsWithoutBase(env: Env, sh: Shard, base: map<string, Bytes>, contents: Contents)
    requires ShardHolds(env, sh, base, contents)
    requires forall e :: e in sh.entries ==> !NeedsBase(e)
    ensures ShardHolds(env, sh, map[], contents)
  {
    hide DistinctNames, NamesOf;
    forall e | e in sh.entries
      ensures HoldsEntry(env, sh, e, map[], contents)
    {
      assert HoldsEntry(env, sh, e, base, contents) && !NeedsBase(e);
    }
  }

  lemma ReachableIf(
      env: Env, files: Files, sh: Shard, base: map<string, Bytes>, find: Option<Finder>, algo: Algo, source: Source)
    requires SameKind(algo, sh.algo) && Provides(files, source, sh.pack) && BaseFound(env, files, base, find)
    ensures Reachable(env, files, sh, base, find, algo, source)
  {
    hide BaseRaw, Provides;
  }

  lemma NothingToFind(env: Env, files: Files, find: Option<Finder>)
    ensures BaseFound(env, files, map[], find)
  {
  }

  /**
   With a base that is either found or lost: the load succeeds exactly when every cast can be undone
   and, if the base is lost, no entry is read against it.
   */
  lemma LoadAllExactly(
      env: Env, files: Files, sh: Shard, base: map<string, Bytes>, contents: Contents,
      find: Option<Finder>, algo: Algo, source: Source)
    requires ShardHolds(env, sh, base, contents) && SameKind(algo, sh.algo) && Provides(files, source, sh.pack)
    requires BaseFound(env, files, base, find) || BaseLost(env, files, find)
    ensures
      var out := LoadAll(env, files, sh.entries, find, algo, source);
      && (out.Ok? <==>
            Readable(env, contents)
            && (BaseFound(env, files, base, find) || forall e :: e in sh.entries ==> !NeedsBase(e)))
      && (out.Ok? ==> out.value == ReadAll(env, contents))
  {
    hide ShardHolds, Provides, BaseFound, BaseLost, Readable, ReadAll, FirstPass, SecondPass, Reachable;
    if BaseFound(env, files, base, find) {
      ReachableIf(env, files, sh, base, find, algo, source);
      LoadAllReads(env, files, sh, base, contents, find, algo, source);
    } else if forall e :: e in sh.entries ==> !NeedsBase(e) {
      HoldsWithoutBase(env, sh, base, contents);
      NothingToFind(env, files, find);
      ReachableIf(env, files, sh, map[], find, algo, source);
      LoadAllReads(env, files, sh, map[], contents, find, algo, source);
    } else {
      var e :| e in sh.entries && NeedsBase(e);
      var k :| 0 <= k < |sh.entries| && sh.entries[k] == e;
      LostPassFails(env, files, sh.entries, |sh.entries|, find, algo, source, k);
    }
  }

  /** The entry whose bytes a name gets: its own, or the one its alias points at. */
  function BytesOf(es: seq<TensorEntry>, n: string): Option<TensorEntry> {
    match FirstNamed(es, n)
    case None => None
    case Some(e) =>
      if e.storage != Alias then Some(e)
      else if e.aliasOf.None? then None
      else FirstNamed(es, e.aliasOf.value)
  }

  /** The bytes of this name are read against the base. */
  predicate NameNeedsBase(es: seq<TensorEntry>, n: string) {
    BytesOf(es, n).Some? && NeedsBase(BytesOf(es, n).value)
  }

  lemma BytesOfHeld(env: Env, sh: Shard, base: map<string, Bytes>, contents: Contents, n: string)
    requires ShardHolds(env, sh, base, contents)
    ensures n !in contents ==> FirstNamed(sh.entries, n).None?
    ensures n in contents ==>
              var e := BytesOf(sh.entries, n);
              && e.Some? && e.value in sh.entries && e.value.storage != Alias
              && HoldsEntry(env, sh, e.value, base, contents) && contents[e.value.name] == contents[n]
  {
    assert contents.Keys == NamesOf(sh.entries) && DistinctNames(sh.entries);
    var first := FirstNamed(sh.entries, n);
    assert first.Some? ==> first.value.name in NamesOf(sh.entries);
    if n in contents {
      var k, t := Holder(env, sh, base, contents, n);
      FirstIsAt(sh.entries, k);
      FirstIsAt(sh.entries, t);
      hide FirstNamed, HoldsEntry, NamesOf, DistinctNames;
      HoldsAt(env, sh, base, contents, t);
    }
  }

  /** One name: right bytes, or an error exactly when the name or its cast is missing, or its bytes need a lost base. */
  lemma OneLoadsExactly(
      env: Env, files: Files, sh: Shard, n: string, base: map<string, Bytes>, contents: Contents,
      find: Option<Finder>, algo: Algo, source: Source)
    requires ShardHolds(env, sh, base, contents) && SameKind(algo, sh.algo) && Provides(files, source, sh.pack)
    requires BaseFound(env, files, base, find) || BaseLost(env, files, find)
    ensures
      var out := LoadOne(env, files, sh.entries, n, find, algo, source);
      && (out.Ok? <==>
            && n in contents && Read(env, contents[n]).Ok?
            && (BaseFound(env, files, base, find) || !NameNeedsBase(sh.entries, n)))
      && (out.Ok? ==> out == Read(env, contents[n]))
  {
    BytesOfHeld(env, sh, base, contents, n);
    hide ShardHolds, Provides, BaseFound, BaseLost, Reachable, Read, LoadTensor, FirstNamed;
    if BaseFound(env, files, base, find) {
      ReachableIf(env, files, sh, base, find, algo, source);
      OneLoads(env, files, sh, n, base, contents, find, algo, source);
    } else if n in contents {
      var e := BytesOf(sh.entries, n).value;
      if NeedsBase(e) {
        LostEntryFails(env, files, e, find, algo, source);
      } else {
        HeldWithoutBase(env, sh, e, base, contents);
        NothingToFind(env, files, find);
        ReachableIf(env, files, sh, map[], find, algo, source);
        EntryLoads(env, files, sh, e, map[], contents, find, algo, source);
      }
    }
  }

  lemma HeldWithoutBase(env: Env, sh: Shard, e: TensorEntry, base: map<string, Bytes>, contents: Contents)
    requires HoldsEntry(env, sh, e, base, contents) && !NeedsBase(e)
    ensures HoldsEntry(env, sh, e, map[], contents)
  {
  }

  lemma AllRead(env: Env, contents: Contents, out: Result<State>)
    requires ReadsAs(env, contents, contents.Keys, out)
    ensures out.Ok? ==> Readable(env, contents) && out.value == ReadAll(env, contents)
  {
    hide Read;
  }

  lemma SomeUnreadable(env: Env, contents: Contents, names: set<string>, out: Result<State>)
    requires ReadsAs(env, contents, names, out) && out.Err?
    ensures !Readable(env, contents)
  {
    hide Read;
  }

  // ── From the manifest ────────────────────────────────────────────

  function FirstNamed(es: seq<TensorEntry>, n: string): (r: Option<TensorEntry>)
    ensures r.Some? ==> r.value in es && r.value.name == n
    ensures r.None? ==> n !in NamesOf(es)
  {
    if es == [] then None
    else if es[0].name == n then Some(es[0])
    else
      assert forall e :: e in es <==> e == es[0] || e in es[1..];
      FirstNamed(es[1..], n)
  }

  function PackSource(files: Files, re: RankEntry, whole: bool): Result<Source> {
    match re.packFile
    case None => Ok(PerFile)
    case Some(path) =>
      if whole then
        var bytes :- Get(files, path);
        Ok(Whole(bytes))
      else Ok(Ranged(path))
  }

  /** Looks a name up in the base each time it is asked. */
  function BaseLookup(files: Files, ss: seq<Snapshot>, rank: nat, base: Id, whole: bool): Finder {
    (n: string) =>
      match Find(ss, base)
      case None => Err(NotFound)
      case Some(bs) =>
        if rank !in bs.ranks then Err(NotFound)
        else
          match FirstNamed(bs.ranks[rank].tensors, n)
          case None => Err(NotFound)
          case Some(e) =>
            match PackSource(files, bs.ranks[rank], whole)
            case Err(error) => Err(error)
            case Ok(source) => Ok(BaseEntry(e, bs.compression, source))
  }

  /** Reads the base's pack once, when some tensor may need it and the base is still in the manifest. */
  function Prefetched(
      files: Files, ss: seq<Snapshot>, rank: nat, s: Snapshot, es: seq<TensorEntry>): Result<Option<BaseCtx>> {
    if s.base.None? || forall e :: e in es ==> e.storage == Full then Ok(None)
    else
      match Find(ss, s.base.value)
      case None => Ok(None)
      case Some(bs) =>
        if rank !in bs.ranks then Ok(None)
        else
          var source :- PackSource(files, bs.ranks[rank], true);
          Ok(Some(BaseCtx(EntryMap(bs.ranks[rank].tensors), bs.compression, source)))
  }

  function FinderFor(
      files: Files, ss: seq<Snapshot>, rank: nat, s: Snapshot, ctx: Option<BaseCtx>, whole: bool): Option<Finder> {
    match s.base
    case None => None
    case Some(base) => Some(if ctx.Some? then ctx.value.Finder() else BaseLookup(files, ss, rank, base, whole))
  }

  function Load(env: Env, files: Files, ss: seq<Snapshot>, id: Id, rank: nat): Result<State> {
    match Find(ss, id)
    case None => Err(NotFound)
    case Some(s) =>
      if rank !in s.ranks then Err(NotFound)
      else
        var source :- PackSource(files, s.ranks[rank], true);
        var es := s.ranks[rank].tensors;
        var ctx :- Prefetched(files, ss, rank, s, es);
        LoadAll(env, files, es, FinderFor(files, ss, rank, s, ctx, true), s.compression, source)
  }

  /** One named tensor, through its alias if it is one. */
  function LoadOne(
      env: Env, files: Files, es: seq<TensorEntry>, n: string, find: Option<Finder>, algo: Algo,
      source: Source): Result<Bytes> {
    match FirstNamed(es, n)
    case None => Err(NotFound)
    case Some(e) =>
      if e.storage != Alias then LoadTensor(env, files, e, find, algo, source)
      else if e.aliasOf.None? then Err(NotFound)
      else
        match FirstNamed(es, e.aliasOf.value)
        case None => Err(NotFound)
        case Some(target) => LoadTensor(env, files, target, find, algo, source)
  }

  function LoadEach(
      env: Env, files: Files, es: seq<TensorEntry>, names: seq<string>, find: Option<Finder>, algo: Algo,
      source: Source): Result<State>
  {
    if names == [] then Ok(map[])
    else
      var last := |names| - 1;
      var out :- LoadEach(env, files, es, names[..last], find, algo, source);
      var data :- LoadOne(env, files, es, names[last], find, algo, source);
      Ok(out[names[last] := data])
  }

  function LoadNames(env: Env, files: Files, ss: seq<Snapshot>, id: Id, rank: nat, names: seq<string>): Result<State> {
    match Find(ss, id)
    case None => Err(NotFound)
    case Some(s) =>
      if rank !in s.ranks then Err(NotFound)
      else
        var source :- PackSource(files, s.ranks[rank], false);
        LoadEach(env, files, s.ranks[rank].tensors, names, FinderFor(files, ss, rank, s, None, false), s.compression,
                 source)
  }

  /** `s` is on storage and its pack, read against a base holding `base`, stands for `contents`. */
  ghost predicate Stored(
      env: Env, files: Files, s: Snapshot, rank: nat, pack: Bytes, base: map<string, Bytes>, contents: Contents)
  {
    && rank in s.ranks
    && var re := s.ranks[rank];
       && re.packFile.Some? && re.packFile.value in files
       && Holds(files[re.packFile.value], pack)
       && ShardHolds(env, Shard(re.tensors, pack, s.compression), base, contents)
  }

  /** A snapshot of the manifest with, for a delta, the full it was taken against. */
  ghost predicate Resident(
      env: Env, files: Files, ss: seq<Snapshot>, s: Snapshot, rank: nat, pack: Bytes, contents: Contents,
      basePack: Bytes, baseContents: Contents)
  {
    match s.base
    case None => Stored(env, files, s, rank, pack, map[], contents)
    case Some(b) =>
      && Stored(env, files, s, rank, pack, Raws(baseContents), contents)
      && Find(ss, b).Some?
      && Stored(env, files, Find(ss, b).value, rank, basePack, map[], baseContents)
  }

  lemma SourceProvides(
      env: Env, files: Files, s: Snapshot, rank: nat, pack: Bytes, base: map<string, Bytes>, contents: Contents,
      whole: bool)
    requires Stored(env, files, s, rank, pack, base, contents)
    ensures PackSource(files, s.ranks[rank], whole).Ok?
    ensures Provides(files, PackSource(files, s.ranks[rank], whole).value, pack)
  {
  }

  lemma CtxFindsBase(
      env: Env, files: Files, bs: Snapshot, rank: nat, pack: Bytes, contents: Contents, ctx: BaseCtx)
    requires Stored(env, files, bs, rank, pack, map[], contents)
    requires ctx.entries == EntryMap(bs.ranks[rank].tensors) && ctx.compression == bs.compression
    requires Provides(files, ctx.source, pack)
    ensures forall n :: n in Raws(contents) ==> BaseRaw(env, files, ctx.Finder(), n) == Ok(Raws(contents)[n])
  {
    var sh := Shard(bs.ranks[rank].tensors, pack, bs.compression);
    assert ShardHolds(env, sh, map[], contents);
    hide ShardHolds, BaseRaw, EntryMap;
    forall n | n in contents
      ensures BaseRaw(env, files, ctx.Finder(), n) == Ok(contents[n].raw)
    {
      FullBaseGivesRaw(env, files, sh, contents, ctx, n);
    }
  }

  /** Asking the manifest each time finds the same entries as the prefetched table. */
  lemma LookupIsTable(
      files: Files, ss: seq<Snapshot>, rank: nat, base: Id, whole: bool, bs: Snapshot, source: Source, n: string)
    requires Find(ss, base) == Some(bs) && rank in bs.ranks && DistinctNames(bs.ranks[rank].tensors)
    requires PackSource(files, bs.ranks[rank], whole) == Ok(source)
    ensures BaseLookup(files, ss, rank, base, whole)(n)
            == BaseCtx(EntryMap(bs.ranks[rank].tensors), bs.compression, source).Finder()(n)
  {
    var es := bs.ranks[rank].tensors;
    var first := FirstNamed(es, n);
    if first.Some? {
      var k :| 0 <= k < |es| && es[k] == first.value;
      EntryMapAt(es, k);
    }
  }

  lemma {:induction false} SameFinder(f: Finder, g: Finder, n: string, fuel: nat)
    requires forall m :: f(m) == g(m)
    ensures Resolved(f, n, fuel) == Resolved(g, n, fuel)
    decreases fuel
  {
    assert f(n) == g(n);
    if fuel > 0 && f(n).Ok? && f(n).value.entry.storage == Alias && f(n).value.entry.aliasOf.Some? {
      SameFinder(f, g, f(n).value.entry.aliasOf.value, fuel - 1);
    }
  }

  lemma SameFinderSameRaw(env: Env, files: Files, f: Finder, g: Finder, n: string)
    requires forall m :: f(m) == g(m)
    ensures BaseRaw(env, files, f, n) == BaseRaw(env, files, g, n)
  {
    SameFinder(f, g, n, HOPS);
    hide Resolved, LoadRaw;
  }

  lemma LookupFindsBase(
      env: Env, files: Files, ss: seq<Snapshot>, bs: Snapshot, rank: nat, pack: Bytes, contents: Contents, base: Id,
      whole: bool)
    requires Find(ss, base) == Some(bs) && Stored(env, files, bs, rank, pack, map[], contents)
    ensures
      var find := BaseLookup(files, ss, rank, base, whole);
      forall n :: n in Raws(contents) ==> BaseRaw(env, files, find, n) == Ok(Raws(contents)[n])
  {
    assert rank in bs.ranks && DistinctNames(bs.ranks[rank].tensors);
    SourceProvides(env, files, bs, rank, pack, map[], contents, whole);
    var source := PackSource(files, bs.ranks[rank], whole).value;
    var ctx := BaseCtx(EntryMap(bs.ranks[rank].tensors), bs.compression, source);
    CtxFindsBase(env, files, bs, rank, pack, contents, ctx);
    var find := BaseLookup(files, ss, rank, base, whole);
    hide *;
    forall n
      ensures find(n) == ctx.Finder()(n)
    {
      LookupIsTable(files, ss, rank, base, whole, bs, source, n);
    }
    forall n | n in Raws(contents)
      ensures BaseRaw(env, files, find, n) == Ok(Raws(contents)[n])
    {
      SameFinderSameRaw(env, files, find, ctx.Finder(), n);
    }
  }

  lemma FinderReaches(
      env: Env, files: Files, ss: seq<Snapshot>, s: Snapshot, rank: nat, pack: Bytes, contents: Contents,
      basePack: Bytes, baseContents: Contents, ctx: Option<BaseCtx>, whole: bool, source: Source)
    requires Resident(env, files, ss, s, rank, pack, contents, basePack, baseContents)
    requires PackSource(files, s.ranks[rank], whole) == Ok(source)
    requires ctx.Some? ==> Prefetched(files, ss, rank, s, s.ranks[rank].tensors) == Ok(ctx)
    ensures
      var base := if s.base.Some? then Raws(baseContents) else map[];
      Reachable(env, files, Shard(s.ranks[rank].tensors, pack, s.compression), base,
                FinderFor(files, ss, rank, s, ctx, whole), s.compression, source)
  {
    hide ShardHolds, BaseRaw;
    var base := if s.base.Some? then Raws(baseContents) else map[];
    SourceProvides(env, files, s, rank, pack, base, contents, whole);
    if s.base.Some? {
      var bs := Find(ss, s.base.value).value;
      if ctx.Some? {
        SourceProvides(env, files, bs, rank, basePack, map[], baseContents, true);
        CtxFindsBase(env, files, bs, rank, basePack, baseContents, ctx.value);
      } else {
        LookupFindsBase(env, files, ss, bs, rank, basePack, baseContents, s.base.value, whole);
      }
    }
  }

  lemma PrefetchSucceeds(
      env: Env, files: Files, ss: seq<Snapshot>, s: Snapshot, rank: nat, pack: Bytes, contents: Contents,
      basePack: Bytes, baseContents: Contents)
    requires Resident(env, files, ss, s, rank, pack, contents, basePack, baseContents)
    ensures Prefetched(files, ss, rank, s, s.ranks[rank].tensors).Ok?
  {
    hide ShardHolds;
  }

  /** `load` returns, under every name the snapshot holds and no other, exactly what it holds there. */
  lemma LoadIsContents(
      env: Env, files: Files, ss: seq<Snapshot>, s: Snapshot, rank: nat, pack: Bytes, contents: Contents,
      basePack: Bytes, baseContents: Contents)
    requires Find(ss, s.id) == Some(s)
    requires Resident(env, files, ss, s, rank, pack, contents, basePack, baseContents)
    ensures
      var out := Load(env, files, ss, s.id, rank);
      && (out.Ok? <==> Readable(env, contents))
      && (out.Ok? ==> out.value == ReadAll(env, contents))
  {
    var base := if s.base.Some? then Raws(baseContents) else map[];
    var es := s.ranks[rank].tensors;
    var sh := Shard(es, pack, s.compression);
    assert Stored(env, files, s, rank, pack, base, contents);
    assert ShardHolds(env, sh, base, contents);
    SourceProvides(env, files, s, rank, pack, base, contents, true);
    PrefetchSucceeds(env, files, ss, s, rank, pack, contents, basePack, baseContents);
    var source := PackSource(files, s.ranks[rank], true).value;
    var ctx := Prefetched(files, ss, rank, s, es).value;
    var find := FinderFor(files, ss, rank, s, ctx, true);
    assert Load(env, files, ss, s.id, rank) == LoadAll(env, files, es, find, s.compression, source) by {
      hide LoadAll, FinderFor, Prefetched, Stored;
    }
    FinderReaches(env, files, ss, s, rank, pack, contents, basePack, baseContents, ctx, true, source);
    hide *;
    LoadAllReads(env, files, sh, base, contents, find, s.compression, source);
  }

  /** The first pass over what the entries hold, wherever it is kept. */
  ghost function PassOver(env: Env, es: seq<TensorEntry>, n: nat, contents: Contents): Result<State>
    requires n <= |es|
  {
    if n == 0 then Ok(map[])
    else if es[n - 1].storage == Alias || es[n - 1].name !in contents then PassOver(env, es, n - 1, contents)
    else Added(PassOver(env, es, n - 1, contents), es[n - 1].name, Read(env, contents[es[n - 1].name]))
  }

  lemma PassOverStep(env: Env, es: seq<TensorEntry>, n: nat, contents: Contents)
    requires 0 < n <= |es|
    ensures
      var e := es[n - 1];
      var before := PassOver(env, es, n - 1, contents);
      PassOver(env, es, n, contents)
      == if e.storage == Alias || e.name !in contents then before
         else Added(before, e.name, Read(env, contents[e.name]))
  {
    hide Added, Read;
  }

  lemma NothingPassed(
      env: Env, files: Files, es: seq<TensorEntry>, contents: Contents, find: Option<Finder>, algo: Algo,
      source: Source)
    ensures FirstPass(env, files, es, 0, find, algo, source) == PassOver(env, es, 0, contents)
  {
  }

  lemma {:induction false} FirstPassIs(
      env: Env, files: Files, sh: Shard, n: nat, base: map<string, Bytes>, contents: Contents,
      find: Option<Finder>, algo: Algo, source: Source)
    requires ShardHolds(env, sh, base, contents) && n <= |sh.entries|
    requires Reachable(env, files, sh, base, find, algo, source)
    ensures FirstPass(env, files, sh.entries, n, find, algo, source) == PassOver(env, sh.entries, n, contents)
  {
    hide *;
    if n == 0 {
      NothingPassed(env, files, sh.entries, contents, find, algo, source);
    } else {
      FirstPassIs(env, files, sh, n - 1, base, contents, find, algo, source);
      FirstPassStep(env, files, sh.entries, n, find, algo, source);
      PassOverStep(env, sh.entries, n, contents);
      HoldsAt(env, sh, base, contents, n - 1);
      if sh.entries[n - 1].storage != Alias {
        EntryLoads(env, files, sh, sh.entries[n - 1], base, contents, find, algo, source);
      }
    }
  }

  ghost function LoadOver(env: Env, es: seq<TensorEntry>, contents: Contents): Result<State> {
    var out :- PassOver(env, es, |es|, contents);
    SecondPass(es, |es|, out)
  }

  /** A load depends on what is held and on nothing else, its error included: not on where or when it is read. */
  lemma LoadIsOver(
      env: Env, files: Files, ss: seq<Snapshot>, s: Snapshot, rank: nat, pack: Bytes, contents: Contents,
      basePack: Bytes, baseContents: Contents)
    requires Find(ss, s.id) == Some(s)
    requires Resident(env, files, ss, s, rank, pack, contents, basePack, baseContents)
    ensures Load(env, files, ss, s.id, rank) == LoadOver(env, s.ranks[rank].tensors, contents)
  {
    var base := if s.base.Some? then Raws(baseContents) else map[];
    var es := s.ranks[rank].tensors;
    var sh := Shard(es, pack, s.compression);
    assert Stored(env, files, s, rank, pack, base, contents);
    assert ShardHolds(env, sh, base, contents);
    SourceProvides(env, files, s, rank, pack, base, contents, true);
    PrefetchSucceeds(env, files, ss, s, rank, pack, contents, basePack, baseContents);
    var source := PackSource(files, s.ranks[rank], true).value;
    var ctx := Prefetched(files, ss, rank, s, es).value;
    var find := FinderFor(files, ss, rank, s, ctx, true);
    assert Load(env, files, ss, s.id, rank) == LoadAll(env, files, es, find, s.compression, source) by {
      hide LoadAll, FinderFor, Prefetched, Stored;
    }
    FinderReaches(env, files, ss, s, rank, pack, contents, basePack, baseContents, ctx, true, source);
    hide FirstPass, PassOver, SecondPass, ShardHolds, Reachable, Stored, Resident, Load, FinderFor, Prefetched,
      PackSource, Raws;
    FirstPassIs(env, files, sh, |es|, base, contents, find, s.compression, source);
  }

  // ── A few tensors by name ────────────────────────────────────────

  lemma OneLoads(
      env: Env, files: Files, sh: Shard, n: string, base: map<string, Bytes>, contents: Contents,
      find: Option<Finder>, algo: Algo, source: Source)
    requires ShardHolds(env, sh, base, contents)
    requires Reachable(env, files, sh, base, find, algo, source)
    ensures LoadOne(env, files, sh.entries, n, find, algo, source)
            == if n in contents then Read(env, contents[n]) else Err(NotFound)
  {
    assert contents.Keys == NamesOf(sh.entries) && DistinctNames(sh.entries);
    var first := FirstNamed(sh.entries, n);
    assert first.Some? ==> first.value.name in NamesOf(sh.entries);
    if n in contents {
      var k, t := Holder(env, sh, base, contents, n);
      FirstIsAt(sh.entries, k);
      FirstIsAt(sh.entries, t);
      EntryLoads(env, files, sh, sh.entries[t], base, contents, find, algo, source);
      hide FirstNamed, LoadTensor, ShardHolds, HoldsEntry, Reachable, Read, NamesOf, DistinctNames;
    }
  }

  lemma FirstIsAt(es: seq<TensorEntry>, k: nat)
    requires DistinctNames(es) && k < |es|
    ensures FirstNamed(es, es[k].name) == Some(es[k])
  {
    assert es[k] in es && es[k].name in NamesOf(es);
    var first := FirstNamed(es, es[k].name).value;
    var j :| 0 <= j < |es| && es[j] == first;
    assert !(j < k) && !(k < j);
  }

  lemma {:induction false} EachLoads(
      env: Env, files: Files, sh: Shard, names: seq<string>, base: map<string, Bytes>, contents: Contents,
      find: Option<Finder>, algo: Algo, source: Source)
    requires ShardHolds(env, sh, base, contents)
    requires Reachable(env, files, sh, base, find, algo, source)
    ensures
      var out := LoadEach(env, files, sh.entries, names, find, algo, source);
      && (out.Ok? <==> forall n :: n in names ==> n in contents && Read(env, contents[n]).Ok?)
      && (out.Ok? ==>
            out.value ==
            map n | n in names && n in contents && Read(env, contents[n]).Ok? :: Read(env, contents[n]).value)
  {
    hide ShardHolds, Reachable, LoadOne, Read;
    if names != [] {
      var last := |names| - 1;
      EachLoads(env, files, sh, names[..last], base, contents, find, algo, source);
      OneLoads(env, files, sh, names[last], base, contents, find, algo, source);
      assert forall n :: n in names <==> n in names[..last] || n == names[last];
    }
  }

  lemma NamesAreEach(
      env: Env, files: Files, ss: seq<Snapshot>, s: Snapshot, rank: nat, pack: Bytes, contents: Contents,
      basePack: Bytes, baseContents: Contents, names: seq<string>)
    returns (sh: Shard, base: map<string, Bytes>, find: Option<Finder>, source: Source)
    requires Find(ss, s.id) == Some(s)
    requires Resident(env, files, ss, s, rank, pack, contents, basePack, baseContents)
    ensures ShardHolds(env, sh, base, contents) && Reachable(env, files, sh, base, find, s.compression, source)
    ensures LoadNames(env, files, ss, s.id, rank, names)
            == LoadEach(env, files, sh.entries, names, find, s.compression, source)
  {
    base := if s.base.Some? then Raws(baseContents) else map[];
    sh := Shard(s.ranks[rank].tensors, pack, s.compression);
    assert Stored(env, files, s, rank, pack, base, contents);
    assert ShardHolds(env, sh, base, contents);
    source := PackSource(files, s.ranks[rank], false).value;
    find := FinderFor(files, ss, rank, s, None, false);
    hide LoadEach, FinderFor, Stored, ShardHolds, Reachable;
    assert LoadNames(env, files, ss, s.id, rank, names)
           == LoadEach(env, files, sh.entries, names, find, s.compression, source);
    FinderReaches(env, files, ss, s, rank, pack, contents, basePack, baseContents, None, false, source);
  }

  /** `load_tensors` is `load` restricted to the names asked for; a name that is not there is an error. */
  lemma LoadNamesIsRestriction(
      env: Env, files: Files, ss: seq<Snapshot>, s: Snapshot, rank: nat, pack: Bytes, contents: Contents,
      basePack: Bytes, baseContents: Contents, names: seq<string>)
    requires Find(ss, s.id) == Some(s)
    requires Resident(env, files, ss, s, rank, pack, contents, basePack, baseContents)
    requires Readable(env, contents)
    ensures
      var whole := Load(env, files, ss, s.id, rank);
      var some := LoadNames(env, files, ss, s.id, rank, names);
      && whole.Ok?
      && (some.Ok? <==> forall n :: n in names ==> n in whole.value)
      && (some.Ok? ==> some.value == map n | n in names && n in whole.value :: whole.value[n])
  {
    hide ShardHolds, Stored, Reachable, LoadEach, Load, LoadNames, Resident, Read, FinderFor, PackSource;
    LoadIsContents(env, files, ss, s, rank, pack, contents, basePack, baseContents);
    var sh, base, find, source := NamesAreEach(env, files, ss, s, rank, pack, contents, basePack, baseContents, names);
    EachLoads(env, files, sh, names, base, contents, find, s.compression, source);
  }

  method LoadTensors(
      env: Env, files: Files, es: seq<TensorEntry>, names: seq<string>, find: Option<Finder>, algo: Algo,
      source: Source)
    returns (r: Result<State>)
    ensures r == LoadEach(env, files, es, names, find, algo, source)
  {
    hide LoadOne;
    var out: State := map[];
    for i := 0 to |names|
      invariant LoadEach(env, files, es, names[..i], find, algo, source) == Ok(out)
    {
      assert names[..i + 1][..i] == names[..i];
      var data := LoadOne(env, files, es, names[i], find, algo, source);
      if data.Err? {
        EachFails(env, files, es, names, i, |names|, find, algo, source);
        assert names[..|names|] == names;
        return Err(data.error);
      }
      out := out[names[i] := data.value];
    }
    assert names[..|names|] == names;
    return Ok(out);
  }

  lemma {:induction false} EachFails(
      env: Env, files: Files, es: seq<TensorEntry>, names: seq<string>, i: nat, n: nat,
      find: Option<Finder>, algo: Algo, source: Source)
    requires i < n <= |names| && LoadEach(env, files, es, names[..i], find, algo, source).Ok?
    requires LoadOne(env, files, es, names[i], find, algo, source).Err?
    ensures LoadEach(env, files, es, names[..n], find, algo, source)
            == Err(LoadOne(env, files, es, names[i], find, algo, source).error)
    decreases n
  {
    hide LoadOne;
    assert names[..n][..n - 1] == names[..n - 1];
    if i + 1 < n {
      EachFails(env, files, es, names, i, n - 1, find, algo, source);
    }
  }
}
