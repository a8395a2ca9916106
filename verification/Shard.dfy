/** One rank's tensors as a pack holds them, and the loads that read them back. */
module Shard {
  import opened Bytes
  import opened Compression
  import opened Manifest
  import opened Env
  import opened Tensor

  /** The entries of a rank and the pack their offsets point into, padding left out. */
  datatype Shard = Shard(entries: seq<TensorEntry>, pack: Bytes, algo: Algo)

  type Contents = map<string, Held>

  predicate DistinctNames(es: seq<TensorEntry>) {
    forall i, j :: 0 <= i < j < |es| ==> es[i].name != es[j].name
  }

  function NamesOf(es: seq<TensorEntry>): set<string> {
    set e | e in es :: e.name
  }

  function Raws(c: Contents): map<string, Bytes> {
    map n | n in c :: c[n].raw
  }

  function BlobIn(sh: Shard, e: TensorEntry): Option<Bytes> {
    if e.storage in {Full, DeltaXor} && e.offset + e.compressedSize <= |sh.pack|
    then Some(sh.pack[e.offset..e.offset + e.compressedSize])
    else None
  }

  ghost predicate PointsAt(sh: Shard, e: TensorEntry, contents: Contents) {
    exists t :: 0 <= t < |sh.entries| && e.aliasOf == Some(sh.entries[t].name) && sh.entries[t].storage != Alias
                && sh.entries[t].name in contents && e.name in contents
                && contents[e.name] == contents[sh.entries[t].name]
  }

  ghost predicate HoldsEntry(env: Env, sh: Shard, e: TensorEntry, base: map<string, Bytes>, contents: Contents) {
    && e.name in contents
    && HeldAs(e, contents[e.name].raw) == contents[e.name]
    && e.filename.None?
    && if e.storage == Alias
       then PointsAt(sh, e, contents) && e.hashCompressed.None? && e.hashRaw == env.hash(contents[e.name].raw)
       else Stores(env, sh.algo, e, BlobIn(sh, e), base, contents[e.name].raw)
  }

  /** The shard stands for `contents`, read against a base holding `base` (nothing, for a full). */
  ghost predicate ShardHolds(env: Env, sh: Shard, base: map<string, Bytes>, contents: Contents) {
    && DistinctNames(sh.entries)
    && contents.Keys == NamesOf(sh.entries)
    && forall e :: e in sh.entries ==> HoldsEntry(env, sh, e, base, contents)
  }

  lemma HoldsAt(env: Env, sh: Shard, base: map<string, Bytes>, contents: Contents, k: nat)
    requires ShardHolds(env, sh, base, contents) && k < |sh.entries|
    ensures HoldsEntry(env, sh, sh.entries[k], base, contents) && sh.entries[k].name in contents
  {
    assert sh.entries[k] in sh.entries;
  }

  lemma NameIsHeld(env: Env, sh: Shard, base: map<string, Bytes>, contents: Contents, n: string) returns (k: nat)
    requires ShardHolds(env, sh, base, contents) && n in contents
    ensures k < |sh.entries| && sh.entries[k].name == n
  {
    var e :| e in sh.entries && e.name == n;
    k :| 0 <= k < |sh.entries| && sh.entries[k] == e;
  }

  // ── Where bytes come from ────────────────────────────────────────

  ghost predicate Provides(files: Files, source: Source, pack: Bytes) {
    match source
    case Whole(bytes) => Holds(bytes, pack)
    case Ranged(path) => path in files && Holds(files[path], pack)
    case PerFile => false
  }

  lemma ExtractsBlob(files: Files, source: Source, sh: Shard, e: TensorEntry)
    requires Provides(files, source, sh.pack) && BlobIn(sh, e).Some?
    ensures Extract(files, e, source) == Ok(BlobIn(sh, e).value)
  {
    match source
    case Whole(bytes) => SliceOfPadded(bytes, sh.pack, e.offset, e.compressedSize);
    case Ranged(path) => SliceOfPadded(files[path], sh.pack, e.offset, e.compressedSize);
    case PerFile =>
  }

  /** The entries of a base by name, with where its bytes are. */
  datatype BaseCtx = BaseCtx(entries: map<string, TensorEntry>, compression: Algo, source: Source) {
    function Finder(): Finder {
      n => if n in entries then Ok(BaseEntry(entries[n], compression, source)) else Err(NotFound)
    }
  }

  function EntryMap(es: seq<TensorEntry>): (m: map<string, TensorEntry>)
    ensures forall n :: n in m ==> m[n] in es && m[n].name == n
    ensures forall e :: e in es ==> e.name in m
  {
    if es == [] then map[]
    else
      var last := es[|es| - 1];
      assert forall e :: e in es <==> e in es[..|es| - 1] || e == last;
      EntryMap(es[..|es| - 1])[last.name := last]
  }

  lemma EntryMapAt(es: seq<TensorEntry>, k: nat)
    requires DistinctNames(es) && k < |es|
    ensures es[k].name in EntryMap(es) && EntryMap(es)[es[k].name] == es[k]
  {
    assert es[k] in es;
    var other := EntryMap(es)[es[k].name];
    var j :| 0 <= j < |es| && es[j] == other;
    assert !(j < k) && !(k < j);
  }

  lemma Target(env: Env, sh: Shard, base: map<string, Bytes>, contents: Contents, k: nat) returns (t: nat)
    requires k < |sh.entries| && sh.entries[k].storage == Alias
    requires HoldsEntry(env, sh, sh.entries[k], base, contents)
    ensures t < |sh.entries| && sh.entries[t].storage != Alias && sh.entries[k].aliasOf == Some(sh.entries[t].name)
    ensures sh.entries[k].name in contents && sh.entries[t].name in contents
    ensures contents[sh.entries[t].name] == contents[sh.entries[k].name]
  {
    t :| 0 <= t < |sh.entries| && sh.entries[k].aliasOf == Some(sh.entries[t].name) && sh.entries[t].storage != Alias
         && sh.entries[t].name in contents && contents[sh.entries[k].name] == contents[sh.entries[t].name];
  }

  /** The entry that carries the bytes of `n`: its own, or the one its alias names. */
  lemma Holder(env: Env, sh: Shard, base: map<string, Bytes>, contents: Contents, n: string) returns (k: nat, t: nat)
    requires ShardHolds(env, sh, base, contents) && n in contents
    ensures k < |sh.entries| && sh.entries[k].name == n
    ensures t < |sh.entries| && sh.entries[t].storage != Alias
    ensures t == k || (sh.entries[k].storage == Alias && sh.entries[k].aliasOf == Some(sh.entries[t].name))
    ensures sh.entries[t].name in contents && contents[sh.entries[t].name] == contents[n]
    ensures HoldsEntry(env, sh, sh.entries[t], base, contents)
  {
    k := NameIsHeld(env, sh, base, contents, n);
    HoldsAt(env, sh, base, contents, k);
    t := k;
    if sh.entries[k].storage == Alias {
      t := Target(env, sh, base, contents, k);
      HoldsAt(env, sh, base, contents, t);
    }
  }

  /** A lookup follows the alias, once, to the entry that carries the bytes. */
  lemma ResolvesInOneHop(es: seq<TensorEntry>, ctx: BaseCtx, k: nat, t: nat)
    requires DistinctNames(es) && ctx.entries == EntryMap(es)
    requires k < |es| && t < |es| && es[t].storage != Alias
    requires t == k || (es[k].storage == Alias && es[k].aliasOf == Some(es[t].name))
    ensures Resolved(ctx.Finder(), es[k].name, HOPS) == Ok(BaseEntry(es[t], ctx.compression, ctx.source))
  {
    EntryMapAt(es, k);
    EntryMapAt(es, t);
    hide EntryMap, DistinctNames;
    var find := ctx.Finder();
    assert Resolved(find, es[t].name, HOPS - 1) == Ok(BaseEntry(es[t], ctx.compression, ctx.source));
  }

  /** Any name a full holds is found in it, through at most one alias. */
  lemma FullBaseGivesRaw(env: Env, files: Files, sh: Shard, contents: Contents, ctx: BaseCtx, n: string)
    requires ShardHolds(env, sh, map[], contents) && n in contents
    requires ctx.entries == EntryMap(sh.entries) && SameKind(ctx.compression, sh.algo)
    requires Provides(files, ctx.source, sh.pack)
    ensures BaseRaw(env, files, ctx.Finder(), n) == Ok(contents[n].raw)
  {
    var k, t := Holder(env, sh, map[], contents, n);
    ResolvesInOneHop(sh.entries, ctx, k, t);
    hide *;
    FullEntryLoads(env, files, sh, sh.entries[t], contents, ctx);
    BaseRawOf(env, files, ctx.Finder(), n, BaseEntry(sh.entries[t], ctx.compression, ctx.source));
  }

  lemma BaseRawOf(env: Env, files: Files, find: Finder, n: string, found: BaseEntry)
    requires Resolved(find, n, HOPS) == Ok(found)
    ensures BaseRaw(env, files, find, n) == LoadRaw(env, files, found.entry, None, found.compression, found.source)
  {
    hide Resolved, LoadRaw;
  }

  lemma FullEntryLoads(env: Env, files: Files, sh: Shard, e: TensorEntry, contents: Contents, ctx: BaseCtx)
    requires HoldsEntry(env, sh, e, map[], contents) && e.storage != Alias
    requires SameKind(ctx.compression, sh.algo) && Provides(files, ctx.source, sh.pack)
    ensures LoadRaw(env, files, e, None, ctx.compression, ctx.source) == Ok(contents[e.name].raw)
  {
    ExtractsBlob(files, ctx.source, sh, e);
  }

  /** Whatever is in the base's place on storage, a name found in it has its own bytes. */
  lemma FullBaseNeverWrong(env: Env, files: Files, sh: Shard, contents: Contents, ctx: BaseCtx, n: string)
    requires Lawful(env) && ShardHolds(env, sh, map[], contents) && n in contents
    requires ctx.entries == EntryMap(sh.entries) && SameKind(ctx.compression, sh.algo)
    ensures BaseRaw(env, files, ctx.Finder(), n).Ok? ==> BaseRaw(env, files, ctx.Finder(), n) == Ok(contents[n].raw)
  {
    var k, t := Holder(env, sh, map[], contents, n);
    ResolvesInOneHop(sh.entries, ctx, k, t);
    hide *;
    FullEntryNeverWrong(env, files, sh, sh.entries[t], contents, ctx);
    BaseRawOf(env, files, ctx.Finder(), n, BaseEntry(sh.entries[t], ctx.compression, ctx.source));
  }

  lemma FullEntryNeverWrong(env: Env, files: Files, sh: Shard, e: TensorEntry, contents: Contents, ctx: BaseCtx)
    requires Lawful(env) && HoldsEntry(env, sh, e, map[], contents) && e.storage != Alias
    requires SameKind(ctx.compression, sh.algo)
    ensures e.name in contents
    ensures
      var read := LoadRaw(env, files, e, None, ctx.compression, ctx.source);
      read.Ok? ==> read == Ok(contents[e.name].raw)
  {
    assert e.storage in {Full, DeltaXor};
    assert Stores(env, ctx.compression, e, BlobIn(sh, e), map[], contents[e.name].raw);
    hide Lawful, LoadRaw, Stores, BlobIn;
    DamageShows(env, files, e, BlobIn(sh, e), None, ctx.compression, ctx.source, map[], contents[e.name].raw);
  }
}
