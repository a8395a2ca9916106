/** One tensor at a time: how it is kept against a base, and how its bytes are read back. */
module Tensor {
  import opened Bytes
  import opened Compression
  import opened Manifest
  import opened Env
  import opened Glob
  import Delta
  import Shuffle

  const SAMPLE_RAW := 65536
  const SAMPLE_WINDOW := 262144
  const SAMPLE_MIN := 8192

  datatype TensorData = TensorData(name: string, shape: seq<nat>, dtype: string, data: Bytes)

  datatype Config = Config(compression: Algo, policy: Policy)

  // ── Casting ──────────────────────────────────────────────────────

  predicate CastableFloat(dtype: string) {
    dtype in {"float32", "float16", "bfloat16", "float64"}
  }

  datatype Working = Working(data: Bytes, dtype: string, scale: Option<int>)

  function CastTensor(env: Env, data: Bytes, src: string, target: string): Result<Working> {
    if src == target || !CastableFloat(src) then Ok(Working(data, src, None))
    else
      var (bytes, scale) :- env.narrow(data, src, target);
      Ok(Working(bytes, target, scale))
  }

  function UncastTensor(env: Env, data: Bytes, stored: string, original: string, scale: Option<int>): Result<Bytes> {
    if stored == original then Ok(data) else env.widen(data, stored, original, scale)
  }

  /** The bytes that go to disk: cast when the policy says so and the dtype is one a cast applies to. */
  function WorkingOf(env: Env, policy: Policy, t: TensorData): Result<Working> {
    match Chosen(policy, t.name)
    case Keep => Ok(Working(t.data, t.dtype, None))
    case Cast(target) =>
      if CastableFloat(t.dtype) then CastTensor(env, t.data, t.dtype, target)
      else Ok(Working(t.data, t.dtype, None))
  }

  /** What a snapshot holds under a name, whatever form it is stored in. */
  datatype Held = Held(raw: Bytes, dtype: string, originalDtype: Option<string>, quantScale: Option<int>)

  function HeldAs(e: TensorEntry, raw: Bytes): Held {
    Held(raw, e.dtype, e.originalDtype, e.quantScale)
  }

  function Original(t: TensorData, w: Working): Option<string> {
    if w.dtype != t.dtype then Some(t.dtype) else None
  }

  function Given(env: Env, policy: Policy, t: TensorData): Result<Held> {
    var w :- WorkingOf(env, policy, t);
    Ok(Held(w.data, w.dtype, Original(t, w), w.scale))
  }

  /** What a load hands back for what is held. */
  function Read(env: Env, h: Held): Result<Bytes> {
    if h.originalDtype.Some? && h.originalDtype.value != h.dtype
    then UncastTensor(env, h.raw, h.dtype, h.originalDtype.value, h.quantScale)
    else Ok(h.raw)
  }

  predicate Uncast(policy: Policy, t: TensorData) {
    match Chosen(policy, t.name)
    case Keep => true
    case Cast(target) => target == t.dtype || !CastableFloat(t.dtype)
  }

  /** A tensor that no rule casts comes back bit for bit; one that was cast is marked as such. */
  lemma UncastIsExact(env: Env, policy: Policy, t: TensorData)
    requires Uncast(policy, t)
    ensures Given(env, policy, t) == Ok(Held(t.data, t.dtype, None, None))
    ensures Read(env, Given(env, policy, t).value) == Ok(t.data)
  {
  }

  // ── Keeping a tensor ─────────────────────────────────────────────

  datatype Cache = Cache(
    packFile: Option<Path>,
    entries: map<string, TensorEntry>,
    compression: Algo,
    raw: Option<map<string, Bytes>>
  )

  datatype Processed = Processed(entry: TensorEntry, data: Option<Bytes>)

  function Truncated(data: Bytes, expected: nat): Bytes {
    if expected > 0 && |data| > expected then data[..expected] else data
  }

  function ReadCompressed(files: Files, c: Cache, e: TensorEntry): Result<Option<Bytes>> {
    match c.packFile
    case Some(pack) =>
      var data :- GetRange(files, pack, e.offset, e.compressedSize);
      Ok(if |data| == e.compressedSize then Some(data) else None)
    case None =>
      if e.filename.Some? && e.filename.value in files
      then Ok(Some(Truncated(files[e.filename.value], e.compressedSize)))
      else Ok(None)
  }

  function SampleWindow(files: Files, c: Cache, e: TensorEntry): Option<Bytes> {
    var window := Min(e.compressedSize, SAMPLE_WINDOW);
    match c.packFile
    case Some(pack) => if pack in files then Some(Slice(files[pack], e.offset, window)) else None
    case None =>
      if e.filename.Some? && e.filename.value in files
      then Some(Slice(files[e.filename.value], 0, window))
      else None
  }

  function SamplePrefix(env: Env, files: Files, c: Cache, e: TensorEntry): Option<Bytes> {
    if e.storage != Full then None
    else
      match SampleWindow(files, c, e)
      case None => None
      case Some(compressed) => env.decodePrefix(compressed, c.compression, SAMPLE_RAW)
  }

  function BaseBytes(env: Env, files: Files, c: Cache, e: TensorEntry): Result<Option<Bytes>> {
    if e.storage != Full then Ok(None)
    else if c.raw.Some? && e.name in c.raw.value then Ok(Some(c.raw.value[e.name]))
    else
      var read :- ReadCompressed(files, c, e);
      match read
      case None => Ok(None)
      case Some(compressed) =>
        var data :- Decompressed(env.zstd, compressed, c.compression);
        Ok(Some(data))
  }

  /** What the sampled window says about the delta, when there is a window worth asking. */
  function SampledVerdict(env: Env, files: Files, c: Cache, e: TensorEntry, t: TensorData, w: Working): Option<bool> {
    var inMemory := c.raw.Some? && t.name in c.raw.value;
    var sample := if inMemory then None else SamplePrefix(env, files, c, e);
    if sample.Some? && |sample.value| >= SAMPLE_MIN
    then Some(env.paysOff(sample.value, w.data, Shuffle.ElementSize(w.dtype)))
    else None
  }

  function XorAgainst(
      env: Env, files: Files, c: Cache, e: TensorEntry, t: TensorData, w: Working): Result<Option<Bytes>> {
    var verdict := SampledVerdict(env, files, c, e, t, w);
    if verdict == Some(false) then Ok(None)
    else
      var base :- BaseBytes(env, files, c, e);
      match base
      case None => Ok(None)
      case Some(raw) =>
        if verdict.Some? || env.paysOff(raw, w.data, Shuffle.ElementSize(w.dtype))
        then Ok(Delta.DeltaOf(raw, w.data))
        else Ok(None)
  }

  /** The part of an entry that does not depend on how the bytes are stored. */
  function SkippedEntry(env: Env, t: TensorData, w: Working): TensorEntry {
    TensorEntry(t.name, t.shape, w.dtype, Original(t, w), w.scale, Skipped, None, None, 0, 0, |w.data|,
                env.hash(w.data), None, false)
  }

  function Blob(env: Env, algo: Algo, e: TensorEntry, storage: Storage, data: Bytes, shuffled: bool): Processed {
    var compressed := Compressed(env.zstd, data, algo);
    Processed(
      e.(storage := storage, compressedSize := |compressed|, hashCompressed := Some(env.hash(compressed)),
         shuffled := shuffled),
      Some(compressed))
  }

  function FullBlob(env: Env, algo: Algo, t: TensorData, w: Working): Processed {
    Blob(env, algo, SkippedEntry(env, t, w), Full, w.data, false)
  }

  function DeltaBlob(env: Env, algo: Algo, t: TensorData, w: Working, xor: Bytes): Processed {
    var itemsize := Shuffle.ElementSize(w.dtype);
    var shuffled := itemsize > 1;
    var data := if shuffled then Shuffle.Shuffled(xor, itemsize) else xor;
    Blob(env, algo, SkippedEntry(env, t, w), DeltaXor, data, shuffled)
  }

  predicate DeltaWorthTrying(e: TensorEntry, w: Working) {
    e.rawSize == |w.data| && e.storage == Full && |w.data| >= Delta.DELTA_MIN_SIZE
  }

  /** Skip, delta or full: the three ways a tensor is kept. */
  function ProcessTensor(env: Env, files: Files, cfg: Config, cache: Option<Cache>, t: TensorData): Result<Processed> {
    var w :- WorkingOf(env, cfg.policy, t);
    if cache.Some? && t.name in cache.value.entries then
      var e := cache.value.entries[t.name];
      if e.hashRaw == env.hash(w.data) then Ok(Processed(SkippedEntry(env, t, w), None))
      else if DeltaWorthTrying(e, w) then
        var xor :- XorAgainst(env, files, cache.value, e, t, w);
        match xor
        case Some(x) => Ok(DeltaBlob(env, cfg.compression, t, w, x))
        case None => Ok(FullBlob(env, cfg.compression, t, w))
      else Ok(FullBlob(env, cfg.compression, t, w))
    else Ok(FullBlob(env, cfg.compression, t, w))
  }

  function AliasEntry(t: TensorData, target: TensorEntry): TensorEntry {
    TensorEntry(t.name, t.shape, target.dtype, target.originalDtype, target.quantScale, Alias, Some(target.name),
                None, 0, 0, target.rawSize, target.hashRaw, None, false)
  }

  // ── Reading a tensor ─────────────────────────────────────────────

  datatype Source = Whole(bytes: Bytes) | Ranged(path: Path) | PerFile

  datatype BaseEntry = BaseEntry(entry: TensorEntry, compression: Algo, source: Source)

  type Finder = string -> Result<BaseEntry>

  const HOPS := 8

  function FromOwnFile(files: Files, e: TensorEntry): Result<Bytes> {
    if e.filename.None? then Err(NotFound)
    else
      var data :- Get(files, e.filename.value);
      Ok(Truncated(data, e.compressedSize))
  }

  function Extract(files: Files, e: TensorEntry, source: Source): Result<Bytes> {
    match source
    case Whole(bytes) =>
      if e.offset + e.compressedSize <= |bytes| then Ok(bytes[e.offset..e.offset + e.compressedSize])
      else FromOwnFile(files, e)
    case Ranged(path) =>
      var data :- GetRange(files, path, e.offset, e.compressedSize);
      if |data| == e.compressedSize then Ok(data) else Err(Error.Storage)
    case PerFile => FromOwnFile(files, e)
  }

  /** Follows aliases in the base for at most `fuel` lookups. */
  function Resolved(find: Finder, name: string, fuel: nat): Result<BaseEntry>
    decreases fuel
  {
    if fuel == 0 then Err(Error.Delta)
    else
      var found :- find(name);
      if found.entry.storage != Alias then Ok(found)
      else if found.entry.aliasOf.None? then Err(NotFound)
      else Resolved(find, found.entry.aliasOf.value, fuel - 1)
  }

  method ResolveBaseEntry(find: Finder, name: string) returns (r: Result<BaseEntry>)
    ensures r == Resolved(find, name, HOPS)
  {
    var current := name;
    for hop := 0 to HOPS
      invariant Resolved(find, name, HOPS) == Resolved(find, current, HOPS - hop)
    {
      var found := find(current);
      if found.Err? {
        return Err(found.error);
      }
      if found.value.entry.storage != Alias {
        return found;
      }
      if found.value.entry.aliasOf.None? {
        return Err(NotFound);
      }
      current := found.value.entry.aliasOf.value;
    }
    return Err(Error.Delta);
  }

  function Restored(e: TensorEntry, delta: Bytes): Bytes {
    if e.shuffled then Shuffle.Unshuffled(delta, Shuffle.ElementSize(e.dtype)) else delta
  }

  /** `base` is None where the snapshot has none: nothing but a full tensor can be read then. */
  function LoadRaw(
      env: Env, files: Files, e: TensorEntry, base: Option<Finder>, algo: Algo, source: Source): Result<Bytes>
    decreases if base.Some? then 1 else 0
  {
    match e.storage
    case Alias => Err(NotFound)
    case Skipped =>
      if base.None? then Err(Error.Delta)
      else
        var found :- Resolved(base.value, e.name, HOPS);
        LoadRaw(env, files, found.entry, None, found.compression, found.source)
    case Full =>
      var compressed :- Extract(files, e, source);
      if e.hashCompressed.Some? && e.hashCompressed.value != env.hash(compressed) then Err(Integrity)
      else Decompressed(env.zstd, compressed, algo)
    case DeltaXor =>
      var compressed :- Extract(files, e, source);
      var delta :- Decompressed(env.zstd, compressed, algo);
      if base.None? then Err(Error.Delta)
      else
        var found :- Resolved(base.value, e.name, HOPS);
        var baseRaw :- LoadRaw(env, files, found.entry, None, found.compression, found.source);
        var raw :- Delta.Applied(baseRaw, Restored(e, delta));
        if env.hash(raw) != e.hashRaw then Err(Integrity) else Ok(raw)
  }

  function LoadTensor(
      env: Env, files: Files, e: TensorEntry, base: Option<Finder>, algo: Algo, source: Source): Result<Bytes> {
    var raw :- LoadRaw(env, files, e, base, algo, source);
    Read(env, HeldAs(e, raw))
  }

  /** The base's bytes for `name`, wherever its aliases lead. */
  function BaseRaw(env: Env, files: Files, find: Finder, name: string): Result<Bytes> {
    var found :- Resolved(find, name, HOPS);
    LoadRaw(env, files, found.entry, None, found.compression, found.source)
  }

  // ── What an entry stores ─────────────────────────────────────────

  /** `blob`, read against a base holding `base`, is `raw`, and the entry describes both. */
  ghost predicate Stores(
      env: Env, algo: Algo, e: TensorEntry, blob: Option<Bytes>, base: map<string, Bytes>, raw: Bytes) {
    && e.hashRaw == env.hash(raw) && e.rawSize == |raw| && e.filename.None?
    && (blob.Some? <==> e.storage in {Full, DeltaXor})
    && (blob.Some? ==> e.compressedSize == |blob.value| && e.hashCompressed == Some(env.hash(blob.value)))
    && (blob.None? ==> e.hashCompressed.None?)
    && match e.storage
       case Alias => false
       case Skipped => e.name in base && base[e.name] == raw
       case Full => Decompressed(env.zstd, blob.value, algo) == Ok(raw)
       case DeltaXor =>
         && e.name in base
         && var delta := Decompressed(env.zstd, blob.value, algo);
            delta.Ok? && Delta.Applied(base[e.name], Restored(e, delta.value)) == Ok(raw)
  }

  /** The cache describes a base holding `base`, and hands out none but its bytes. */
  ghost predicate Faithful(env: Env, files: Files, c: Cache, base: map<string, Bytes>) {
    forall n :: n in c.entries ==>
      && n in base
      && c.entries[n].hashRaw == env.hash(base[n])
      && var read := BaseBytes(env, files, c, c.entries[n]);
         (read.Ok? && read.value.Some? ==> read.value.value == base[n])
  }

  lemma FullBlobStores(env: Env, algo: Algo, t: TensorData, w: Working, base: map<string, Bytes>)
    requires Lawful(env)
    ensures var p := FullBlob(env, algo, t, w); Stores(env, algo, p.entry, p.data, base, w.data)
  {
    DecompressUndoesCompress(env.zstd, w.data, algo, algo);
  }

  lemma DeltaBlobStores(env: Env, algo: Algo, t: TensorData, w: Working, base: map<string, Bytes>, xor: Bytes)
    requires Lawful(env) && t.name in base && Delta.DeltaOf(base[t.name], w.data) == Some(xor)
    ensures var p := DeltaBlob(env, algo, t, w, xor); Stores(env, algo, p.entry, p.data, base, w.data)
  {
    var itemsize := Shuffle.ElementSize(w.dtype);
    var data := if itemsize > 1 then Shuffle.Shuffled(xor, itemsize) else xor;
    DecompressUndoesCompress(env.zstd, data, algo, algo);
    Shuffle.UnshuffleShuffle(xor, itemsize);
    Delta.ApplyUndoesCompute(base[t.name], w.data);
  }

  /** Whatever the verdict and the sample said, the entry and blob stand for the tensor that was given. */
  lemma ProcessedStores(
      env: Env, files: Files, cfg: Config, cache: Option<Cache>, t: TensorData, base: map<string, Bytes>)
    requires Lawful(env)
    requires cache.Some? ==> Faithful(env, files, cache.value, base)
    requires ProcessTensor(env, files, cfg, cache, t).Ok?
    ensures
      var p := ProcessTensor(env, files, cfg, cache, t).value;
      var w := WorkingOf(env, cfg.policy, t);
      && w.Ok? && Stores(env, cfg.compression, p.entry, p.data, base, w.value.data)
      && Given(env, cfg.policy, t) == Ok(HeldAs(p.entry, w.value.data))
      && p.entry.name == t.name && p.entry.shape == t.shape
      && (p.entry.storage in {DeltaXor, Skipped} ==> cache.Some? && t.name in cache.value.entries)
  {
    var w := WorkingOf(env, cfg.policy, t).value;
    FullBlobStores(env, cfg.compression, t, w, base);
    if cache.Some? && t.name in cache.value.entries {
      var e := cache.value.entries[t.name];
      var xor := XorAgainst(env, files, cache.value, e, t, w);
      if xor.Ok? && xor.value.Some? {
        DeltaBlobStores(env, cfg.compression, t, w, base, xor.value.value);
      }
    }
  }

  /** Reading is the inverse of storing, for any place the blob is read from. */
  lemma LoadsWhatIsStored(
      env: Env, files: Files, e: TensorEntry, blob: Option<Bytes>, find: Option<Finder>, algo: Algo, source: Source,
      base: map<string, Bytes>, raw: Bytes)
    requires Stores(env, algo, e, blob, base, raw)
    requires blob.Some? ==> Extract(files, e, source) == Ok(blob.value)
    requires e.storage in {DeltaXor, Skipped} ==>
               find.Some? && e.name in base && BaseRaw(env, files, find.value, e.name) == Ok(base[e.name])
    ensures LoadRaw(env, files, e, find, algo, source) == Ok(raw)
  {
  }

  /**
   Whatever has become of storage, of the pack and of its base alike: a tensor that was kept in full
   loads exactly when the bytes read for it are the ones written, and one kept as a delta loads, if
   at all, as what it was.
   */
  lemma DamageShows(
      env: Env, files: Files, e: TensorEntry, blob: Option<Bytes>, find: Option<Finder>, algo: Algo, source: Source,
      base: map<string, Bytes>, raw: Bytes)
    requires Lawful(env) && Stores(env, algo, e, blob, base, raw) && e.storage in {Full, DeltaXor}
    ensures blob.Some?
    ensures LoadRaw(env, files, e, find, algo, source).Ok? ==> LoadRaw(env, files, e, find, algo, source) == Ok(raw)
    ensures e.storage == Full ==>
              (LoadRaw(env, files, e, find, algo, source).Ok? <==> Extract(files, e, source) == Ok(blob.value))
    ensures e.storage == Full && Extract(files, e, source).Ok? && Extract(files, e, source) != Ok(blob.value) ==>
              LoadRaw(env, files, e, find, algo, source) == Err(Integrity)
  {
    hide Lossless, Resolved, Extract, Decompressed, Restored;
  }

  lemma SkippedShows(
      env: Env, files: Files, e: TensorEntry, find: Option<Finder>, algo: Algo, source: Source,
      base: map<string, Bytes>, raw: Bytes)
    requires e.storage == Skipped && Stores(env, algo, e, None, base, raw)
    requires find.Some? && BaseRaw(env, files, find.value, e.name).Ok? ==>
               BaseRaw(env, files, find.value, e.name) == Ok(base[e.name])
    ensures LoadRaw(env, files, e, find, algo, source).Ok? ==> LoadRaw(env, files, e, find, algo, source) == Ok(raw)
  {
    hide Resolved;
  }

  // ── How a tensor is kept ─────────────────────────────────────────

  /** Skipped exactly when the base holds these very bytes under this name; full when there is no base to hold any. */
  lemma SkippedExactly(
      env: Env, files: Files, cfg: Config, cache: Option<Cache>, t: TensorData, base: map<string, Bytes>)
    requires Lawful(env) && ProcessTensor(env, files, cfg, cache, t).Ok?
    requires cache.Some? ==> Faithful(env, files, cache.value, base) && cache.value.entries.Keys == base.Keys
    ensures WorkingOf(env, cfg.policy, t).Ok?
    ensures
      var e, data := ProcessTensor(env, files, cfg, cache, t).value.entry, WorkingOf(env, cfg.policy, t).value.data;
      && (e.storage == Skipped <==> cache.Some? && t.name in base && base[t.name] == data)
      && (cache.None? || t.name !in base ==> e.storage == Full)
  {
    hide BaseBytes, XorAgainst, Lossless, Compressed;
  }

  /**
   A delta only of two different buffers of one length, large enough, over a base kept in full; and
   when the base's bytes are in memory, exactly if the estimate on them says it pays off.
   */
  lemma DeltaExactly(
      env: Env, files: Files, cfg: Config, cache: Option<Cache>, t: TensorData, base: map<string, Bytes>)
    requires Lawful(env) && ProcessTensor(env, files, cfg, cache, t).Ok?
    requires cache.Some? && Faithful(env, files, cache.value, base) && t.name in cache.value.entries
    requires cache.value.entries[t.name].rawSize == |base[t.name]| && cache.value.entries[t.name].name == t.name
    ensures WorkingOf(env, cfg.policy, t).Ok?
    ensures
      var e, w := ProcessTensor(env, files, cfg, cache, t).value.entry, WorkingOf(env, cfg.policy, t).value;
      var was, b := base[t.name], cache.value.entries[t.name];
      && (e.storage == DeltaXor ==> was != w.data && |was| == |w.data| >= Delta.DELTA_MIN_SIZE && b.storage == Full)
      && (cache.value.raw.Some? && t.name in cache.value.raw.value ==>
            (e.storage == DeltaXor <==>
               && was != w.data && |was| == |w.data| >= Delta.DELTA_MIN_SIZE && b.storage == Full
               && env.paysOff(was, w.data, Shuffle.ElementSize(w.dtype))))
      && e.storage in {Full, DeltaXor, Skipped}
  {
    var was, w := base[t.name], WorkingOf(env, cfg.policy, t).value;
    var b := cache.value.entries[t.name];
    assert BaseBytes(env, files, cache.value, b).Ok? && BaseBytes(env, files, cache.value, b).value.Some? ==>
        BaseBytes(env, files, cache.value, b).value.value == was;
    hide Lossless, Compressed, Delta.Xor, SamplePrefix, ReadCompressed;
  }

  /** A tensor a rule casts is kept as that rule asks, and comes back as the cast undone. */
  lemma CastIsAsAsked(env: Env, policy: Policy, t: TensorData)
    requires !Uncast(policy, t)
    ensures Chosen(policy, t.name).Cast? && CastableFloat(t.dtype)
    ensures
      var target := Chosen(policy, t.name).dtype;
      var given := Given(env, policy, t);
      match env.narrow(t.data, t.dtype, target)
      case Err(e) => given == Err(e)
      case Ok((bytes, scale)) =>
        && given == Ok(Held(bytes, target, Some(t.dtype), scale))
        && Read(env, given.value) == env.widen(bytes, target, t.dtype, scale)
  {
  }
}
