/** What the store relies on and does not implement: hashing, zstd, JSON, the casts it names by dtype. */
module Env {
  import opened Bytes
  import opened Compression
  import opened Manifest

  /** An index entry: a snapshot with its ranks inline, or the name of the file that holds them. */
  datatype Head = Head(
    id: Id,
    step: nat,
    createdAt: int,
    ranks: Option<map<nat, RankEntry>>,
    ranksIn: Option<Path>,
    base: Option<Id>,
    metadata: map<string, string>,
    compression: Algo,
    finalized: bool,
    pinned: bool
  )

  datatype IndexFile = IndexFile(
    worldSize: nat,
    snapshots: seq<Head>,
    retention: Retention,
    lineage: Lineage
  )

  datatype RanksFile = RanksFile(snapshotId: Id, ranks: map<nat, RankEntry>)

  datatype Env = Env(
    hash: Bytes -> string,
    zstd: Zstd,
    decodePrefix: (Bytes, Algo, nat) -> Option<Bytes>,
    paysOff: (Bytes, Bytes, nat) -> bool,
    narrow: (Bytes, string, string) -> Result<(Bytes, Option<int>)>,
    widen: (Bytes, string, string, Option<int>) -> Result<Bytes>,
    descriptorJson: Descriptor -> Bytes,
    readDescriptor: Bytes -> Option<Descriptor>,
    ranksJson: RanksFile -> Bytes,
    readRanks: Bytes -> Option<RanksFile>,
    indexJson: IndexFile -> Bytes,
    readIndex: Bytes -> Option<IndexFile>
  )

  /** JSON text is never empty and never ends in a zero byte. */
  predicate EndsInText(s: Bytes) {
    |s| > 0 && s[|s| - 1] != 0
  }

  ghost predicate Injective(hash: Bytes -> string) {
    forall a, b :: hash(a) == hash(b) ==> a == b
  }

  ghost predicate Lawful(e: Env) {
    && Injective(e.hash)
    && Lossless(e.zstd)
    && (forall d :: e.readDescriptor(e.descriptorJson(d)) == Some(d))
    && (forall f :: e.readRanks(e.ranksJson(f)) == Some(f) && EndsInText(e.ranksJson(f)))
    && (forall x :: e.readIndex(e.indexJson(x)) == Some(x) && EndsInText(e.indexJson(x)))
  }

  // ── Storage ──────────────────────────────────────────────────────

  function Get(files: Files, path: Path): Result<Bytes> {
    if path in files then Ok(files[path]) else Err(NotFound)
  }

  function GetRange(files: Files, path: Path, offset: nat, len: nat): Result<Bytes> {
    if path in files then Ok(Slice(files[path], offset, len)) else Err(NotFound)
  }

  /** What a put leaves behind: the bytes, and zeros up to the next page boundary. */
  function Padded(data: Bytes, page: nat): Bytes {
    if page > 0 && |data| % page > 0 then data + Zeros(page - |data| % page) else data
  }

  ghost predicate Holds(file: Bytes, content: Bytes) {
    exists pad: nat :: file == content + Zeros(pad)
  }

  lemma HoldsItself(data: Bytes)
    ensures Holds(data, data)
  {
    assert data == data + Zeros(0);
  }

  lemma PaddedHolds(data: Bytes, page: nat)
    ensures Holds(Padded(data, page), data)
  {
    if page > 0 && |data| % page > 0 {
      assert Padded(data, page) == data + Zeros(page - |data| % page);
    } else {
      assert data == data + Zeros(0);
    }
  }

  lemma TextIsTrimmed(file: Bytes, content: Bytes)
    requires Holds(file, content) && EndsInText(content)
    ensures TrimZeros(file) == content
  {
    var pad: nat :| file == content + Zeros(pad);
    TrimPadded(content, pad);
  }

  /** Padding is past everything a reader asks for. */
  lemma SliceOfPadded(file: Bytes, content: Bytes, offset: nat, len: nat)
    requires Holds(file, content) && offset + len <= |content|
    ensures offset + len <= |file| && Slice(file, offset, len) == content[offset..offset + len]
    ensures file[offset..offset + len] == content[offset..offset + len]
  {
    var pad: nat :| file == content + Zeros(pad);
  }

  /** The storage backend: puts are atomic and padded, and any operation may fail. */
  class Disk {
    var files: Files
    var ops: nat
    const page: nat
    const fails: nat -> bool

    constructor (page: nat, fails: nat -> bool)
      ensures files == map[] && this.page == page && this.fails == fails
    {
      this.page, this.fails := page, fails;
      files, ops := map[], 0;
    }

    method Put(path: Path, data: Bytes) returns (r: Result<()>)
      modifies this
      ensures r.Ok? ==> files == old(files)[path := Padded(data, page)]
      ensures r.Err? ==> files == old(files) && r == Err(Error.Storage)
      ensures r.Err? <==> fails(old(ops))
      ensures NeverFails() ==> r.Ok?
      ensures ops == old(ops) + 1
    {
      ops := ops + 1;
      if fails(ops - 1) {
        return Err(Error.Storage);
      }
      files := files[path := Padded(data, page)];
      return Ok(());
    }

    method Delete(path: Path) returns (ok: bool)
      modifies this
      ensures files == if ok then old(files) - {path} else old(files)
      ensures ok <==> !fails(old(ops))
      ensures ops == old(ops) + 1
    {
      ops := ops + 1;
      ok := !fails(ops - 1);
      if ok {
        files := files - {path};
      }
    }

    ghost predicate Healthy(from: nat, to: nat) {
      forall k :: from <= k < to ==> !fails(k)
    }

    ghost predicate NeverFails() {
      forall k :: !fails(k)
    }

    /** Deletes each of `paths`, carrying on past any that cannot be deleted. */
    method DeleteAll(paths: set<Path>)
      modifies this
      ensures OnlyDeletes(old(files), files, paths)
      ensures ops >= old(ops) && (Healthy(old(ops), ops) ==> forall p :: p in paths ==> p !in files)
    {
      var todo := paths;
      while todo != {}
        invariant todo <= paths && ops >= old(ops)
        invariant OnlyDeletes(old(files), files, paths)
        invariant Healthy(old(ops), ops) ==> forall p :: p in paths - todo ==> p !in files
        decreases |todo|
      {
        var p :| p in todo;
        var _ := Delete(p);
        todo := todo - {p};
      }
    }
  }

  /** Nothing outside `gone` is touched, and nothing is written. */
  ghost predicate OnlyDeletes(before: Files, after: Files, gone: set<Path>) {
    && (forall p :: p in after ==> p in before && after[p] == before[p])
    && forall p :: p in before && p !in gone ==> p in after
  }
}
