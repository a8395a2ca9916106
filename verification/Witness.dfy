/** That there is something to rely on: a hash, a codec and encodings with every property asked of them. */
module Witness {
  import opened Bytes
  import opened Compression
  import opened Manifest
  import opened Environment = Env

  // ── Codes ────────────────────────────────────────────────────────

  type Tokens = seq<int>

  /** What is written tells values apart and shows where each ends, whatever follows. */
  ghost predicate Code<T(!new)>(e: T -> Tokens) {
    forall x: T, y: T, r: Tokens, s: Tokens :: e(x) + r == e(y) + s ==> x == y && r == s
  }

  ghost predicate OneToOne<A(!new), B(!new)>(f: A -> B) {
    forall x: A, y: A :: f(x) == f(y) ==> x == y
  }

  function OfInt(): int -> Tokens {
    (i: int) => [i]
  }

  lemma IntCode()
    ensures Code(OfInt())
  {
    forall x: int, y: int, r: Tokens, s: Tokens | OfInt()(x) + r == OfInt()(y) + s
      ensures x == y && r == s
    {
      assert ([x] + r)[0] == x && ([y] + s)[0] == y;
      assert ([x] + r)[1..] == r && ([y] + s)[1..] == s;
    }
  }

  function Both<A, B>(a: A -> Tokens, b: B -> Tokens): ((A, B)) -> Tokens {
    (p: (A, B)) => a(p.0) + b(p.1)
  }

  lemma BothCode<A(!new), B(!new)>(a: A -> Tokens, b: B -> Tokens)
    requires Code(a) && Code(b)
    ensures Code(Both(a, b))
  {
    var e := Both(a, b);
    forall x: (A, B), y: (A, B), r: Tokens, s: Tokens | e(x) + r == e(y) + s
      ensures x == y && r == s
    {
      assert a(x.0) + (b(x.1) + r) == e(x) + r && a(y.0) + (b(y.1) + s) == e(y) + s;
    }
  }

  function Via<A, B>(f: A -> B, b: B -> Tokens): A -> Tokens {
    (x: A) => b(f(x))
  }

  lemma ViaCode<A(!new), B(!new)>(f: A -> B, b: B -> Tokens)
    requires OneToOne(f) && Code(b)
    ensures Code(Via(f, b))
  {
    forall x: A, y: A, r: Tokens, s: Tokens | Via(f, b)(x) + r == Via(f, b)(y) + s
      ensures x == y && r == s
    {
      assert b(f(x)) + r == b(f(y)) + s;
    }
  }

  function Each<T>(a: T -> Tokens, xs: seq<T>): Tokens {
    if xs == [] then [0] else [1] + a(xs[0]) + Each(a, xs[1..])
  }

  function OfSeq<T>(a: T -> Tokens): seq<T> -> Tokens {
    (xs: seq<T>) => Each(a, xs)
  }

  lemma {:induction false} EachTells<T(!new)>(a: T -> Tokens, xs: seq<T>, ys: seq<T>, r: Tokens, s: Tokens)
    requires Code(a) && Each(a, xs) + r == Each(a, ys) + s
    ensures xs == ys && r == s
  {
    assert (Each(a, xs) + r)[0] == (Each(a, ys) + s)[0];
    if xs == [] {
      assert ([0] + r)[1..] == r && ([0] + s)[1..] == s;
    } else {
      var left, right := Each(a, xs[1..]) + r, Each(a, ys[1..]) + s;
      assert (Each(a, xs) + r)[1..] == a(xs[0]) + left && (Each(a, ys) + s)[1..] == a(ys[0]) + right;
      EachTells(a, xs[1..], ys[1..], r, s);
      assert xs == [xs[0]] + xs[1..] && ys == [ys[0]] + ys[1..];
    }
  }

  lemma SeqCode<T(!new)>(a: T -> Tokens)
    requires Code(a)
    ensures Code(OfSeq(a))
  {
    forall xs: seq<T>, ys: seq<T>, r: Tokens, s: Tokens | OfSeq(a)(xs) + r == OfSeq(a)(ys) + s
      ensures xs == ys && r == s
    {
      EachTells(a, xs, ys, r, s);
    }
  }

  /** The entries of a map, in some order that depends on the map alone. */
  ghost function Entries<K(!new), V(!new)>(m: map<K, V>): (r: seq<(K, V)>)
    decreases |m|
  {
    if m == map[] then []
    else
      var k :| k in m;
      [(k, m[k])] + Entries(m - {k})
  }

  lemma {:induction false} EntriesTell<K(!new), V(!new)>(m: map<K, V>, n: map<K, V>)
    requires Entries(m) == Entries(n)
    ensures m == n
    decreases |m|
  {
    if m != map[] && n != map[] {
      var k := Entries(m)[0].0;
      assert Entries(m)[1..] == Entries(m - {k}) && Entries(n)[1..] == Entries(n - {k});
      assert k in m && k in n && m[k] == n[k];
      EntriesTell(m - {k}, n - {k});
      assert m == (m - {k})[k := m[k]] && n == (n - {k})[k := n[k]];
    }
  }

  ghost function EntriesOf<K(!new), V(!new)>(): map<K, V> -> seq<(K, V)> {
    (m: map<K, V>) => Entries(m)
  }

  ghost function OfMap<K(!new), V(!new)>(k: K -> Tokens, v: V -> Tokens): map<K, V> -> Tokens {
    Via(EntriesOf(), OfSeq(Both(k, v)))
  }

  lemma MapCode<K(!new), V(!new)>(k: K -> Tokens, v: V -> Tokens)
    requires Code(k) && Code(v)
    ensures Code(OfMap(k, v))
  {
    forall m: map<K, V>, n: map<K, V> | EntriesOf()(m) == EntriesOf()(n)
      ensures m == n
    {
      EntriesTell(m, n);
    }
    BothCode(k, v);
    SeqCode(Both(k, v));
    ViaCode(EntriesOf(), OfSeq(Both(k, v)));
  }

  // ── What a manifest is made of ───────────────────────────────────

  function NatPart(n: nat): int {
    n
  }

  function BoolPart(b: bool): int {
    if b then 1 else 0
  }

  function CharPart(c: char): int {
    c as int
  }

  function OptionPart<T>(o: Option<T>): seq<T> {
    if o.Some? then [o.value] else []
  }

  function PathPart(p: Path): (int, (int, (int, string))) {
    match p
    case Index => (0, (0, (0, "")))
    case Pack(id, rank) => (1, (id, (rank, "")))
    case Ranks(id) => (2, (id, (0, "")))
    case Loose(id, file) => (3, (id, (0, file)))
  }

  function StoragePart(s: Storage): int {
    match s case Full => 0 case DeltaXor => 1 case Skipped => 2 case Alias => 3
  }

  function AlgoPart(a: Algo): Option<int> {
    match a case Store => None case ZstdLevel(level) => Some(level)
  }

  function OfNat(): nat -> Tokens {
    Via<nat, int>(NatPart, OfInt())
  }

  function OfBool(): bool -> Tokens {
    Via(BoolPart, OfInt())
  }

  function OfString(): string -> Tokens {
    OfSeq(Via(CharPart, OfInt()))
  }

  function OfOption<T>(a: T -> Tokens): Option<T> -> Tokens {
    Via(OptionPart<T>, OfSeq(a))
  }

  function OfPath(): Path -> Tokens {
    Via(PathPart, Both(OfInt(), Both(OfInt(), Both(OfInt(), OfString()))))
  }

  function OfStorage(): Storage -> Tokens {
    Via(StoragePart, OfInt())
  }

  function OfAlgo(): Algo -> Tokens {
    Via(AlgoPart, OfOption(OfInt()))
  }

  lemma OptionCode<T(!new)>(a: T -> Tokens)
    requires Code(a)
    ensures Code(OfOption(a))
  {
    SeqCode(a);
    ViaCode(OptionPart<T>, OfSeq(a));
  }

  lemma PlainCodes()
    ensures Code(OfInt()) && Code(OfNat()) && Code(OfBool()) && Code(OfString())
    ensures Code(OfPath()) && Code(OfStorage()) && Code(OfAlgo())
  {
    IntCode();
    ViaCode<nat, int>(NatPart, OfInt());
    ViaCode(BoolPart, OfInt());
    ViaCode(CharPart, OfInt());
    SeqCode(Via(CharPart, OfInt()));
    BothCode(OfInt(), OfString());
    BothCode(OfInt(), Both(OfInt(), OfString()));
    BothCode(OfInt(), Both(OfInt(), Both(OfInt(), OfString())));
    ViaCode(PathPart, Both(OfInt(), Both(OfInt(), Both(OfInt(), OfString()))));
    ViaCode(StoragePart, OfInt());
    OptionCode(OfInt());
    ViaCode(AlgoPart, OfOption(OfInt()));
  }

  type EntryParts = (string,
                     (seq<nat>, (string,
                                 (Option<string>,
                                  (Option<int>,
                                   (Storage, (Option<string>,
                                              (Option<Path>,
                                               (nat, (nat, (nat, (string, (Option<string>, bool)))))))))))))

  function EntryPart(x: TensorEntry): EntryParts {
    (x.name, (x.shape,
              (x.dtype, (x.originalDtype,
                         (x.quantScale,
                          (x.storage, (x.aliasOf,
                                       (x.filename,
                                        (x.offset, (x.compressedSize,
                                                    (x.rawSize, (x.hashRaw, (x.hashCompressed, x.shuffled)))))))))))))
  }

  function OfEntry(): TensorEntry -> Tokens {
    Via<TensorEntry,
      EntryParts>(EntryPart,
                  Both(OfString(),
                       Both(OfSeq(OfNat()),
                            Both(OfString(),
                                 Both(OfOption(OfString()),
                                      Both(OfOption(OfInt()),
                                           Both(OfStorage(),
                                                Both(OfOption(OfString()),
                                                     Both(OfOption(OfPath()),
                                                          Both(OfNat(),
                                                               Both(OfNat(),
                                                                    Both(OfNat(),
                                                                        Both(OfString(),
                                                                            Both(OfOption(OfString()),
                                                                                OfBool()))))))))))))))
  }

  lemma EntryCode()
    ensures Code(OfEntry())
  {
    PlainCodes();
    SeqCode(OfNat());
    OptionCode(OfString());
    OptionCode(OfInt());
    OptionCode(OfPath());
    var e13 := OfBool();
    BothCode(OfOption(OfString()), e13);
    var e12 := Both(OfOption(OfString()), e13);
    BothCode(OfString(), e12);
    var e11 := Both(OfString(), e12);
    BothCode(OfNat(), e11);
    var e10 := Both(OfNat(), e11);
    BothCode(OfNat(), e10);
    var e9 := Both(OfNat(), e10);
    BothCode(OfNat(), e9);
    var e8 := Both(OfNat(), e9);
    BothCode(OfOption(OfPath()), e8);
    var e7 := Both(OfOption(OfPath()), e8);
    BothCode(OfOption(OfString()), e7);
    var e6 := Both(OfOption(OfString()), e7);
    BothCode(OfStorage(), e6);
    var e5 := Both(OfStorage(), e6);
    BothCode(OfOption(OfInt()), e5);
    var e4 := Both(OfOption(OfInt()), e5);
    BothCode(OfOption(OfString()), e4);
    var e3 := Both(OfOption(OfString()), e4);
    BothCode(OfString(), e3);
    var e2 := Both(OfString(), e3);
    BothCode(OfSeq(OfNat()), e2);
    var e1 := Both(OfSeq(OfNat()), e2);
    BothCode(OfString(), e1);
    var e0 := Both(OfString(), e1);
    ViaCode<TensorEntry, EntryParts>(EntryPart, e0);
  }

  type RankParts = (nat, (seq<TensorEntry>, (Option<Path>, (nat, (nat, (nat, (nat, nat)))))))

  function RankPart(x: RankEntry): RankParts {
    (x.rank, (x.tensors,
              (x.packFile, (x.totalCompressed, (x.totalRaw, (x.skippedCount, (x.deltaCount, x.fullCount)))))))
  }

  function OfRank(): RankEntry -> Tokens {
    Via<RankEntry,
      RankParts>(RankPart,
                 Both(OfNat(),
                      Both(OfSeq(OfEntry()),
                           Both(OfOption(OfPath()),
                                Both(OfNat(), Both(OfNat(), Both(OfNat(), Both(OfNat(), OfNat()))))))))
  }

  lemma RankCode()
    ensures Code(OfRank())
  {
    PlainCodes();
    EntryCode();
    SeqCode(OfEntry());
    OptionCode(OfPath());
    var e7 := OfNat();
    BothCode(OfNat(), e7);
    var e6 := Both(OfNat(), e7);
    BothCode(OfNat(), e6);
    var e5 := Both(OfNat(), e6);
    BothCode(OfNat(), e5);
    var e4 := Both(OfNat(), e5);
    BothCode(OfNat(), e4);
    var e3 := Both(OfNat(), e4);
    BothCode(OfOption(OfPath()), e3);
    var e2 := Both(OfOption(OfPath()), e3);
    BothCode(OfSeq(OfEntry()), e2);
    var e1 := Both(OfSeq(OfEntry()), e2);
    BothCode(OfNat(), e1);
    var e0 := Both(OfNat(), e1);
    ViaCode<RankEntry, RankParts>(RankPart, e0);
  }

  type DescriptorParts = (nat, (nat, (int, (Option<nat>, (map<string, string>, (Algo, (nat, RankEntry)))))))

  function DescriptorPart(x: Descriptor): DescriptorParts {
    (x.snapshotId, (x.step, (x.createdAt, (x.base, (x.metadata, (x.compression, (x.worldSize, x.rank)))))))
  }

  ghost function OfDescriptor(): Descriptor -> Tokens {
    Via<Descriptor,
      DescriptorParts>(DescriptorPart,
                       Both(OfNat(),
                            Both(OfNat(),
                                 Both(OfInt(),
                                      Both(OfOption(OfNat()),
                                           Both(OfMap(OfString(), OfString()),
                                                Both(OfAlgo(), Both(OfNat(), OfRank()))))))))
  }

  lemma DescriptorCode()
    ensures Code(OfDescriptor())
  {
    PlainCodes();
    RankCode();
    OptionCode(OfNat());
    MapCode(OfString(), OfString());
    var e7 := OfRank();
    BothCode(OfNat(), e7);
    var e6 := Both(OfNat(), e7);
    BothCode(OfAlgo(), e6);
    var e5 := Both(OfAlgo(), e6);
    BothCode(OfMap(OfString(), OfString()), e5);
    var e4 := Both(OfMap(OfString(), OfString()), e5);
    BothCode(OfOption(OfNat()), e4);
    var e3 := Both(OfOption(OfNat()), e4);
    BothCode(OfInt(), e3);
    var e2 := Both(OfInt(), e3);
    BothCode(OfNat(), e2);
    var e1 := Both(OfNat(), e2);
    BothCode(OfNat(), e1);
    var e0 := Both(OfNat(), e1);
    ViaCode<Descriptor, DescriptorParts>(DescriptorPart, e0);
  }

  type RanksFileParts = (nat, map<nat, RankEntry>)

  function RanksFilePart(x: RanksFile): RanksFileParts {
    (x.snapshotId, x.ranks)
  }

  ghost function OfRanksFile(): RanksFile -> Tokens {
    Via<RanksFile, RanksFileParts>(RanksFilePart, Both(OfNat(), OfMap(OfNat(), OfRank())))
  }

  lemma RanksFileCode()
    ensures Code(OfRanksFile())
  {
    PlainCodes();
    RankCode();
    MapCode(OfNat(), OfRank());
    var e1 := OfMap(OfNat(), OfRank());
    BothCode(OfNat(), e1);
    var e0 := Both(OfNat(), e1);
    ViaCode<RanksFile, RanksFileParts>(RanksFilePart, e0);
  }

  type HeadParts = (nat,
                    (nat, (int, (Option<map<nat, RankEntry>>,
                                 (Option<Path>, (Option<nat>, (map<string, string>, (Algo, (bool, bool)))))))))

  function HeadPart(x: Head): HeadParts {
    (x.id, (x.step,
            (x.createdAt, (x.ranks, (x.ranksIn, (x.base, (x.metadata, (x.compression, (x.finalized, x.pinned)))))))))
  }

  ghost function OfHead(): Head -> Tokens {
    Via<Head, HeadParts>(HeadPart,
                         Both(OfNat(),
                              Both(OfNat(),
                                   Both(OfInt(),
                                        Both(OfOption(OfMap(OfNat(), OfRank())),
                                             Both(OfOption(OfPath()),
                                                  Both(OfOption(OfNat()),
                                                       Both(OfMap(OfString(), OfString()),
                                                            Both(OfAlgo(), Both(OfBool(), OfBool()))))))))))
  }

  lemma HeadCode()
    ensures Code(OfHead())
  {
    PlainCodes();
    RankCode();
    MapCode(OfNat(), OfRank());
    OptionCode(OfMap(OfNat(), OfRank()));
    OptionCode(OfPath());
    OptionCode(OfNat());
    MapCode(OfString(), OfString());
    var e9 := OfBool();
    BothCode(OfBool(), e9);
    var e8 := Both(OfBool(), e9);
    BothCode(OfAlgo(), e8);
    var e7 := Both(OfAlgo(), e8);
    BothCode(OfMap(OfString(), OfString()), e7);
    var e6 := Both(OfMap(OfString(), OfString()), e7);
    BothCode(OfOption(OfNat()), e6);
    var e5 := Both(OfOption(OfNat()), e6);
    BothCode(OfOption(OfPath()), e5);
    var e4 := Both(OfOption(OfPath()), e5);
    BothCode(OfOption(OfMap(OfNat(), OfRank())), e4);
    var e3 := Both(OfOption(OfMap(OfNat(), OfRank())), e4);
    BothCode(OfInt(), e3);
    var e2 := Both(OfInt(), e3);
    BothCode(OfNat(), e2);
    var e1 := Both(OfNat(), e2);
    BothCode(OfNat(), e1);
    var e0 := Both(OfNat(), e1);
    ViaCode<Head, HeadParts>(HeadPart, e0);
  }

  type IndexParts = (nat, (seq<Head>, (nat, (nat, (nat, (Option<nat>, (nat, nat)))))))

  function IndexPart(x: IndexFile): IndexParts {
    (x.worldSize,
     (x.snapshots,
      (x.retention.maxFullSnapshots,
       (x.retention.maxDeltasPerFull,
        (x.retention.fullSnapshotEverySteps,
         (x.retention.maxTotalSnapshots, (x.lineage.rollbackIntervalSteps, x.lineage.maxRollbackSnapshots)))))))
  }

  ghost function OfIndex(): IndexFile -> Tokens {
    Via<IndexFile,
      IndexParts>(IndexPart,
                  Both(OfNat(),
                       Both(OfSeq(OfHead()),
                            Both(OfNat(),
                                 Both(OfNat(), Both(OfNat(), Both(OfOption(OfNat()), Both(OfNat(), OfNat()))))))))
  }

  lemma IndexCode()
    ensures Code(OfIndex())
  {
    PlainCodes();
    HeadCode();
    SeqCode(OfHead());
    OptionCode(OfNat());
    var e7 := OfNat();
    BothCode(OfNat(), e7);
    var e6 := Both(OfNat(), e7);
    BothCode(OfOption(OfNat()), e6);
    var e5 := Both(OfOption(OfNat()), e6);
    BothCode(OfNat(), e5);
    var e4 := Both(OfNat(), e5);
    BothCode(OfNat(), e4);
    var e3 := Both(OfNat(), e4);
    BothCode(OfNat(), e3);
    var e2 := Both(OfNat(), e3);
    BothCode(OfSeq(OfHead()), e2);
    var e1 := Both(OfSeq(OfHead()), e2);
    BothCode(OfNat(), e1);
    var e0 := Both(OfNat(), e1);
    ViaCode<IndexFile, IndexParts>(IndexPart, e0);
  }

  // ── Bytes ────────────────────────────────────────────────────────

  function Ones(n: nat): Bytes {
    if n == 0 then [] else [1] + Ones(n - 1)
  }

  /** How many ones a buffer begins with. */
  function Leading(b: Bytes): (n: nat)
    ensures n <= |b|
  {
    if b == [] || b[0] != 1 then 0 else 1 + Leading(b[1..])
  }

  lemma {:induction false} LeadingOnes(n: nat, a: byte, r: Bytes)
    requires a != 1
    ensures |Ones(n)| == n && Leading(Ones(n) + [a] + r) == n
  {
    if n > 0 {
      LeadingOnes(n - 1, a, r);
      assert (Ones(n) + [a] + r)[1..] == Ones(n - 1) + [a] + r;
    }
  }

  lemma OnesTell(m: nat, n: nat, a: byte, b: byte, r: Bytes, s: Bytes)
    requires a != 1 && b != 1 && Ones(m) + [a] + r == Ones(n) + [b] + s
    ensures m == n && a == b && r == s
  {
    LeadingOnes(m, a, r);
    LeadingOnes(n, b, s);
    assert (Ones(m) + [a] + r)[m] == a && (Ones(n) + [b] + s)[n] == b;
    assert (Ones(m) + [a] + r)[m + 1..] == r && (Ones(n) + [b] + s)[n + 1..] == s;
  }

  function Size(i: int): nat {
    if i < 0 then -i else i
  }

  function SignOf(i: int): byte {
    if i < 0 then 3 else 2
  }

  /** Unary numbers with their sign after them, and a last byte of its own. */
  function Text(ts: Tokens): Bytes {
    if ts == [] then [4] else Ones(Size(ts[0])) + [SignOf(ts[0])] + Text(ts[1..])
  }

  /** The byte after the leading ones says whether the text is over. */
  lemma TextBegins(ts: Tokens)
    ensures var n := Leading(Text(ts)); n < |Text(ts)| && (Text(ts)[n] == 4 <==> ts == [])
  {
    if ts != [] {
      LeadingOnes(Size(ts[0]), SignOf(ts[0]), Text(ts[1..]));
    }
  }

  lemma {:induction false} TextTells(ts: Tokens, us: Tokens)
    requires Text(ts) == Text(us)
    ensures ts == us
  {
    TextBegins(ts);
    TextBegins(us);
    if ts != [] {
      OnesTell(Size(ts[0]), Size(us[0]), SignOf(ts[0]), SignOf(us[0]), Text(ts[1..]), Text(us[1..]));
      TextTells(ts[1..], us[1..]);
      assert ts == [ts[0]] + ts[1..] && us == [us[0]] + us[1..];
    }
  }

  lemma {:induction false} TextEnds(ts: Tokens)
    ensures EndsInText(Text(ts))
  {
    if ts != [] {
      TextEnds(ts[1..]);
    }
  }

  ghost function Json<T(!new)>(e: T -> Tokens): T -> Bytes {
    (x: T) => Text(e(x))
  }

  lemma JsonTells<T(!new)>(e: T -> Tokens)
    requires Code(e)
    ensures OneToOne(Json(e)) && forall x: T :: EndsInText(Json(e)(x))
  {
    forall x: T, y: T | Json(e)(x) == Json(e)(y)
      ensures x == y
    {
      TextTells(e(x), e(y));
      assert e(x) + [] == e(y) + [];
    }
    forall x: T
      ensures EndsInText(Json(e)(x))
    {
      TextEnds(e(x));
    }
  }

  ghost function Read<T(!new)>(f: T -> Bytes): Bytes -> Option<T> {
    (b: Bytes) => if exists x: T :: f(x) == b then var x: T :| f(x) == b; Some(x) else None
  }

  lemma ReadsBack<T(!new)>(f: T -> Bytes)
    requires OneToOne(f)
    ensures forall x: T :: Read(f)(f(x)) == Some(x)
  {
  }

  // ── A hash and a codec ───────────────────────────────────────────

  function HashOf(b: Bytes): string {
    if b == [] then "" else [b[0] as int as char] + HashOf(b[1..])
  }

  lemma {:induction false} HashTells(a: Bytes, b: Bytes)
    requires HashOf(a) == HashOf(b)
    ensures a == b
  {
    if a != [] && b != [] {
      assert HashOf(a)[0] == HashOf(b)[0] && HashOf(a)[1..] == HashOf(a[1..]) && HashOf(b)[1..] == HashOf(b[1..]);
      HashTells(a[1..], b[1..]);
      assert a == [a[0]] + a[1..] && b == [b[0]] + b[1..];
    }
  }

  /** A frame says how long its contents are, and carries them as they are. */
  function Frame(data: Bytes, level: int): Bytes {
    Ones(|data|) + [2] + data
  }

  function FrameSize(b: Bytes): Option<nat> {
    Some(2 * Leading(b) + 1)
  }

  function ContentSize(b: Bytes): Option<nat> {
    Some(Leading(b))
  }

  function DecodeFrame(b: Bytes): Option<Bytes> {
    if Leading(b) < |b| then Some(b[Leading(b) + 1..]) else None
  }

  function Plain(): Zstd {
    Zstd(Frame, FrameSize, ContentSize, DecodeFrame, _ => None)
  }

  lemma PlainIsLossless()
    ensures Lossless(Plain())
  {
    forall d: Bytes, l: int, rest: Bytes
      ensures FrameSize(Frame(d, l) + rest) == Some(|Frame(d, l)|)
    {
      assert Frame(d, l) + rest == Ones(|d|) + [2] + (d + rest);
      LeadingOnes(|d|, 2, d + rest);
    }
    forall d: Bytes, l: int
      ensures |Frame(d, l)| > 0 && ContentSize(Frame(d, l)) == Some(|d|) && DecodeFrame(Frame(d, l)) == Some(d)
    {
      LeadingOnes(|d|, 2, d);
    }
  }

  // ── The environment ──────────────────────────────────────────────

  /** An encoding that is short on three values. */
  ghost function Short<T(!new)>(f: T -> Bytes, a: T, b: T, c: T): T -> Bytes {
    (x: T) => if x == a then [0] else if x == b then [0, 0] else if x == c then [0, 0, 0] else [1] + f(x)
  }

  lemma ShortTells<T(!new)>(f: T -> Bytes, a: T, b: T, c: T)
    requires OneToOne(f)
    ensures OneToOne(Short(f, a, b, c))
  {
    var g := Short(f, a, b, c);
    forall x: T, y: T | g(x) == g(y)
      ensures x == y
    {
      assert ([1] + f(x))[1..] == f(x) && ([1] + f(y))[1..] == f(y);
      assert [0 as byte] != [0, 0] && [0 as byte] != [0, 0, 0] && [0 as byte, 0] != [0, 0, 0];
      assert ([1] + f(x))[0] == 1 && ([1] + f(y))[0] == 1;
    }
  }

  /** One that describes packs by `describe`. */
  ghost function EnvWith(describe: Descriptor -> Bytes): Env {
    Env(
      HashOf, Plain(), (_, _, _) => None, (_, _, _) => false, (_, _, _) => Err(Error.Config),
      (_, _, _, _) => Err(Error.Config), describe, Read(describe), Json(OfRanksFile()), Read(Json(OfRanksFile())),
      Json(OfIndex()), Read(Json(OfIndex())))
  }

  lemma EnvIsLawful(describe: Descriptor -> Bytes)
    requires OneToOne(describe)
    ensures Lawful(EnvWith(describe))
  {
    forall a, b | HashOf(a) == HashOf(b)
      ensures a == b
    {
      HashTells(a, b);
    }
    PlainIsLossless();
    ReadsBack(describe);
    RanksFileCode();
    JsonTells(OfRanksFile());
    ReadsBack(Json(OfRanksFile()));
    IndexCode();
    JsonTells(OfIndex());
    ReadsBack(Json(OfIndex()));
    hide Code, Json, Read, Lossless, HashOf, OfIndex, OfRanksFile;
  }

  /** So there is something to rely on, and it can be told to describe any three packs shortly. */
  lemma SomethingToRelyOn(a: Descriptor, b: Descriptor, c: Descriptor) returns (env: Env)
    ensures Lawful(env) && env.hash == HashOf
    ensures |env.descriptorJson(a)| <= 3 && |env.descriptorJson(b)| <= 3 && |env.descriptorJson(c)| <= 3
  {
    DescriptorCode();
    JsonTells(OfDescriptor());
    var describe := Short(Json(OfDescriptor()), a, b, c);
    ShortTells(Json(OfDescriptor()), a, b, c);
    EnvIsLawful(describe);
    env := EnvWith(describe);
    hide Lawful, Json, OfDescriptor;
  }
}
