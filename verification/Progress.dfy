/** Nobody waits for ever: the lock is given back, every load ends, and every wait on readers is over one day. */
module Progress {
  import opened Bytes
  import opened Compression
  import opened Manifest
  import opened Env
  import opened Tensor
  import opened Shard
  import opened Layout
  import opened Save
  import opened Core
  import opened ManifestIO
  import opened Retain
  import opened Protocol
  import opened Safety
  import opened SafetyLoads
  import opened Theorems
  import opened Bases
  import PackFile = Pack
  import Load

  // ── Getting from one state to another ────────────────────────────

  /** Nothing fails and nothing crashes. */
  predicate Smooth(step: Step) {
    !step.LoadFailsStep? && !step.PersistFailsStep? && !step.SaveFailsStep? && !step.MergeFailsStep?
      && !step.CrashesStep?
  }

  ghost predicate Leads(c: Setup, states: seq<State>, steps: seq<Step>) {
    && |states| == |steps| + 1
    && forall i :: 0 <= i < |steps| ==> Smooth(steps[i]) && Next(c, states[i], states[i + 1], steps[i])
  }

  /** Finitely many smooth steps lead from `s` to `t`. */
  ghost predicate Reaches(c: Setup, s: State, t: State) {
    exists states: seq<State>, steps: seq<Step> :: Leads(c, states, steps) && states[0] == s && states[|steps|] == t
  }

  lemma ReachesItself(c: Setup, s: State)
    ensures Reaches(c, s, s)
  {
    hide Next;
    assert Leads(c, [s], []) && [s][0] == s;
  }

  lemma ReachesNext(c: Setup, s: State, t: State, step: Step)
    requires Smooth(step) && Next(c, s, t, step)
    ensures Reaches(c, s, t)
  {
    hide Next;
    assert Leads(c, [s, t], [step]) && [s, t][0] == s && [s, t][1] == t;
  }

  lemma ReachesFurther(c: Setup, s: State, t: State, u: State)
    requires Reaches(c, s, t) && Reaches(c, t, u)
    ensures Reaches(c, s, u)
  {
    hide Next, Smooth;
    var ss, first :| Leads(c, ss, first) && ss[0] == s && ss[|first|] == t;
    var us, second :| Leads(c, us, second) && us[0] == t && us[|second|] == u;
    assert Leads(c, ss[..|first|] + us, first + second) && (ss[..|first|] + us)[0] == s;
  }

  lemma {:induction false} LeadsKeeps(c: Setup, states: seq<State>, steps: seq<Step>, i: nat)
    requires GoodSetup(c) && Leads(c, states, steps) && Inv(c, states[0]) && i < |states|
    ensures Inv(c, states[i])
  {
    hide Inv, GoodSetup, Next, Smooth;
    if i > 0 {
      LeadsKeeps(c, states, steps, i - 1);
      StepKeeps(c, states[i - 1], states[i], steps[i - 1]);
    }
  }

  lemma ReachesKeeps(c: Setup, s: State, t: State)
    requires GoodSetup(c) && Inv(c, s) && Reaches(c, s, t)
    ensures Inv(c, t)
  {
    hide Inv, GoodSetup, Next, Smooth;
    var states, steps :| Leads(c, states, steps) && states[0] == s && states[|steps|] == t;
    LeadsKeeps(c, states, steps, |steps|);
  }

  // ── The lock is given back ───────────────────────────────────────

  /** The lock's holder can always go on: with a ranks file, or with the index. */
  lemma HolderGoesOn(c: Setup, s: State) returns (t: State, step: Step)
    requires Inv(c, s) && s.lock.Taken?
    ensures Next(c, s, t, step) && Smooth(step)
    ensures if s.lock.todo == {} then step == PutIndexStep && PutIndex(c, s, t)
            else
              && step.PutRanksStep? && PutRanks(c, s, t, step.snap) && step.snap.id in s.lock.todo
              && t.lock == s.lock.(todo := s.lock.todo - {step.snap.id}) && t == s.(files := t.files, lock := t.lock)
  {
    hide Inv, Padded, RanksText, IndexText, Released, Recorded;
    if s.lock.todo == {} {
      step := PutIndexStep;
      t := Released(
        s.(files := s.files[Index := Padded(IndexText(c, s.mem), c.page)], mem := Recorded(s.mem),
           indexed := Some(Recorded(s.mem))), true);
    } else {
      var id :| id in s.lock.todo;
      TodoIsListed(c, s);
      var snap :| snap in s.mem.snapshots && snap.id == id;
      step := PutRanksStep(snap);
      t := s.(files := s.files[Ranks(snap.id) := Padded(RanksText(c.env, snap), c.page)],
              lock := s.lock.(todo := s.lock.todo - {snap.id}));
    }
  }

  lemma TodoIsListed(c: Setup, s: State)
    requires Inv(c, s) && s.lock.Taken?
    ensures s.lock.todo <= Ids(s.mem.snapshots)
  {
    hide Records, DiskOk, IndexOk, Present, ListsOk, SaverOk, MergerOk, LoadersOk, ModeOk, SweepsOk, RetainedOk, Ids;
  }

  /** What a persist that goes through leaves alone. */
  ghost predicate LockGone(s: State, t: State) {
    && t.lock.Free? && t.loaders == s.loaders && t.mem.snapshots == s.mem.snapshots && t.history == s.history
       && t.algo == s.algo
    && t.mode == (if s.mode.Recording? then Running else s.mode)
    && t.retained == s.retained && t.mem == s.mem.(ranksWritten := t.mem.ranksWritten)
    && t.pins == (if s.saver.Publishing? then s.pins - {SaverActor} else s.pins)
    && t.saver == (if s.saver.Publishing? then Unlinking(Waiting(s.saver.evicted)) else s.saver)
    && t.merger == (if s.merger.MPublishing? then MUnlinking(Waiting(s.merger.spent)) else s.merger)
    && t.claim == s.claim
  }

  lemma IndexGivesBack(c: Setup, s: State, t: State)
    requires Inv(c, s) && PutIndex(c, s, t)
    ensures LockGone(s, t)
  {
    LockHolder(c, s);
    hide Inv, Padded, IndexText, WrittenAfter;
  }

  lemma LockHolder(c: Setup, s: State)
    requires Inv(c, s) && s.lock.Taken?
    ensures LockOk(s) && ModeOk(c, s) && (s.mode.Running? || s.mode.Recording?)
  {
    hide Records, DiskOk, IndexOk, Present, ListsOk, SaverOk, MergerOk, LoadersOk, SweepsOk, RetainedOk, Ids;
  }

  /** A persist under way can always be carried through, whoever made it. */
  lemma {:induction false} LockIsGivenBack(c: Setup, s: State) returns (t: State)
    requires GoodSetup(c) && Inv(c, s) && s.lock.Taken?
    ensures Reaches(c, s, t) && LockGone(s, t)
    decreases |s.lock.todo|
  {
    hide Inv, GoodSetup, Next, PutIndex, PutRanks, Reaches, Smooth;
    var u, step := HolderGoesOn(c, s);
    ReachesNext(c, s, u, step);
    if s.lock.todo == {} {
      IndexGivesBack(c, s, u);
      t := u;
    } else {
      ReachesKeeps(c, s, u);
      t := LockIsGivenBack(c, u);
      ReachesFurther(c, s, u, t);
    }
  }

  /** Whoever holds the lock of a running store, it can be had. */
  lemma QuietAgain(c: Setup, s: State) returns (t: State)
    requires GoodSetup(c) && Inv(c, s) && s.mode.Running?
    ensures Reaches(c, s, t) && LockGone(s, t) && Quiet(t) && Inv(c, t)
  {
    hide Inv, GoodSetup, Next, Reaches;
    if s.lock.Taken? {
      t := LockIsGivenBack(c, s);
    } else {
      NobodyPublishes(c, s);
      t := s;
      ReachesItself(c, s);
    }
    ReachesKeeps(c, s, t);
  }

  lemma NobodyPublishes(c: Setup, s: State)
    requires Inv(c, s) && s.lock.Free?
    ensures !s.saver.Publishing? && !s.merger.MPublishing? && !s.mode.Recording?
  {
    hide Records, DiskOk, IndexOk, Present, ListsOk, SaverOk, MergerOk, LoadersOk, ModeOk, SweepsOk, RetainedOk, Ids;
  }

  // ── Every load ends ──────────────────────────────────────────────

  /** Loader `n` has ended and let go of its pins; nobody else's load has moved, and nobody pins more. */
  ghost predicate Ended(s: State, t: State, n: nat) {
    && n in t.loaders && Finished(t.loaders[n]) && LoaderActor(n) !in t.pins
    && t.loaders == s.loaders[n := t.loaders[n]] && t.mode == s.mode
    && (forall a :: a in t.pins ==> a in s.pins && t.pins[a] == s.pins[a])
    && t.mem.snapshots == s.mem.snapshots && t.history == s.history
    && (s.saver.Unlinking? ==> t.saver == s.saver) && (s.merger.MUnlinking? ==> t.merger == s.merger)
  }

  lemma LoaderRuns(c: Setup, s: State, n: nat)
    requires Inv(c, s) && n in s.loaders
    ensures s.mode.Running?
  {
    hide Records, DiskOk, IndexOk, Present, ListsOk, SaverOk, MergerOk, LoadersOk, SweepsOk, RetainedOk, LockOk;
  }

  lemma AfterLock(s: State, t: State, u: State, n: nat)
    requires LockGone(s, t) && Ended(t, u, n) && s.mode.Running?
    ensures Ended(s, u, n)
  {
  }

  lemma AfterMoving(s: State, t: State, u: State, n: nat)
    requires n in t.loaders && t == s.(loaders := s.loaders[n := t.loaders[n]]) && Ended(t, u, n)
    ensures Ended(s, u, n)
  {
    assert s.loaders[n := t.loaders[n]][n := u.loaders[n]] == s.loaders[n := u.loaders[n]];
  }

  lemma OwnRank(c: Setup, s: State, n: nat)
    requires Inv(c, s) && n in s.loaders && !Finished(s.loaders[n])
    ensures c.config.rank in s.loaders[n].snap.ranks && s.mode == Running
  {
    hide Inv, ShardHolds, Holds, Raws, Known, Finished;
    LoaderRuns(c, s, n);
    OwnShard(c, s, n);
  }

  lemma FinishIs(c: Setup, s: State, n: nat) returns (t: State)
    requires s.mode == Running && n in s.loaders && s.loaders[n].GotBase? && c.config.rank in s.loaders[n].snap.ranks
    ensures LoadFinishes(c, s, t, n) && Ended(s, t, n)
  {
    hide Load.LoadAll, LoaderFinder;
    var l := s.loaders[n];
    var find := LoaderFinder(c, s.files, l.snap, l.base);
    var result :=
      Load.LoadAll(c.env, s.files, l.snap.ranks[c.config.rank].tensors, find, l.snap.compression, Whole(l.pack));
    t := s.(loaders := s.loaders[n := Done(l.snap.id, result)], pins := s.pins - {LoaderActor(n)});
  }

  lemma FinishEnds(c: Setup, s: State, n: nat) returns (t: State)
    requires GoodSetup(c) && Inv(c, s) && n in s.loaders && s.loaders[n].GotBase?
    ensures Reaches(c, s, t) && Ended(s, t, n) && LoadFinishes(c, s, t, n)
  {
    hide Inv, GoodSetup, Reaches, LoadFinishes, Ended;
    OwnRank(c, s, n);
    t := FinishIs(c, s, n);
    ReachesNext(c, s, t, LoadFinishesStep(n));
  }

  lemma FindsBaseNext(c: Setup, s: State, n: nat) returns (t: State)
    requires Quiet(s) && n in s.loaders && s.loaders[n].GotPack?
    ensures Reaches(c, s, t) && LoadFindsBase(s, t, n)
    ensures n in t.loaders && t.loaders[n].GotBase? && t == s.(loaders := s.loaders[n := t.loaders[n]])
  {
    hide Reaches;
    var l := s.loaders[n];
    var base := if l.snap.base.Some? then Find(s.mem.snapshots, l.snap.base.value) else None;
    t := s.(loaders := s.loaders[n := GotBase(l.snap, l.pack, base)]);
    assert LoadFindsBase(s, t, n);
    hide LoadFindsBase;
    ReachesNext(c, s, t, LoadFindsBaseStep(n));
  }

  lemma GotPackEnds(c: Setup, s: State, n: nat) returns (t: State)
    requires GoodSetup(c) && Inv(c, s) && n in s.loaders && s.loaders[n].GotPack?
    ensures Reaches(c, s, t) && Ended(s, t, n)
  {
    LoaderRuns(c, s, n);
    hide Inv, GoodSetup, Reaches, LoadFindsBase, LoadFinishes;
    var q := QuietAgain(c, s);
    var u := FindsBaseNext(c, q, n);
    ReachesKeeps(c, q, u);
    t := FinishEnds(c, u, n);
    ReachesFurther(c, s, q, u);
    ReachesFurther(c, s, u, t);
    AfterMoving(q, u, t, n);
    hide Ended, LockGone;
    AfterLock(s, q, t, n);
  }

  lemma GetsPackNext(c: Setup, s: State, n: nat) returns (t: State)
    requires Inv(c, s) && s.mode == Running && n in s.loaders && s.loaders[n].Pinned?
    ensures Reaches(c, s, t) && LoadGetsPack(c, s, t, n)
    ensures n in t.loaders && t.loaders[n].GotPack? && t.loaders[n].snap == s.loaders[n].snap
    ensures t == s.(loaders := s.loaders[n := t.loaders[n]])
  {
    hide Reaches, Inv;
    var snap := s.loaders[n].snap;
    PinnedIsThere(c, s, n, snap.id);
    t := s.(loaders := s.loaders[n := GotPack(snap, s.files[Path.Pack(snap.id, c.config.rank)])]);
    assert LoadGetsPack(c, s, t, n);
    hide LoadGetsPack;
    ReachesNext(c, s, t, LoadGetsPackStep(n));
  }

  lemma PinnedEnds(c: Setup, s: State, n: nat) returns (t: State)
    requires GoodSetup(c) && Inv(c, s) && n in s.loaders && s.loaders[n].Pinned?
    ensures Reaches(c, s, t) && Ended(s, t, n)
  {
    LoaderRuns(c, s, n);
    hide Inv, GoodSetup, Reaches, LoadGetsPack;
    var u := GetsPackNext(c, s, n);
    ReachesKeeps(c, s, u);
    t := GotPackEnds(c, u, n);
    ReachesFurther(c, s, u, t);
    AfterMoving(s, u, t, n);
  }

  lemma NamesEndEnds(c: Setup, s: State, n: nat) returns (t: State)
    requires s.mode == Running && n in s.loaders && s.loaders[n].Fetching? && s.loaders[n].k == |s.loaders[n].asked|
    ensures Reaches(c, s, t) && Ended(s, t, n)
  {
    hide Reaches;
    var l := s.loaders[n];
    t := s.(loaders := s.loaders[n := Told(l.snap.id, l.asked, Ok(l.out))], pins := s.pins - {LoaderActor(n)});
    assert NamesEnd(s, t, n);
    hide NamesEnd;
    ReachesNext(c, s, t, NamesEndStep(n));
  }

  /** One more name, or the end of it. */
  ghost predicate NameMoves(s: State, t: State, n: nat) {
    || Ended(s, t, n)
    || (n in s.loaders && s.loaders[n].Fetching? && n in t.loaders && t.loaders[n].Fetching?
        && t == s.(loaders := s.loaders[n := t.loaders[n]])
        && t.loaders[n].asked == s.loaders[n].asked && t.loaders[n].k == s.loaders[n].k + 1)
  }

  lemma NameReadsIs(c: Setup, s: State, n: nat) returns (t: State)
    requires Quiet(s) && n in s.loaders && s.loaders[n].Fetching? && s.loaders[n].k < |s.loaders[n].asked|
    requires c.config.rank in s.loaders[n].snap.ranks
    ensures NameReads(c, s, t, n) && NameMoves(s, t, n)
  {
    hide NameRead;
    var l := s.loaders[n];
    t := match NameRead(c, s, l)
      case Err(error) => s.(loaders := s.loaders[n := Failed(l, error)], pins := s.pins - {LoaderActor(n)})
      case Ok(data) => s.(loaders := s.loaders[n := Fetching(l.snap, l.asked, l.k + 1, l.out[l.asked[l.k] := data])]);
  }

  lemma NameReadsNext(c: Setup, s: State, n: nat) returns (t: State)
    requires GoodSetup(c) && Inv(c, s) && Quiet(s) && n in s.loaders && s.loaders[n].Fetching?
             && s.loaders[n].k < |s.loaders[n].asked|
    ensures Reaches(c, s, t) && NameMoves(s, t, n)
  {
    hide Inv, GoodSetup, Reaches, NameReads, NameMoves;
    OwnRank(c, s, n);
    t := NameReadsIs(c, s, n);
    NameReadsReach(c, s, t, n);
  }

  lemma NameReadsReach(c: Setup, s: State, t: State, n: nat)
    requires NameReads(c, s, t, n)
    ensures Reaches(c, s, t)
  {
    hide Reaches, NameReads;
    ReachesNext(c, s, t, NameReadsStep(n));
  }

  lemma {:induction false} FetchingEnds(c: Setup, s: State, n: nat) returns (t: State)
    requires GoodSetup(c) && Inv(c, s) && n in s.loaders && s.loaders[n].Fetching?
             && s.loaders[n].k <= |s.loaders[n].asked|
    ensures Reaches(c, s, t) && Ended(s, t, n)
    decreases |s.loaders[n].asked| - s.loaders[n].k
  {
    hide Inv, GoodSetup, Reaches;
    LoaderRuns(c, s, n);
    if s.loaders[n].k == |s.loaders[n].asked| {
      t := NamesEndEnds(c, s, n);
    } else {
      var q := QuietAgain(c, s);
      var u := NameReadsNext(c, q, n);
      ReachesFurther(c, s, q, u);
      if Ended(q, u, n) {
        t := u;
        hide Ended, LockGone;
        AfterLock(s, q, t, n);
      } else {
        ReachesKeeps(c, q, u);
        t := FetchingEnds(c, u, n);
        ReachesFurther(c, s, u, t);
        AfterMoving(q, u, t, n);
        AfterLock(s, q, t, n);
      }
    }
  }

  lemma FetchingIsWithin(c: Setup, s: State, n: nat)
    requires Inv(c, s) && n in s.loaders && s.loaders[n].Fetching?
    ensures s.loaders[n].k <= |s.loaders[n].asked|
  {
    hide Inv, LoadersOk, RightSoFar;
    LoaderIs(c, s, n);
  }

  /** Any load under way can be brought to its end without one read failing. */
  lemma LoadEnds(c: Setup, s: State, n: nat) returns (t: State)
    requires GoodSetup(c) && Inv(c, s) && n in s.loaders && !Finished(s.loaders[n])
    ensures Reaches(c, s, t) && Ended(s, t, n)
  {
    hide Inv, GoodSetup, Reaches, Ended;
    match s.loaders[n]
    case Pinned(_) => t := PinnedEnds(c, s, n);
    case GotPack(_, _) => t := GotPackEnds(c, s, n);
    case GotBase(_, _, _) => t := FinishEnds(c, s, n);
    case Fetching(_, _, _, _) =>
      FetchingIsWithin(c, s, n);
      t := FetchingEnds(c, s, n);
  }

  // ── Every wait on readers ends ───────────────────────────────────

  function UnderWay(s: State): set<nat> {
    set n | n in s.loaders && !Finished(s.loaders[n])
  }

  /** No load is left under way, the lock is free, and sweeps stand where they stood. */
  ghost predicate Drained(s: State, t: State) {
    && UnderWay(t) == {} && t.mode == s.mode && t.mem.snapshots == s.mem.snapshots && t.history == s.history
    && (s.saver.Unlinking? ==> t.saver == s.saver) && (s.merger.MUnlinking? ==> t.merger == s.merger)
  }

  lemma DrainedFurther(s: State, t: State, u: State, n: nat)
    requires Ended(s, t, n) && Drained(t, u)
    ensures Drained(s, u)
  {
    hide UnderWay, Finished;
  }

  lemma DrainedQuiet(s: State, t: State)
    requires LockGone(s, t) && UnderWay(s) == {} && s.mode.Running?
    ensures Drained(s, t)
  {
    hide Finished;
  }

  lemma FewerUnderWay(s: State, t: State, n: nat)
    requires n in UnderWay(s) && Ended(s, t, n)
    ensures UnderWay(t) < UnderWay(s)
  {
    hide Finished;
    assert n !in UnderWay(t);
  }

  lemma {:induction false} AllLoadsEnd(c: Setup, s: State) returns (t: State)
    requires GoodSetup(c) && Inv(c, s) && s.mode.Running?
    ensures Reaches(c, s, t) && Inv(c, t) && Drained(s, t) && Quiet(t)
    decreases UnderWay(s)
  {
    hide Inv, GoodSetup, Reaches, Ended, Drained, LockGone;
    if n :| n in UnderWay(s) {
      var u := LoadEnds(c, s, n);
      ReachesKeeps(c, s, u);
      FewerUnderWay(s, u, n);
      EndedRuns(s, u, n);
      t := AllLoadsEnd(c, u);
      ReachesFurther(c, s, u, t);
      DrainedFurther(s, u, t, n);
    } else {
      t := QuietAgain(c, s);
      DrainedQuiet(s, t);
    }
  }

  lemma EndedRuns(s: State, t: State, n: nat)
    requires Ended(s, t, n)
    ensures t.mode == s.mode
  {
    hide Finished;
  }

  /** Once no load is under way only the saver pins, and nothing that is being swept. */
  lemma NothingSweptIsPinned(c: Setup, s: State)
    requires Inv(c, s) && Quiet(s) && UnderWay(s) == {}
    ensures SweepIds(s) !! PinnedIds(s.pins)
  {
    OnlySaverPins(c, s);
    SweptIsUnlisted(c, s);
    if SaverActor in s.pins {
      SaverPinsListed(c, s);
    }
    hide Inv, SweepIds, Ids;
  }

  lemma OnlySaverPins(c: Setup, s: State)
    requires Inv(c, s) && UnderWay(s) == {}
    ensures forall a :: a in s.pins ==> a == SaverActor
  {
    hide Records, DiskOk, IndexOk, Present, ListsOk, SaverOk, MergerOk, LockOk, ModeOk, SweepsOk, RetainedOk,
      RightSoFar, ResultOk;
    forall n | n in s.loaders
      ensures LoaderActor(n) !in s.pins
    {
      assert LoaderOk(c, s.history, s.pins, n, s.loaders[n]) && n !in UnderWay(s);
    }
  }

  lemma SweptIsUnlisted(c: Setup, s: State)
    requires Inv(c, s)
    ensures SweepIds(s) !! Ids(s.mem.snapshots)
  {
    hide Records, DiskOk, IndexOk, Present, ListsOk, SaverOk, MergerOk, LoadersOk, LockOk, ModeOk, RetainedOk,
      SweepIds, Ids,
      PinnedIds;
  }

  lemma SaverPinsListed(c: Setup, s: State)
    requires Inv(c, s) && Quiet(s) && SaverActor in s.pins
    ensures s.pins[SaverActor] <= Ids(s.mem.snapshots)
  {
    hide Records, DiskOk, IndexOk, Present, ListsOk, MergerOk, LoadersOk, ModeOk, SweepsOk, RetainedOk, RecordOk;
  }

  lemma SweptByMerger(c: Setup, s: State) returns (t: State)
    requires Inv(c, s) && Quiet(s) && UnderWay(s) == {} && s.merger.MUnlinking? && s.merger.sweep.Waiting?
    ensures t.merger == MUnlinking(Deleting(s.merger.sweep.ids)) && Reaches(c, s, t)
  {
    NothingSweptIsPinned(c, s);
    hide Inv, Reaches, PinnedIds, UnderWay;
    var next := Some(Deleting(s.merger.sweep.ids));
    t := s.(merger := MUnlinking(next.value));
    assert MergerSweeps(s, t, next);
    hide MergerSweeps;
    ReachesNext(c, s, t, MergerSweepsStep(next));
  }

  lemma SweptBySaver(c: Setup, s: State) returns (t: State)
    requires Inv(c, s) && Quiet(s) && UnderWay(s) == {} && s.saver.Unlinking? && s.saver.sweep.Waiting?
    ensures t.saver == Unlinking(Deleting(s.saver.sweep.ids)) && Reaches(c, s, t)
  {
    NothingSweptIsPinned(c, s);
    hide Inv, Reaches, PinnedIds, UnderWay;
    var next := Some(Deleting(s.saver.sweep.ids));
    t := s.(saver := Unlinking(next.value));
    assert SaverSweeps(s, t, next);
    hide SaverSweeps;
    ReachesNext(c, s, t, SaverSweepsStep(next));
  }

  lemma MergerWaitEnds(c: Setup, s: State) returns (t: State)
    requires GoodSetup(c) && Inv(c, s) && s.mode.Running? && s.merger.MUnlinking? && s.merger.sweep.Waiting?
    ensures t.merger == MUnlinking(Deleting(s.merger.sweep.ids)) && Reaches(c, s, t)
  {
    hide Inv, GoodSetup, Reaches, UnderWay;
    var q := AllLoadsEnd(c, s);
    t := SweptByMerger(c, q);
    ReachesFurther(c, s, q, t);
  }

  lemma SaverWaitEnds(c: Setup, s: State) returns (t: State)
    requires GoodSetup(c) && Inv(c, s) && s.mode.Running? && s.saver.Unlinking? && s.saver.sweep.Waiting?
    ensures t.saver == Unlinking(Deleting(s.saver.sweep.ids)) && Reaches(c, s, t)
  {
    hide Inv, GoodSetup, Reaches, UnderWay;
    var q := AllLoadsEnd(c, s);
    t := SweptBySaver(c, q);
    ReachesFurther(c, s, q, t);
  }

  lemma SweeperRuns(c: Setup, s: State)
    requires Inv(c, s) && (s.merger.MUnlinking? || s.saver.Unlinking?)
    ensures s.mode.Running?
  {
    hide Records, DiskOk, IndexOk, Present, ListsOk, SaverOk, MergerOk, LoadersOk, SweepsOk, RetainedOk, LockOk;
  }

  // ── A save goes through ──────────────────────────────────────────

  /**
   The base a save of `job` would take is the one it names, and its tensors can be processed into a
   pack that fits.
   */
  ghost predicate CanSave(c: Setup, s: State, job: SaveJob, ps: seq<Processed>) {
    && s.saver.Idle? && DistinctTensors(job.tensors) && job.ctx.id !in s.history
    && var base := ChosenBase(s, job.ctx.step);
       && job.ctx.base == (if base.Some? then Some(base.value.id) else None)
       && var o := Opened(c, s.algo);
          var cache := CacheFor(base, c.config.rank, s.retained);
          && ProcessedAll(c.env, s.files, o.config.tensors, cache, job.tensors) == Ok(ps)
          && |PackFor(o, ps, job.ctx).pack| < PackFile.U64_LIMIT
  }

  function PackFor(c: Setup, ps: seq<Processed>, ctx: Context): Written {
    Laid(c.env, ps, ctx, c.config.tensors.compression, c.config.rank, c.config.worldSize)
  }

  /** What the save lists. */
  function SavedAs(c: Setup, s: State, ps: seq<Processed>, ctx: Context): Snapshot {
    SavedSnapshot(Opened(c, s.algo), ctx, PackFor(Opened(c, s.algo), ps, ctx).entry)
  }

  lemma SaveBeginsNext(c: Setup, s: State, job: SaveJob, ps: seq<Processed>) returns (t: State)
    requires Quiet(s) && CanSave(c, s, job, ps)
    ensures Reaches(c, s, t)
    ensures
      var base := ChosenBase(s, job.ctx.step);
      t == s.(saver := Diffing(job, base),
              pins := if base.Some? then s.pins[SaverActor := {base.value.id}] else s.pins)
  {
    hide Reaches, ProcessedAll, CacheFor, ShouldForceFull, LastFull, PackFor;
    var base := ChosenBase(s, job.ctx.step);
    t := s.(saver := Diffing(job, base), pins := if base.Some? then s.pins[SaverActor := {base.value.id}] else s.pins);
    assert SaveBegins(c, s, t, job);
    hide SaveBegins;
    ReachesNext(c, s, t, SaveBeginsStep(job));
  }

  lemma SaveReadsNext(c: Setup, s: State, job: SaveJob, base: Option<Snapshot>, ps: seq<Processed>) returns (t: State)
    requires s.mode == Running && s.saver == Diffing(job, base) && job.ctx.id !in s.history
    requires
      var o := Opened(c, s.algo);
      && ProcessedAll(c.env, s.files, o.config.tensors, CacheFor(base, c.config.rank, s.retained), job.tensors)
         == Ok(ps)
      && |PackFor(o, ps, job.ctx).pack| < PackFile.U64_LIMIT
    ensures Reaches(c, s, t) && t.saver.Packing? && t.saver.record.snapshot == SavedAs(c, s, ps, job.ctx)
    ensures t == s.(saver := t.saver, history := s.history[job.ctx.id := t.saver.record], retained := t.retained)
  {
    hide Reaches, ProcessedAll, CacheFor, Laid, ContentsOf, RetainedAfter, SavedSnapshot;
    var o := Opened(c, s.algo);
    var w := PackFor(o, ps, job.ctx);
    var record :=
        Record(SavedSnapshot(o, job.ctx, w.entry), w.pack, ContentsOf(c.env, o.config.tensors.policy, job.tensors));
    t := s.(saver := Packing(record, base), history := s.history[job.ctx.id := record],
            retained := RetainedAfter(o.config, s.retained, job.ctx, job.tensors, ps));
    assert SaveReads(o, s, t);
    hide SaveReads;
    ReachesNext(c, s, t, SaveReadsStep);
  }

  lemma SavePutsNext(c: Setup, s: State) returns (t: State)
    requires s.mode == Running && s.saver.Packing?
    ensures Reaches(c, s, t) && t.saver.Packed? && t.saver.record == s.saver.record
    ensures t == s.(saver := t.saver, files := t.files)
  {
    hide Reaches, Padded;
    var r := s.saver.record;
    t := s.(files := s.files[Path.Pack(r.snapshot.id, c.config.rank) := Padded(r.pack, c.page)],
            saver := Packed(r, s.saver.base));
    assert SavePuts(c, s, t);
    hide SavePuts;
    ReachesNext(c, s, t, SavePutsStep);
  }

  lemma SavePublishesNext(c: Setup, s: State) returns (t: State)
    requires Quiet(s) && s.saver.Packed?
    ensures Reaches(c, s, t) && t.saver.Publishing?
    ensures t == s.(saver := t.saver, mem := t.mem, lock := t.lock)
    ensures t.mem.snapshots == RetainedOf(s.mem.(snapshots := s.mem.snapshots + [s.saver.record.snapshot]))
    ensures t.mem == s.mem.(snapshots := t.mem.snapshots)
  {
    hide Reaches, RetainedOf, Ids, Unwritten;
    var pushed := s.mem.(snapshots := s.mem.snapshots + [s.saver.record.snapshot]);
    var left := RetainedOf(pushed);
    t := Locked(s.(saver := Publishing(Ids(pushed.snapshots) - Ids(left))), SaverActor, left, None);
    assert SavePublishes(s, t);
    hide SavePublishes;
    ReachesNext(c, s, t, SavePublishesStep);
  }

  lemma SaverRestsNext(c: Setup, s: State) returns (t: State)
    requires s.mode == Running && s.saver.Unlinking? && s.saver.sweep.Waiting?
    ensures Reaches(c, s, t) && t == s.(saver := Idle)
  {
    hide Reaches, PinnedIds;
    t := s.(saver := Idle);
    assert SaverSweeps(s, t, None);
    hide SaverSweeps;
    ReachesNext(c, s, t, SaverSweepsStep(None));
  }

  /** A save that was made: listed, retention applied, everything else as it was. */
  ghost predicate SaveMade(c: Setup, s: State, t: State, job: SaveJob, ps: seq<Processed>) {
    && Quiet(t) && t.saver.Idle?
    && t.mem.snapshots == RetainedOf(s.mem.(snapshots := s.mem.snapshots + [SavedAs(c, s, ps, job.ctx)]))
    && t.mem.retention == s.mem.retention && t.mem.lineage == s.mem.lineage
    && t.history.Keys == s.history.Keys + {job.ctx.id}
    && t.merger == s.merger && t.claim == s.claim && t.loaders == s.loaders && t.algo == s.algo
    && t.pins == s.pins - {SaverActor}
  }

  /** Nothing stands in the way of a save whose tensors can be processed, whatever else is under way. */
  lemma SaveGoesThrough(c: Setup, s: State, job: SaveJob, ps: seq<Processed>) returns (t: State)
    requires GoodSetup(c) && Inv(c, s) && Quiet(s) && CanSave(c, s, job, ps)
    ensures Reaches(c, s, t) && Inv(c, t) && SaveMade(c, s, t, job, ps)
  {
    hide Inv, GoodSetup, Reaches, ProcessedAll, CacheFor, ChosenBase, PackFor, SavedAs, RetainedOf;
    NobodyPublishes(c, s);
    var begun := SaveBeginsNext(c, s, job, ps);
    var read := SaveReadsNext(c, begun, job, ChosenBase(s, job.ctx.step), ps);
    ReachesFurther(c, s, begun, read);
    var put := SavePutsNext(c, read);
    ReachesFurther(c, s, read, put);
    var published := SavePublishesNext(c, put);
    ReachesFurther(c, s, put, published);
    ReachesKeeps(c, s, published);
    var quiet := QuietAgain(c, published);
    ReachesFurther(c, s, published, quiet);
    t := SaverRestsNext(c, quiet);
    ReachesFurther(c, s, quiet, t);
    ReachesKeeps(c, s, t);
    SameSaved(c, s, begun, ps, job.ctx);
  }

  lemma SameSaved(c: Setup, s: State, t: State, ps: seq<Processed>, ctx: Context)
    requires t.algo == s.algo
    ensures SavedAs(c, t, ps, ctx) == SavedAs(c, s, ps, ctx)
  {
    hide PackFor, SavedSnapshot;
  }

  // ── Of every run ─────────────────────────────────────────────────

  /** Whenever the lock is held a file of its persist can be put, and so on until it is free again. */
  lemma TheLockIsNeverStuck(c: Setup, states: seq<State>, steps: seq<Step>, i: nat)
    requires GoodSetup(c) && Run(c, states, steps) && i < |states| && states[i].lock.Taken?
    ensures exists t, step :: Next(c, states[i], t, step) && (step.PutRanksStep? || step.PutIndexStep?)
    ensures exists t :: Reaches(c, states[i], t) && LockGone(states[i], t)
  {
    hide Run, Inv, GoodSetup, Next, Reaches, LockGone;
    RunKeeps(c, states, steps, i);
    var t, step := HolderGoesOn(c, states[i]);
    var free := LockIsGivenBack(c, states[i]);
  }

  /**
   From any state of any run a load under way can be brought to its end, its pins let go, without a
   read or a write failing, whatever the saver and the merger have in hand.
   */
  lemma EveryLoadCanEnd(c: Setup, states: seq<State>, steps: seq<Step>, i: nat, n: nat)
    requires GoodSetup(c) && Run(c, states, steps) && i < |states|
    requires n in states[i].loaders && !Finished(states[i].loaders[n])
    ensures exists t :: Reaches(c, states[i], t) && Ended(states[i], t, n)
  {
    hide Run, Inv, GoodSetup, Reaches, Ended;
    RunKeeps(c, states, steps, i);
    var t := LoadEnds(c, states[i], n);
  }

  /** So nobody who waits for readers before deleting waits for ever: what is waited for can be had. */
  lemma NoWaitIsForEver(c: Setup, states: seq<State>, steps: seq<Step>, i: nat)
    requires GoodSetup(c) && Run(c, states, steps) && i < |states|
    ensures
      var s := states[i];
      && (s.merger.MUnlinking? && s.merger.sweep.Waiting? ==>
            exists t :: Reaches(c, s, t) && t.merger == MUnlinking(Deleting(s.merger.sweep.ids)))
      && (s.saver.Unlinking? && s.saver.sweep.Waiting? ==>
            exists t :: Reaches(c, s, t) && t.saver == Unlinking(Deleting(s.saver.sweep.ids)))
  {
    hide Run, Inv, GoodSetup, Reaches;
    var s := states[i];
    RunKeeps(c, states, steps, i);
    if s.merger.MUnlinking? && s.merger.sweep.Waiting? {
      SweeperRuns(c, s);
      var t := MergerWaitEnds(c, s);
    }
    if s.saver.Unlinking? && s.saver.sweep.Waiting? {
      SweeperRuns(c, s);
      var t := SaverWaitEnds(c, s);
    }
  }

  lemma AllowedBase(c: Setup, s: State, job: SaveJob, ps: seq<Processed>)
    requires CanSave(c, s, job, ps)
    ensures job.ctx.base.Some? <==>
            exists full :: MayBuildOn(s.mem.snapshots, s.mem.retention, s.claim, job.ctx.step, full)
  {
    var base := ChosenBase(s, job.ctx.step);
    assert job.ctx.base.Some? <==> base.Some?;
    hide CanSave, ChosenBase, MayBuildOn;
    if base.Some? {
      ChosenExactly(s, job.ctx.step, base.value);
    }
    forall full | MayBuildOn(s.mem.snapshots, s.mem.retention, s.claim, job.ctx.step, full)
      ensures base.Some?
    {
      ChosenExactly(s, job.ctx.step, full);
    }
  }

  /**
   From any state of any run in which the lock is free and the saver idle, a save whose tensors can
   be processed can be made, as a delta exactly when the list allows one: its snapshot is pushed, retention applied,
     and the lock given back.
   */
  lemma EverySaveCanBeMade(c: Setup, states: seq<State>, steps: seq<Step>, i: nat, job: SaveJob, ps: seq<Processed>)
    requires GoodSetup(c) && Run(c, states, steps) && i < |states|
    requires Quiet(states[i]) && CanSave(c, states[i], job, ps)
    ensures exists t :: Reaches(c, states[i], t) && SaveMade(c, states[i], t, job, ps)
    ensures
      var s := states[i];
      job.ctx.base.Some? <==> exists full :: MayBuildOn(s.mem.snapshots, c.retention, s.claim, job.ctx.step, full)
  {
    hide Run, Inv, GoodSetup, Reaches, CanSave, SaveMade, MayBuildOn, PolicyIs;
    RunKeepsPolicy(c, states, steps, i);
    PolicyOf(states[i], c.retention);
    AllowedBase(c, states[i], job, ps);
    RunKeeps(c, states, steps, i);
    var t := SaveGoesThrough(c, states[i], job, ps);
  }
}
