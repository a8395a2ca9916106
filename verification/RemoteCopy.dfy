/**
 The parallel copy from one store to another: workers share a counter over the list of files, a
 budget of bytes in memory, two tallies and the first failure. The source store may change
 meanwhile: retention and the merger delete on their own threads.
 */
module RemoteCopy {
  import opened Bytes

  type Store = map<string, Bytes>

  datatype Listed = Listed(name: string, size: Option<nat>)

  datatype Job = Job(files: seq<Listed>, transfers: nat, budget: nat)

  // ── The budget ───────────────────────────────────────────────────

  /** What is asked for: a size the listing did not give counts as everything there is. */
  function Asked(size: Option<nat>, limit: nat): nat {
    if size.Some? then Min(size.value, limit) else limit
  }

  predicate Fits(used: nat, bytes: nat, limit: nat) {
    used == 0 || used + bytes <= limit
  }

  function Total(takes: seq<nat>): nat {
    if takes == [] then 0 else Total(takes[..|takes| - 1]) + takes[|takes| - 1]
  }

  lemma {:induction false} TotalWithout(takes: seq<nat>, k: nat)
    requires k < |takes|
    ensures Total(takes) == Total(takes[..k] + takes[k + 1..]) + takes[k]
  {
    var n := |takes| - 1;
    if k == n {
      assert takes[..k] + takes[k + 1..] == takes[..n];
    } else {
      TotalWithout(takes[..n], k);
      var rest := takes[..k] + takes[k + 1..];
      assert rest[..|rest| - 1] == takes[..n][..k] + takes[..n][k + 1..];
    }
  }

  class Budget {
    const limit: nat
    var used: nat
    /** What has been taken and not dropped yet. */
    ghost var takes: seq<nat>

    /** The counter is the bytes in memory, and they fit. */
    ghost predicate Valid()
      reads this
    {
      used == Total(takes) && used <= limit
    }

    constructor (limit: nat)
      ensures Valid() && this.limit == limit && takes == []
    {
      this.limit := limit;
      used, takes := 0, [];
    }

    /** What follows the wait: the bytes granted, so that all that is held together never passes the limit. */
    method Take(size: Option<nat>) returns (held: nat)
      requires Valid() && Fits(used, Asked(size, limit), limit)
      modifies this`used, this`takes
      ensures Valid() && takes == old(takes) + [held] && held == Asked(size, limit)
      ensures Total(old(takes)) + held <= limit
    {
      held := match size case Some(n) => Min(n, limit) case None => limit;
      used := used + held;
      takes := takes + [held];
      assert takes[..|takes| - 1] == old(takes);
    }

    /** One take is given back, whichever it is; the others are held as before. */
    method Drop(held: nat, ghost k: nat)
      requires Valid() && k < |takes| && takes[k] == held
      modifies this`used, this`takes
      ensures Valid() && takes == old(takes)[..k] + old(takes)[k + 1..]
      ensures forall bytes: nat :: Fits(old(used), bytes, limit) ==> Fits(used, bytes, limit)
    {
      TotalWithout(takes, k);
      used := used - held;
      takes := takes[..k] + takes[k + 1..];
    }
  }

  // ── Every interleaving ───────────────────────────────────────────

  datatype Fate = Untaken | InHand(w: nat) | Copied | Gone | Failed(error: Error)

  datatype Worker =
    | Looking
    | Taking
    | Asking(i: nat)
    | Holding(i: nat, bytes: nat)
    | Fetched(i: nat, bytes: nat, data: Bytes)
    | Settled(i: nat, bytes: nat, fate: Fate)
    | Freeing(bytes: nat, stop: bool)
    | Stopped

  datatype State = State(
    from: Store,
    to: Store,
    next: nat,
    used: nat,
    synced: nat,
    vanished: nat,
    failure: Option<Error>,
    workers: seq<Worker>,
    /** What has become of each file of the list. */
    fates: seq<Fate>
  )

  datatype Step =
    | LookStep(w: nat)
    | TakeStep(w: nat)
    | AskStep(w: nat)
    | FetchStep(w: nat, error: Option<Error>)
    | WriteStep(w: nat, error: Option<Error>)
    | CountStep(w: nat)
    | FreeStep(w: nat)
    | SourceStep(now: Store)

  function Workers(job: Job): nat {
    if job.transfers < 1 || |job.files| <= 1 then 1 else Min(job.transfers, |job.files|)
  }

  predicate Init(job: Job, s: State) {
    && s.next == 0 && s.used == 0 && s.synced == 0 && s.vanished == 0 && s.failure == None
    && s.workers == seq(Workers(job), _ => Looking)
    && s.fates == seq(|job.files|, _ => Untaken)
  }

  predicate Enabled(job: Job, s: State, step: Step) {
    match step
    case LookStep(w) => w < |s.workers| && s.workers[w].Looking?
    case TakeStep(w) => w < |s.workers| && s.workers[w].Taking?
    case AskStep(w) =>
      && w < |s.workers| && s.workers[w].Asking? && s.workers[w].i < |job.files|
      && Fits(s.used, Asked(job.files[s.workers[w].i].size, job.budget), job.budget)
    case FetchStep(w, error) =>
      && w < |s.workers| && s.workers[w].Holding? && s.workers[w].i < |job.files|
      && error != Some(NotFound)
    case WriteStep(w, _) => w < |s.workers| && s.workers[w].Fetched? && s.workers[w].i < |job.files|
    case CountStep(w) => w < |s.workers| && s.workers[w].Settled? && s.workers[w].i < |s.fates|
    case FreeStep(w) => w < |s.workers| && s.workers[w].Freeing? && s.workers[w].bytes <= s.used
    case SourceStep(_) => true
  }

  function Goes(s: State, w: nat, to: Worker): State
    requires w < |s.workers|
  {
    s.(workers := s.workers[w := to])
  }

  function Next(job: Job, s: State, step: Step): State
    requires Enabled(job, s, step)
  {
    match step
    case LookStep(w) => Goes(s, w, if s.failure.Some? then Stopped else Taking)
    case TakeStep(w) => Take(job, s, w)
    case AskStep(w) =>
      var i := s.workers[w].i;
      var bytes := Asked(job.files[i].size, job.budget);
      Goes(s, w, Holding(i, bytes)).(used := s.used + bytes)
    case FetchStep(w, error) => Goes(s, w, Fetch(job, s, s.workers[w].i, s.workers[w].bytes, error))
    case WriteStep(w, error) =>
      var Fetched(i, bytes, data) := s.workers[w];
      if error.Some? then Goes(s, w, Settled(i, bytes, Failed(error.value)))
      else Goes(s, w, Settled(i, bytes, Copied)).(to := s.to[job.files[i].name := data])
    case CountStep(w) => Count(s, w)
    case FreeStep(w) =>
      Goes(s, w, if s.workers[w].stop then Stopped else Looking).(used := s.used - s.workers[w].bytes)
    case SourceStep(now) => s.(from := now)
  }

  /** The counter moves on whether or not there was a file left. */
  function Take(job: Job, s: State, w: nat): State
    requires w < |s.workers|
  {
    if s.next < |job.files| && s.next < |s.fates| then
      Goes(s, w, Asking(s.next)).(next := s.next + 1, fates := s.fates[s.next := InHand(w)])
    else
      Goes(s, w, Stopped).(next := s.next + 1)
  }

  /** A file gone since it was listed is no failure. */
  function Fetch(job: Job, s: State, i: nat, bytes: nat, error: Option<Error>): Worker
    requires i < |job.files|
  {
    if error.Some? then Settled(i, bytes, Failed(error.value))
    else if job.files[i].name in s.from then Fetched(i, bytes, s.from[job.files[i].name])
    else Settled(i, bytes, Gone)
  }

  function Count(s: State, w: nat): State
    requires w < |s.workers| && s.workers[w].Settled? && s.workers[w].i < |s.fates|
  {
    var Settled(i, bytes, fate) := s.workers[w];
    Goes(s, w, Freeing(bytes, fate.Failed?)).(
      fates := s.fates[i := fate],
      synced := s.synced + Copies(fate),
      vanished := s.vanished + Vanishes(fate),
      failure := if fate.Failed? && s.failure.None? then Some(fate.error) else s.failure)
  }

  ghost predicate Run(job: Job, states: seq<State>, steps: seq<Step>) {
    && |states| == |steps| + 1 && Init(job, states[0])
    && forall i :: 0 <= i < |steps| ==>
         Enabled(job, states[i], steps[i]) && states[i + 1] == Next(job, states[i], steps[i])
  }

  // ── Tallies ──────────────────────────────────────────────────────

  function HeldBy(w: Worker): nat {
    match w
    case Holding(_, bytes) => bytes
    case Fetched(_, bytes, _) => bytes
    case Settled(_, bytes, _) => bytes
    case Freeing(bytes, _) => bytes
    case _ => 0
  }

  function Copies(f: Fate): nat {
    if f.Copied? then 1 else 0
  }

  function Vanishes(f: Fate): nat {
    if f.Gone? then 1 else 0
  }

  function Tally<T>(s: seq<T>, f: T -> nat): nat {
    if s == [] then 0 else Tally(s[..|s| - 1], f) + f(s[|s| - 1])
  }

  lemma {:induction false} TallyMoves<T>(s: seq<T>, f: T -> nat, k: nat, x: T)
    requires k < |s|
    ensures Tally(s[k := x], f) + f(s[k]) == Tally(s, f) + f(x)
  {
    var n := |s| - 1;
    if k == n {
      assert s[k := x][..n] == s[..n];
    } else {
      assert s[k := x][..n] == s[..n][k := x];
      TallyMoves(s[..n], f, k, x);
    }
  }

  lemma {:induction false} TallyOfNone<T>(s: seq<T>, f: T -> nat)
    requires forall k :: 0 <= k < |s| ==> f(s[k]) == 0
    ensures Tally(s, f) == 0
  {
    if s != [] {
      TallyOfNone(s[..|s| - 1], f);
    }
  }

  lemma {:induction false} TallyBounds<T>(s: seq<T>, f: T -> nat, k: nat)
    requires k < |s|
    ensures f(s[k]) <= Tally(s, f)
  {
    if k < |s| - 1 {
      TallyBounds(s[..|s| - 1], f, k);
    }
  }

  lemma {:induction false} EachIsOneOrTheOther(fates: seq<Fate>)
    requires forall k :: 0 <= k < |fates| ==> fates[k].Copied? || fates[k].Gone?
    ensures Tally(fates, Copies) + Tally(fates, Vanishes) == |fates|
  {
    if fates != [] {
      EachIsOneOrTheOther(fates[..|fates| - 1]);
    }
  }

  // ── The invariant ────────────────────────────────────────────────

  function IndexOf(w: Worker): Option<nat> {
    match w
    case Asking(i) => Some(i)
    case Holding(i, _) => Some(i)
    case Fetched(i, _, _) => Some(i)
    case Settled(i, _, _) => Some(i)
    case _ => None
  }

  /** The bytes counted as used are those the workers hold. */
  predicate BudgetOk(job: Job, s: State) {
    s.used == Tally(s.workers, HeldBy) && s.used <= job.budget
  }

  /** A file is untaken, in the hands of one worker, or done with; and nobody has another in hand. */
  predicate FatesOk(job: Job, s: State) {
    && |s.fates| == |job.files| && |s.workers| > 0
    && (forall i :: 0 <= i < |s.fates| ==>
          && (s.fates[i].Untaken? <==> i >= s.next)
          && (s.fates[i].InHand? ==> s.fates[i].w < |s.workers| && IndexOf(s.workers[s.fates[i].w]) == Some(i)))
    && (forall w :: 0 <= w < |s.workers| && IndexOf(s.workers[w]).Some? ==>
          var i := IndexOf(s.workers[w]).value; i < |s.fates| && s.fates[i] == InHand(w))
    && (forall w :: 0 <= w < |s.workers| && s.workers[w].Settled? ==>
          var f := s.workers[w].fate; f.Copied? || f.Gone? || f.Failed?)
  }

  predicate CountsOk(s: State) {
    s.synced == Tally(s.fates, Copies) && s.vanished == Tally(s.fates, Vanishes)
  }

  /** The failure kept is some file's, there is one if any file failed, and nobody stops early without one. */
  predicate FailureOk(job: Job, s: State) {
    && (s.failure.Some? ==> exists i :: 0 <= i < |s.fates| && s.fates[i] == Failed(s.failure.value))
    && (s.failure.None? ==> forall i :: 0 <= i < |s.fates| ==> !s.fates[i].Failed?)
    && (forall w :: 0 <= w < |s.workers| && (s.workers[w].Stopped? || (s.workers[w].Freeing? && s.workers[w].stop)) ==>
          s.failure.Some? || s.next >= |job.files|)
  }

  predicate Inv(job: Job, s: State) {
    BudgetOk(job, s) && FatesOk(job, s) && CountsOk(s) && FailureOk(job, s)
  }

  lemma InitKeeps(job: Job, s: State)
    requires Init(job, s)
    ensures Inv(job, s)
  {
    TallyOfNone(s.workers, HeldBy);
    TallyOfNone(s.fates, Copies);
    TallyOfNone(s.fates, Vanishes);
  }

  lemma BudgetKeeps(job: Job, s: State, step: Step)
    requires BudgetOk(job, s) && Enabled(job, s, step)
    ensures BudgetOk(job, Next(job, s, step))
  {
    var t := Next(job, s, step);
    if !step.SourceStep? {
      TallyMoves(s.workers, HeldBy, step.w, t.workers[step.w]);
    }
    hide Tally;
  }

  lemma FatesKeep(job: Job, s: State, step: Step)
    requires FatesOk(job, s) && Enabled(job, s, step)
    ensures FatesOk(job, Next(job, s, step))
  {
    hide FatesOk;
    match step
    case TakeStep(w) => TakeKeepsFates(job, s, w);
    case CountStep(w) => CountKeepsFates(job, s, w);
    case AskStep(_) => SameIndexKeeps(job, s, step);
    case FetchStep(_, _) => SameIndexKeeps(job, s, step);
    case WriteStep(_, _) => SameIndexKeeps(job, s, step);
    case _ => NoIndexKeeps(job, s, step);
  }

  lemma TakeKeepsFates(job: Job, s: State, w: nat)
    requires FatesOk(job, s) && w < |s.workers| && s.workers[w].Taking?
    ensures FatesOk(job, Take(job, s, w))
  {
    var t := Take(job, s, w);
    assert forall v :: 0 <= v < |s.workers| && v != w ==> t.workers[v] == s.workers[v];
    assert forall i :: 0 <= i < |s.fates| && i != s.next ==> t.fates[i] == s.fates[i];
  }

  lemma CountKeepsFates(job: Job, s: State, w: nat)
    requires FatesOk(job, s) && w < |s.workers| && s.workers[w].Settled? && s.workers[w].i < |s.fates|
    ensures FatesOk(job, Count(s, w))
  {
    var t := Count(s, w);
    assert forall v :: 0 <= v < |s.workers| && v != w ==> t.workers[v] == s.workers[v];
    assert forall i :: 0 <= i < |s.fates| && i != s.workers[w].i ==> t.fates[i] == s.fates[i];
    assert IndexOf(s.workers[w]) == Some(s.workers[w].i);
  }

  lemma NoIndexKeeps(job: Job, s: State, step: Step)
    requires FatesOk(job, s) && Enabled(job, s, step)
    requires step.LookStep? || step.FreeStep? || step.SourceStep?
    ensures FatesOk(job, Next(job, s, step))
  {
    var t := Next(job, s, step);
    assert t.fates == s.fates && t.next == s.next;
    assert forall v :: 0 <= v < |s.workers| && t.workers[v] != s.workers[v] ==>
        IndexOf(t.workers[v]).None? && IndexOf(s.workers[v]).None?;
  }

  lemma SameIndexKeeps(job: Job, s: State, step: Step)
    requires FatesOk(job, s) && Enabled(job, s, step)
    requires step.AskStep? || step.FetchStep? || step.WriteStep?
    ensures FatesOk(job, Next(job, s, step))
  {
    hide Asked, Fits;
    var t := Next(job, s, step);
    assert IndexOf(t.workers[step.w]) == IndexOf(s.workers[step.w]);
    assert t.fates == s.fates && t.next == s.next;
    assert forall w :: 0 <= w < |s.workers| && w != step.w ==> t.workers[w] == s.workers[w];
  }

  lemma CountsKeep(job: Job, s: State, step: Step)
    requires FatesOk(job, s) && CountsOk(s) && Enabled(job, s, step)
    ensures CountsOk(Next(job, s, step))
  {
    var t := Next(job, s, step);
    if step.CountStep? || step.TakeStep? {
      var k := if step.CountStep? then s.workers[step.w].i else s.next;
      if k < |s.fates| {
        TallyMoves(s.fates, Copies, k, t.fates[k]);
        TallyMoves(s.fates, Vanishes, k, t.fates[k]);
      }
    }
    hide Tally;
  }

  lemma FailureKeeps(job: Job, s: State, step: Step)
    requires FatesOk(job, s) && FailureOk(job, s) && Enabled(job, s, step)
    ensures FailureOk(job, Next(job, s, step))
  {
    match step
    case TakeStep(w) => TakeKeepsFailure(job, s, w);
    case CountStep(w) => CountKeepsFailure(job, s, w);
    case _ => SameFailureKeeps(job, s, step);
  }

  lemma TakeKeepsFailure(job: Job, s: State, w: nat)
    requires FatesOk(job, s) && FailureOk(job, s) && w < |s.workers|
    ensures FailureOk(job, Take(job, s, w))
  {
    if s.failure.Some? {
      var i :| 0 <= i < |s.fates| && s.fates[i] == Failed(s.failure.value);
      assert Take(job, s, w).fates[i] == s.fates[i];
    }
  }

  lemma CountKeepsFailure(job: Job, s: State, w: nat)
    requires FatesOk(job, s) && FailureOk(job, s)
    requires w < |s.workers| && s.workers[w].Settled? && s.workers[w].i < |s.fates|
    ensures FailureOk(job, Count(s, w))
  {
    var t := Count(s, w);
    assert t.fates[s.workers[w].i] == s.workers[w].fate;
    if s.failure.Some? {
      var i :| 0 <= i < |s.fates| && s.fates[i] == Failed(s.failure.value);
      assert t.fates[i] == s.fates[i];
    }
  }

  lemma SameFailureKeeps(job: Job, s: State, step: Step)
    requires FailureOk(job, s) && Enabled(job, s, step) && !step.TakeStep? && !step.CountStep?
    ensures FailureOk(job, Next(job, s, step))
  {
    hide Asked, Fits;
    var t := Next(job, s, step);
    assert t.fates == s.fates && t.failure == s.failure && t.next == s.next;
    assert forall v :: 0 <= v < |s.workers| && t.workers[v] != s.workers[v] && t.workers[v].Stopped? ==>
        s.failure.Some? || (s.workers[v].Freeing? && s.workers[v].stop);
  }

  lemma StepKeeps(job: Job, s: State, step: Step)
    requires Inv(job, s) && Enabled(job, s, step)
    ensures Inv(job, Next(job, s, step))
  {
    hide BudgetOk, FatesOk, CountsOk, FailureOk, Enabled, Next;
    BudgetKeeps(job, s, step);
    FatesKeep(job, s, step);
    CountsKeep(job, s, step);
    FailureKeeps(job, s, step);
  }

  lemma {:induction false} RunKeeps(job: Job, states: seq<State>, steps: seq<Step>, i: nat)
    requires Run(job, states, steps) && i < |states|
    ensures Inv(job, states[i])
  {
    hide Inv, Enabled, Next, Init;
    if i == 0 {
      InitKeeps(job, states[0]);
    } else {
      RunKeeps(job, states, steps, i - 1);
      StepKeeps(job, states[i - 1], steps[i - 1]);
    }
  }

  // ── What holds of every run ──────────────────────────────────────

  /** The bytes in memory are what the workers hold, and never more than the budget. */
  lemma MemoryStaysWithinBudget(job: Job, states: seq<State>, steps: seq<Step>, i: nat)
    requires Run(job, states, steps) && i < |states|
    ensures Tally(states[i].workers, HeldBy) == states[i].used <= job.budget
  {
    RunKeeps(job, states, steps, i);
  }

  /** The bytes of a file a worker has in memory. */
  function DataOf(w: Worker): nat {
    match w
    case Fetched(_, _, data) => |data|
    case _ => 0
  }

  /**
   Whatever the source holds of the listed files is no larger than it was listed, and none is larger
   than `largest`.
   */
  predicate AsListed(job: Job, from: Store, largest: nat) {
    forall k :: 0 <= k < |job.files| && job.files[k].name in from ==>
      |from[job.files[k].name]| <= largest
      && (job.files[k].size.Some? ==> |from[job.files[k].name]| <= job.files[k].size.value)
  }

  /** What a worker holds it has asked for, unless it asked for everything there is. */
  predicate HasRoom(job: Job, largest: nat, w: Worker) {
    match w
    case Holding(i, bytes) => i < |job.files| && bytes == Asked(job.files[i].size, job.budget)
    case Fetched(_, bytes, data) => |data| <= largest && (|data| <= bytes || bytes == job.budget)
    case _ => true
  }

  predicate AllHaveRoom(job: Job, largest: nat, s: State) {
    forall w :: 0 <= w < |s.workers| ==> HasRoom(job, largest, s.workers[w])
  }

  lemma RoomKeeps(job: Job, largest: nat, s: State, step: Step)
    requires AllHaveRoom(job, largest, s) && AsListed(job, s.from, largest) && Enabled(job, s, step)
    ensures AllHaveRoom(job, largest, Next(job, s, step))
  {
    hide Fits;
    var t := Next(job, s, step);
    if !step.SourceStep? {
      assert forall v :: 0 <= v < |s.workers| && v != step.w ==> t.workers[v] == s.workers[v];
      assert HasRoom(job, largest, s.workers[step.w]);
    }
  }

  lemma {:induction false} RunHasRoom(job: Job, states: seq<State>, steps: seq<Step>, i: nat, largest: nat)
    requires Run(job, states, steps) && i < |states|
    requires forall j :: 0 <= j < i ==> AsListed(job, states[j].from, largest)
    ensures AllHaveRoom(job, largest, states[i])
  {
    hide AllHaveRoom, AsListed, Enabled, Next, Init;
    if i == 0 {
      InitHasRoom(job, states[0], largest);
    } else {
      RunHasRoom(job, states, steps, i - 1, largest);
      RoomKeeps(job, largest, states[i - 1], steps[i - 1]);
    }
  }

  lemma InitHasRoom(job: Job, s: State, largest: nat)
    requires Init(job, s)
    ensures AllHaveRoom(job, largest, s)
  {
  }

  lemma {:induction false} TallyOfLess<T>(s: seq<T>, f: T -> nat, g: T -> nat)
    requires forall k :: 0 <= k < |s| ==> f(s[k]) <= g(s[k])
    ensures Tally(s, f) <= Tally(s, g)
  {
    if s != [] {
      TallyOfLess(s[..|s| - 1], f, g);
    }
  }

  /** Who has taken everything there is holds the only file in memory. */
  lemma HoldsAlone(job: Job, largest: nat, s: State, w: nat)
    requires 0 < job.budget && AllHaveRoom(job, largest, s) && Tally(s.workers, HeldBy) <= job.budget
    requires w < |s.workers| && s.workers[w].Fetched? && s.workers[w].bytes == job.budget
    ensures Tally(s.workers, DataOf) <= largest
  {
    var others := s.workers[w := Stopped];
    TallyMoves(s.workers, HeldBy, w, Stopped);
    TallyMoves(s.workers, DataOf, w, Stopped);
    forall v | 0 <= v < |others|
      ensures DataOf(others[v]) == 0
    {
      TallyBounds(others, HeldBy, v);
      assert v != w ==> HasRoom(job, largest, s.workers[v]);
    }
    TallyOfNone(others, DataOf);
    assert HasRoom(job, largest, s.workers[w]);
  }

  /**
   As long as no listed file is larger than it was listed, the bytes in memory stay within the budget,
   but for a file larger than the whole of it, and that one goes alone.
   */
  lemma DataStaysWithinBudget(job: Job, states: seq<State>, steps: seq<Step>, i: nat, largest: nat)
    requires Run(job, states, steps) && i < |states| && 0 < job.budget
    requires forall j :: 0 <= j < i ==> AsListed(job, states[j].from, largest)
    ensures Tally(states[i].workers, DataOf) <= if largest < job.budget then job.budget else largest
  {
    hide Run, AsListed, Tally;
    RunHasRoom(job, states, steps, i, largest);
    MemoryStaysWithinBudget(job, states, steps, i);
    var s := states[i];
    if w: nat :| w < |s.workers| && s.workers[w].Fetched? && s.workers[w].bytes == job.budget {
      HoldsAlone(job, largest, s, w);
    } else {
      assert forall w :: 0 <= w < |s.workers| ==> HasRoom(job, largest, s.workers[w]);
      TallyOfLess(s.workers, DataOf, HeldBy);
    }
  }

  /** Until every worker has stopped, one of them has a step to take: the waits for the budget end. */
  lemma SomeWorkerCanGoOn(job: Job, states: seq<State>, steps: seq<Step>, i: nat)
    requires Run(job, states, steps) && i < |states|
    requires exists w :: 0 <= w < |states[i].workers| && !states[i].workers[w].Stopped?
    ensures exists step: Step :: !step.SourceStep? && Enabled(job, states[i], step)
  {
    hide Tally;
    var s := states[i];
    RunKeeps(job, states, steps, i);
    if w: nat :| 0 <= w < |s.workers| && !s.workers[w].Stopped? && !s.workers[w].Asking? {
      var step: Step := match s.workers[w]
        case Looking => LookStep(w)
        case Taking => TakeStep(w)
        case Holding(_, _) => FetchStep(w, None)
        case Fetched(_, _, _) => WriteStep(w, None)
        case Settled(_, _, _) => CountStep(w)
        case _ => FreeStep(w);
      TallyBounds(s.workers, HeldBy, w);
      assert Enabled(job, s, step);
    } else {
      TallyOfNone(s.workers, HeldBy);
      var w: nat :| 0 <= w < |s.workers| && !s.workers[w].Stopped?;
      assert Enabled(job, s, AskStep(w));
    }
  }

  /**
   Bounds the steps a worker still takes over what it has in hand; a file left on the list pays eight
   for the steps it will cost.
   */
  function WorkLeft(w: Worker): nat {
    match w
    case Looking => 2
    case Taking => 1
    case Asking(_) => 8
    case Holding(_, _) => 7
    case Fetched(_, _, _) => 6
    case Settled(_, _, _) => 5
    case Freeing(_, stop) => if stop then 1 else 3
    case Stopped => 0
  }

  function Rank(job: Job, s: State): nat {
    8 * (if s.next < |job.files| then |job.files| - s.next else 0) + Tally(s.workers, WorkLeft)
  }

  /** What a step does to the worker that takes it, and to the list. */
  lemma WorkerMoves(job: Job, s: State, step: Step)
    requires |s.fates| == |job.files| && Enabled(job, s, step) && !step.SourceStep?
    ensures step.w < |s.workers|
    ensures
      var t, w := Next(job, s, step), step.w;
      && |t.workers| == |s.workers| && t.workers == s.workers[w := t.workers[w]]
      && ((t.next == s.next && WorkLeft(t.workers[w]) < WorkLeft(s.workers[w]))
          || (s.next < |job.files| && t.next == s.next + 1 && WorkLeft(t.workers[w]) == WorkLeft(s.workers[w]) + 7)
          || (s.next >= |job.files| && t.next == s.next + 1 && WorkLeft(t.workers[w]) < WorkLeft(s.workers[w])))
  {
    hide Asked, Fits, Tally;
  }

  /** Every step a worker takes brings the copy nearer its end; the source's own changes do not move it. */
  lemma StepRanks(job: Job, s: State, step: Step)
    requires FatesOk(job, s) && Enabled(job, s, step)
    ensures if step.SourceStep? then Rank(job, Next(job, s, step)) == Rank(job, s)
            else Rank(job, Next(job, s, step)) < Rank(job, s)
  {
    if !step.SourceStep? {
      assert |s.fates| == |job.files|;
      WorkerMoves(job, s, step);
      var t := Next(job, s, step);
      hide Tally, FatesOk, Next, Enabled, WorkLeft;
      TallyMoves(s.workers, WorkLeft, step.w, t.workers[step.w]);
    }
  }

  /** The steps of the workers among the first `i`. */
  function WorkDone(steps: seq<Step>, i: nat): nat
    requires i <= |steps|
  {
    if i == 0 then 0 else WorkDone(steps, i - 1) + if steps[i - 1].SourceStep? then 0 else 1
  }

  function WorkAtMost(job: Job): nat {
    8 * |job.files| + 2 * Workers(job)
  }

  lemma {:induction false} TallyOfAll<T>(s: seq<T>, f: T -> nat, n: nat)
    requires forall k :: 0 <= k < |s| ==> f(s[k]) == n
    ensures Tally(s, f) == n * |s|
  {
    if s != [] {
      TallyOfAll(s[..|s| - 1], f, n);
    }
  }

  lemma {:induction false} RankFalls(job: Job, states: seq<State>, steps: seq<Step>, i: nat)
    requires Run(job, states, steps) && i < |states|
    ensures WorkDone(steps, i) + Rank(job, states[i]) <= WorkAtMost(job)
  {
    hide Inv, Enabled, Next, Rank, WorkAtMost;
    if i == 0 {
      InitRanks(job, states[0]);
    } else {
      RankFalls(job, states, steps, i - 1);
      RunKeeps(job, states, steps, i - 1);
      InvHasFates(job, states[i - 1]);
      StepRanks(job, states[i - 1], steps[i - 1]);
    }
  }

  lemma InitRanks(job: Job, s: State)
    requires Init(job, s)
    ensures Rank(job, s) <= WorkAtMost(job)
  {
    TallyOfAll(s.workers, WorkLeft, 2);
  }

  lemma InvHasFates(job: Job, s: State)
    requires Inv(job, s)
    ensures FatesOk(job, s)
  {
    hide FatesOk, BudgetOk, CountsOk, FailureOk;
  }

  /**
   The copy ends, whatever the source does meanwhile: the workers take so many steps and no more, and
   until they have all stopped one of them can take the next.
   */
  lemma EveryCopyEnds(job: Job, states: seq<State>, steps: seq<Step>, i: nat)
    requires Run(job, states, steps) && i < |states|
    ensures WorkDone(steps, i) <= WorkAtMost(job)
    ensures WorkDone(steps, i) == WorkAtMost(job) ==> forall w ::
              0 <= w < |states[i].workers| ==> states[i].workers[w].Stopped?
    ensures (exists w :: 0 <= w < |states[i].workers| && !states[i].workers[w].Stopped?) ==>
              exists step: Step :: !step.SourceStep? && Enabled(job, states[i], step)
  {
    hide Run, Inv, Enabled, Next, WorkAtMost, Tally;
    RankFalls(job, states, steps, i);
    RunIsLong(job, states, steps);
    if w: nat :| w < |states[i].workers| && !states[i].workers[w].Stopped? {
      SomeWorkerCanGoOn(job, states, steps, i);
      TallyBounds(states[i].workers, WorkLeft, w);
    }
  }

  lemma RunIsLong(job: Job, states: seq<State>, steps: seq<Step>)
    requires Run(job, states, steps)
    ensures |states| == |steps| + 1
  {
    hide Init, Enabled, Next;
  }

  /** No two workers ever have the same file in hand, and none has one that is done with. */
  lemma EachFileIsTakenOnce(job: Job, states: seq<State>, steps: seq<Step>, i: nat, v: nat, w: nat)
    requires Run(job, states, steps) && i < |states|
    requires v < |states[i].workers| && w < |states[i].workers|
    requires IndexOf(states[i].workers[v]).Some? && IndexOf(states[i].workers[v]) == IndexOf(states[i].workers[w])
    ensures v == w
    ensures IndexOf(states[i].workers[v]).value < |states[i].fates|
    ensures states[i].fates[IndexOf(states[i].workers[v]).value] == InHand(v)
  {
    RunKeeps(job, states, steps, i);
  }

  /** What is done with stays done with. */
  lemma {:induction false} FatesAreFinal(job: Job, states: seq<State>, steps: seq<Step>, i: nat, j: nat, k: nat)
    requires Run(job, states, steps) && i <= j < |states|
    requires k < |states[i].fates| && !states[i].fates[k].Untaken? && !states[i].fates[k].InHand?
    ensures k < |states[j].fates| && states[j].fates[k] == states[i].fates[k]
    decreases j
  {
    hide Inv, Fetch, Asked, Fits, Tally, Init;
    if i < j {
      FatesAreFinal(job, states, steps, i, j - 1, k);
      RunKeeps(job, states, steps, j - 1);
      StepLeavesFinal(job, states[j - 1], steps[j - 1], k);
    }
  }

  lemma StepLeavesFinal(job: Job, s: State, step: Step, k: nat)
    requires Inv(job, s) && Enabled(job, s, step)
    requires k < |s.fates| && !s.fates[k].Untaken? && !s.fates[k].InHand?
    ensures k < |Next(job, s, step).fates| && Next(job, s, step).fates[k] == s.fates[k]
  {
    hide Tally, Asked, Fits, BudgetOk, CountsOk, FailureOk;
  }

  /**
   Once every worker has stopped: with no failure, each file was copied or had gone, and the two
   tallies add up to the list; with one, it is the failure of some file.
   */
  lemma CopyAddsUp(job: Job, states: seq<State>, steps: seq<Step>, i: nat)
    requires Run(job, states, steps) && i < |states|
    requires forall w :: 0 <= w < |states[i].workers| ==> states[i].workers[w].Stopped?
    ensures
      var s := states[i];
      && |s.fates| == |job.files|
      && (s.failure.None? ==>
            && (forall k :: 0 <= k < |s.fates| ==> s.fates[k].Copied? || s.fates[k].Gone?)
            && s.synced + s.vanished == |job.files|)
      && (s.failure.Some? ==> exists k :: 0 <= k < |s.fates| && s.fates[k] == Failed(s.failure.value))
  {
    var s := states[i];
    RunKeeps(job, states, steps, i);
    if s.failure.None? {
      assert s.workers[0].Stopped?;
      EachIsOneOrTheOther(s.fates);
    }
  }

  // ── What is copied ───────────────────────────────────────────────

  /** The source held `data` under `name` at some time up to now. */
  ghost predicate Was(states: seq<State>, i: nat, name: string, data: Bytes)
    requires i < |states|
  {
    exists k :: 0 <= k <= i && Held(states[k].from, name, data)
  }

  predicate Held(store: Store, name: string, data: Bytes) {
    name in store && store[name] == data
  }

  ghost predicate Missed(states: seq<State>, i: nat, name: string)
    requires i < |states|
  {
    exists k :: 0 <= k <= i && name !in states[k].from
  }

  /** The destination holds under `name` what the source held at some time. */
  ghost predicate Matches(states: seq<State>, i: nat, name: string)
    requires i < |states|
  {
    name in states[i].to && Was(states, i, name, states[i].to[name])
  }

  ghost predicate Justified(states: seq<State>, i: nat, name: string, f: Fate)
    requires i < |states|
  {
    (f.Copied? ==> Matches(states, i, name)) && (f.Gone? ==> Missed(states, i, name))
  }

  ghost predicate WorkerRight(job: Job, states: seq<State>, i: nat, w: Worker)
    requires i < |states|
  {
    match w
    case Fetched(k, _, data) => k < |job.files| && Was(states, i, job.files[k].name, data)
    case Settled(k, _, fate) => k < |job.files| && Justified(states, i, job.files[k].name, fate)
    case _ => true
  }

  predicate Named(job: Job, name: string) {
    exists k :: 0 <= k < |job.files| && job.files[k].name == name
  }

  ghost predicate Untouched(states: seq<State>, i: nat, name: string)
    requires i < |states|
  {
    (name in states[i].to <==> name in states[0].to)
      && (name in states[i].to ==> states[i].to[name] == states[0].to[name])
  }

  ghost predicate CopiesRight(job: Job, states: seq<State>, i: nat)
    requires i < |states|
  {
    && (forall w :: 0 <= w < |states[i].workers| ==> WorkerRight(job, states, i, states[i].workers[w]))
    && (forall k :: 0 <= k < |states[i].fates| && k < |job.files| ==>
          Justified(states, i, job.files[k].name, states[i].fates[k]))
    && (forall name :: !Named(job, name) ==> Untouched(states, i, name))
  }

  lemma JustifiedStays(job: Job, states: seq<State>, steps: seq<Step>, i: nat, name: string, f: Fate)
    requires Run(job, states, steps) && i < |steps|
    requires Justified(states, i, name, f)
    requires CopiesRight(job, states, i)
    ensures Justified(states, i + 1, name, f)
  {
    hide Fetch, Count, Take, Fits, Asked;
    var s, t, step := states[i], states[i + 1], steps[i];
    assert t == Next(job, s, step);
    if step.WriteStep? && step.error.None? {
      assert WorkerRight(job, states, i, s.workers[step.w]);
    }
    assert name in s.to ==> name in t.to && (t.to[name] == s.to[name] || Was(states, i, name, t.to[name])) by {
      if step.CountStep? {
        CountKeepsStores(s, step.w);
      }
      if step.TakeStep? {
        TakeKeepsStores(job, s, step.w);
      }
    }
    hide Next, Enabled, Run;
    if f.Copied? {
      var k :| 0 <= k <= i && Held(states[k].from, name, t.to[name]);
      assert k <= i + 1;
    }
  }

  lemma CountKeepsStores(s: State, w: nat)
    requires w < |s.workers| && s.workers[w].Settled? && s.workers[w].i < |s.fates|
    ensures Count(s, w).to == s.to && Count(s, w).from == s.from
  {
  }

  lemma TakeKeepsStores(job: Job, s: State, w: nat)
    requires w < |s.workers|
    ensures Take(job, s, w).to == s.to && Take(job, s, w).from == s.from
  {
  }

  lemma WasStays(states: seq<State>, i: nat, name: string, data: Bytes)
    requires i + 1 < |states| && Was(states, i, name, data)
    ensures Was(states, i + 1, name, data)
  {
    hide Held;
  }

  lemma RightWorkerStays(job: Job, states: seq<State>, steps: seq<Step>, i: nat, w: Worker)
    requires Run(job, states, steps) && i < |steps| && CopiesRight(job, states, i)
    requires WorkerRight(job, states, i, w)
    ensures WorkerRight(job, states, i + 1, w)
  {
    assert i + 1 < |states|;
    hide Run, CopiesRight, Justified, Was;
    match w
    case Fetched(k, _, data) => WasStays(states, i, job.files[k].name, data);
    case Settled(k, _, fate) => JustifiedStays(job, states, steps, i, job.files[k].name, fate);
    case _ =>
  }

  /** A worker that fetches holds what the source has; one that has written leaves it at the destination. */
  lemma StepWorkerRight(job: Job, states: seq<State>, steps: seq<Step>, i: nat)
    requires Run(job, states, steps) && i < |steps| && CopiesRight(job, states, i)
    requires steps[i].FetchStep? || steps[i].WriteStep?
    ensures WorkerRight(job, states, i + 1, states[i + 1].workers[steps[i].w])
  {
    var s, t, step := states[i], states[i + 1], steps[i];
    assert t == Next(job, s, step);
    assert WorkerRight(job, states, i, s.workers[step.w]);
    hide Run;
    if step.FetchStep? {
      var name := job.files[s.workers[step.w].i].name;
      assert name in s.from ==> Held(s.from, name, s.from[name]);
    } else {
      WasStays(states, i, job.files[s.workers[step.w].i].name, s.workers[step.w].data);
    }
  }

  lemma WorkersStayRight(job: Job, states: seq<State>, steps: seq<Step>, i: nat, w: nat)
    requires Run(job, states, steps) && i < |steps| && CopiesRight(job, states, i) && w < |states[i + 1].workers|
    ensures WorkerRight(job, states, i + 1, states[i + 1].workers[w])
  {
    var s, t, step := states[i], states[i + 1], steps[i];
    assert t == Next(job, s, step);
    assert w < |s.workers| && WorkerRight(job, states, i, s.workers[w]);
    if !step.SourceStep? && step.w == w && (step.FetchStep? || step.WriteStep?) {
      StepWorkerRight(job, states, steps, i);
    } else if t.workers[w] == s.workers[w] {
      RightWorkerStays(job, states, steps, i, s.workers[w]);
    }
  }

  lemma FatesStayRight(job: Job, states: seq<State>, steps: seq<Step>, i: nat, k: nat)
    requires Run(job, states, steps) && i < |steps| && CopiesRight(job, states, i)
    requires k < |states[i + 1].fates| && k < |job.files|
    ensures Justified(states, i + 1, job.files[k].name, states[i + 1].fates[k])
  {
    var s, t, step := states[i], states[i + 1], steps[i];
    assert t == Next(job, s, step) && |t.fates| == |s.fates|;
    assert Justified(states, i, job.files[k].name, s.fates[k]);
    hide Run;
    if t.fates[k] == s.fates[k] {
      JustifiedStays(job, states, steps, i, job.files[k].name, s.fates[k]);
    } else if step.CountStep? {
      assert WorkerRight(job, states, i, s.workers[step.w]);
      JustifiedStays(job, states, steps, i, job.files[k].name, t.fates[k]);
    }
  }

  lemma OthersStayUntouched(job: Job, states: seq<State>, steps: seq<Step>, i: nat, name: string)
    requires Run(job, states, steps) && i < |steps| && Untouched(states, i, name) && !Named(job, name)
    ensures Untouched(states, i + 1, name)
  {
    var s, t, step := states[i], states[i + 1], steps[i];
    assert t == Next(job, s, step);
    hide Run;
    if step.WriteStep? {
      assert job.files[s.workers[step.w].i].name != name;
    }
  }

  lemma {:induction false} RunCopiesRight(job: Job, states: seq<State>, steps: seq<Step>, i: nat)
    requires Run(job, states, steps) && i < |states|
    ensures CopiesRight(job, states, i)
  {
    if i == 0 {
      hide Named;
    } else {
      RunCopiesRight(job, states, steps, i - 1);
      hide Run, CopiesRight, WorkerRight, Justified, Untouched, Named;
      forall w | 0 <= w < |states[i].workers|
        ensures WorkerRight(job, states, i, states[i].workers[w])
      {
        WorkersStayRight(job, states, steps, i - 1, w);
      }
      forall k | 0 <= k < |states[i].fates| && k < |job.files|
        ensures Justified(states, i, job.files[k].name, states[i].fates[k])
      {
        FatesStayRight(job, states, steps, i - 1, k);
      }
      forall name | !Named(job, name)
        ensures Untouched(states, i, name)
      {
        UntouchedSoFar(job, states, steps, i - 1, name);
        OthersStayUntouched(job, states, steps, i - 1, name);
      }
      CopiesRightIf(job, states, i);
    }
  }

  lemma UntouchedSoFar(job: Job, states: seq<State>, steps: seq<Step>, i: nat, name: string)
    requires i < |states| && CopiesRight(job, states, i) && !Named(job, name)
    ensures Untouched(states, i, name)
  {
  }

  lemma CopiesRightIf(job: Job, states: seq<State>, i: nat)
    requires i < |states|
    requires forall w :: 0 <= w < |states[i].workers| ==> WorkerRight(job, states, i, states[i].workers[w])
    requires forall k :: 0 <= k < |states[i].fates| && k < |job.files| ==>
               Justified(states, i, job.files[k].name, states[i].fates[k])
    requires forall name :: !Named(job, name) ==> Untouched(states, i, name)
    ensures CopiesRight(job, states, i)
  {
  }

  /**
   Whatever the source did meanwhile: a file counted as copied is at the destination, byte for byte
   as the source held it at some time of the run; one counted as vanished was missing from the
   source at some time; and what is not on the list is left alone.
   */
  lemma CopiesAreExact(job: Job, states: seq<State>, steps: seq<Step>, i: nat)
    requires Run(job, states, steps) && i < |states|
    ensures
      var s := states[i];
      && |s.fates| == |job.files|
      && (forall k :: 0 <= k < |s.fates| && s.fates[k].Copied? ==>
            job.files[k].name in s.to && Was(states, i, job.files[k].name, s.to[job.files[k].name]))
      && (forall k :: 0 <= k < |s.fates| && s.fates[k].Gone? ==> Missed(states, i, job.files[k].name))
      && (forall name :: !Named(job, name) ==> Untouched(states, i, name))
  {
    RunCopiesRight(job, states, steps, i);
    RunKeeps(job, states, steps, i);
    hide Run, Was, Missed, Named, Untouched, BudgetOk, CountsOk, FailureOk;
  }

  /** Nothing but deletions happens at the source. */
  ghost predicate OnlyLoses(states: seq<State>) {
    forall k :: 0 <= k < |states| ==>
      forall name :: name in states[k].from ==> Held(states[0].from, name, states[k].from[name])
  }

  /** Snapshots are never rewritten: when the source only loses files, what is copied is what was listed. */
  lemma CopiesAreTheListedFiles(job: Job, states: seq<State>, steps: seq<Step>, i: nat, k: nat)
    requires Run(job, states, steps) && OnlyLoses(states) && i < |states|
    requires k < |states[i].fates| && states[i].fates[k].Copied?
    ensures
      && k < |job.files| && job.files[k].name in states[i].to
      && Held(states[0].from, job.files[k].name, states[i].to[job.files[k].name])
  {
    CopiesAreExact(job, states, steps, i);
    hide Run;
    var name := job.files[k].name;
    assert Was(states, i, name, states[i].to[name]);
    var j :| 0 <= j <= i && Held(states[j].from, name, states[i].to[name]);
    assert name in states[j].from;
  }
}
