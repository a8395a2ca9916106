/**
 The background saver's one slot, shared by any number of submitters and flushers and one worker.
 What happens under the lock is one step, and what happens between two locks is another.
 */
module Saver {
  import opened Bytes

  type Job = nat

  /** What the mutex guards. */
  datatype Slot = Slot(busy: bool, error: Option<string>)

  /** What the calls and the worker did under the lock, in the order they held it. */
  datatype Event =
    | Begun(job: Job)
    | Refused(why: string)
    | Flushed(outcome: Option<string>)
    | Ended(job: Job, outcome: Option<string>)
    | Unsent(job: Job)

  /** The failure of an earlier save that a call hands to its caller. */
  function Reports(e: Event): Option<string> {
    match e
    case Refused(why) => Some(why)
    case Flushed(outcome) => outcome
    case _ => None
  }

  // ── Critical sections ────────────────────────────────────────────

  class Shared {
    var busy: bool
    var error: Option<string>
    /** What has been done under the lock so far. */
    ghost var log: seq<Event>

    function View(): Slot
      reads this
    {
      Slot(busy, error)
    }

    /** The two fields say what the log does: a job is in hand, or the failure that ended the last one is still owed. */
    ghost predicate Valid()
      reads this
    {
      && Legal(log)
      && (busy <==> InHand(log).Some?)
      && error == Owed(log)
    }

    constructor ()
      ensures Valid() && log == [] && View() == Slot(false, None)
    {
      busy, error, log := false, None, [];
    }

    /**
     What `submit` does once its wait is over: the failure of the save that just ended is handed over,
     or the job begins.
     */
    method Claim(job: Job) returns (refusal: Option<string>)
      requires Valid() && !busy
      modifies this
      ensures Valid() && refusal == Owed(old(log))
      ensures log == old(log) + [if refusal.Some? then Refused(refusal.value) else Begun(job)]
      ensures (View(), refusal) == Claimed(old(View()))
    {
      refusal := error;
      error := None;
      if refusal.None? {
        busy := true;
      }
      OwedIsReached(log);
      LegalAppend(log, if refusal.Some? then Refused(refusal.value) else Begun(job));
      log := log + [if refusal.Some? then Refused(refusal.value) else Begun(job)];
    }

    /** What `flush` does once its wait is over: nothing is in hand, and what was owed is owed no more. */
    method TakeError() returns (outcome: Option<string>)
      requires Valid() && !busy
      modifies this
      ensures Valid() && InHand(old(log)).None? && outcome == Owed(old(log))
      ensures log == old(log) + [Flushed(outcome)] && Owed(log).None?
      ensures (View(), outcome) == ErrorTaken(old(View()))
    {
      outcome := error;
      error := None;
      OwedIsReached(log);
      LegalAppend(log, Flushed(outcome));
      log := log + [Flushed(outcome)];
    }

    /** What the worker does after a save: from here on exactly this outcome is owed to the next call. */
    method Report(job: Job, outcome: Option<string>)
      requires Valid() && InHand(log) == Some(job)
      modifies this
      ensures Valid() && log == old(log) + [Ended(job, outcome)] && Owed(log) == outcome && InHand(log).None?
      ensures View() == Reported(old(View()), outcome)
    {
      busy := false;
      match outcome {
        case None =>
        case Some(_) => error := outcome;
      }
      OwedIsReached(log);
      LegalAppend(log, Ended(job, outcome));
      log := log + [Ended(job, outcome)];
    }

    /**
     What `submit` does when the worker's end of the channel is gone: the job is no longer in hand, and
     nothing is owed for it.
     */
    method GiveBack(job: Job)
      requires Valid() && InHand(log) == Some(job)
      modifies this
      ensures Valid() && log == old(log) + [Unsent(job)] && Owed(log).None? && InHand(log).None?
      ensures View() == GivenBack(old(View()))
    {
      busy := false;
      OwedIsReached(log);
      LegalAppend(log, Unsent(job));
      log := log + [Unsent(job)];
    }
  }

  function Claimed(slot: Slot): (Slot, Option<string>) {
    (Slot(slot.busy || slot.error.None?, None), slot.error)
  }

  function ErrorTaken(slot: Slot): (Slot, Option<string>) {
    (slot.(error := None), slot.error)
  }

  function Reported(slot: Slot, outcome: Option<string>): Slot {
    Slot(false, if outcome.Some? then outcome else slot.error)
  }

  function GivenBack(slot: Slot): Slot {
    slot.(busy := false)
  }

  // ── Every interleaving ───────────────────────────────────────────

  datatype State = State(
    slot: Slot,
    /** Jobs whose submitter has taken the slot and not yet sent them. */
    handing: seq<Job>,
    queue: seq<Job>,
    working: Option<Job>,
    log: seq<Event>
  )

  datatype Step =
    | SubmitStep(job: Job)
    | SendStep(at: nat)
    | SendFailsStep(at: nat)
    | ReceiveStep
    | ReportStep(outcome: Option<string>)
    | FlushStep

  function Without(jobs: seq<Job>, at: nat): seq<Job>
    requires at < |jobs|
  {
    jobs[..at] + jobs[at + 1..]
  }

  predicate Init(s: State) {
    s == State(Slot(false, None), [], [], None, [])
  }

  predicate Enabled(s: State, step: Step) {
    match step
    case SubmitStep(_) => !s.slot.busy
    case SendStep(at) => at < |s.handing|
    case SendFailsStep(at) => at < |s.handing|
    case ReceiveStep => s.working.None? && s.queue != []
    case ReportStep(_) => s.working.Some?
    case FlushStep => !s.slot.busy
  }

  function Next(s: State, step: Step): State
    requires Enabled(s, step)
  {
    match step
    case SubmitStep(job) =>
      var (slot, refusal) := Claimed(s.slot);
      if refusal.Some? then s.(slot := slot, log := s.log + [Refused(refusal.value)])
      else s.(slot := slot, handing := s.handing + [job], log := s.log + [Begun(job)])
    case SendStep(at) => s.(handing := Without(s.handing, at), queue := s.queue + [s.handing[at]])
    case SendFailsStep(at) =>
      s.(slot := GivenBack(s.slot), handing := Without(s.handing, at), log := s.log + [Unsent(s.handing[at])])
    case ReceiveStep => s.(queue := s.queue[1..], working := Some(s.queue[0]))
    case ReportStep(outcome) =>
      s.(slot := Reported(s.slot, outcome), working := None, log := s.log + [Ended(s.working.value, outcome)])
    case FlushStep =>
      var (slot, outcome) := ErrorTaken(s.slot);
      s.(slot := slot, log := s.log + [Flushed(outcome)])
  }

  ghost predicate Run(states: seq<State>, steps: seq<Step>) {
    && |states| == |steps| + 1 && Init(states[0])
    && forall i :: 0 <= i < |steps| ==> Enabled(states[i], steps[i]) && states[i + 1] == Next(states[i], steps[i])
  }

  // ── The sequential slot it behaves as ────────────────────────────

  /** One job at most, and the failure of the last one while nobody has been told. */
  datatype Sequential = Sequential(job: Option<Job>, owed: Option<string>)

  predicate Allows(q: Sequential, e: Event) {
    match e
    case Begun(_) => q == Sequential(None, None)
    case Refused(why) => q == Sequential(None, Some(why))
    case Flushed(outcome) => q == Sequential(None, outcome)
    case Ended(job, _) => q == Sequential(Some(job), None)
    case Unsent(job) => q == Sequential(Some(job), None)
  }

  function After(e: Event): Sequential {
    match e
    case Begun(job) => Sequential(Some(job), None)
    case Ended(_, outcome) => Sequential(None, outcome)
    case _ => Sequential(None, None)
  }

  function Reached(log: seq<Event>): Sequential {
    if log == [] then Sequential(None, None) else After(log[|log| - 1])
  }

  predicate Legal(log: seq<Event>) {
    forall i :: 0 <= i < |log| ==> Allows(Reached(log[..i]), log[i])
  }

  /** The failure of the last save, while no call has been told of it. */
  function Owed(log: seq<Event>): Option<string> {
    if log != [] && log[|log| - 1].Ended? then log[|log| - 1].outcome else None
  }

  /** The save that was begun last, while it has neither ended nor been given back. */
  function InHand(log: seq<Event>): Option<Job> {
    if log != [] && log[|log| - 1].Begun? then Some(log[|log| - 1].job) else None
  }

  lemma OwedIsReached(log: seq<Event>)
    ensures Reached(log) == Sequential(InHand(log), Owed(log))
  {
  }

  /** The jobs a submitter, the channel or the worker has in hand. */
  function Outstanding(s: State): seq<Job> {
    s.handing + s.queue + if s.working.Some? then [s.working.value] else []
  }

  predicate Inv(s: State) {
    && OneInHand(s)
    && Legal(s.log)
    && Reached(s.log) == Sequential(if s.slot.busy then Some(Outstanding(s)[0]) else None, s.slot.error)
    && (s.slot.busy ==> s.slot.error.None?)
  }

  lemma LegalAppend(log: seq<Event>, e: Event)
    requires Legal(log) && Allows(Reached(log), e)
    ensures Legal(log + [e]) && Reached(log + [e]) == After(e)
  {
    var more := log + [e];
    forall i | 0 <= i < |more|
      ensures Allows(Reached(more[..i]), more[i])
    {
      assert more[..i] == log[..i];
      assert log[..|log|] == log;
    }
  }

  /** One job at most is in hand, and only while the slot is taken. */
  predicate OneInHand(s: State) {
    |Outstanding(s)| == (if s.slot.busy then 1 else 0)
  }

  lemma HandsKeepOne(s: State, step: Step)
    requires OneInHand(s) && Enabled(s, step)
    ensures OneInHand(Next(s, step))
    ensures step.SendStep? || step.ReceiveStep? ==> Outstanding(Next(s, step)) == Outstanding(s)
    ensures step.SubmitStep? && s.slot.error.None? ==> Outstanding(Next(s, step)) == [step.job]
    ensures step.SendFailsStep? ==> s.slot.busy && Outstanding(s) == [s.handing[step.at]]
    ensures step.ReportStep? ==> s.slot.busy && Outstanding(s) == [s.working.value]
  {
  }

  /** What a step that is logged says, and what it leaves of the slot. */
  lemma StepLogs(s: State, step: Step)
    requires Inv(s) && Enabled(s, step)
    requires Next(s, step).log != s.log
    ensures
      var t := Next(s, step);
      && t.log == s.log + [t.log[|s.log|]]
      && Allows(Reached(s.log), t.log[|s.log|])
      && After(t.log[|s.log|]) == Sequential(if t.slot.busy then Some(Outstanding(t)[0]) else None, t.slot.error)
      && (t.slot.busy ==> t.slot.error.None?)
  {
    HandsKeepOne(s, step);
    hide Outstanding, OneInHand, Legal, Reached;
  }

  lemma StepKeeps(s: State, step: Step)
    requires Inv(s) && Enabled(s, step)
    ensures Inv(Next(s, step))
  {
    HandsKeepOne(s, step);
    var t := Next(s, step);
    if t.log != s.log {
      StepLogs(s, step);
      LegalAppend(s.log, t.log[|s.log|]);
      hide Outstanding, Legal, Reached, Next, Allows, After;
    } else {
      hide Outstanding, Legal, Reached, Allows, After;
    }
  }

  lemma InitKeeps(s: State)
    requires Init(s)
    ensures Inv(s)
  {
  }

  /** In every interleaving the shared slot behaves as the sequential one, and holds one job at most. */
  lemma {:induction false} RunKeeps(states: seq<State>, steps: seq<Step>, i: nat)
    requires Run(states, steps) && i < |states|
    ensures Inv(states[i])
  {
    hide Inv, Next, Enabled;
    if i == 0 {
      InitKeeps(states[0]);
    } else {
      RunKeeps(states, steps, i - 1);
      StepKeeps(states[i - 1], steps[i - 1]);
    }
  }

  // ── What callers are told ────────────────────────────────────────

  /** One job at most is with a submitter, the channel or the worker; while one is, no error waits. */
  lemma OneJobAtATime(states: seq<State>, steps: seq<Step>, i: nat)
    requires Run(states, steps) && i < |states|
    ensures |Outstanding(states[i])| <= 1
    ensures states[i].slot.busy <==> Outstanding(states[i]) != []
    ensures states[i].slot.busy ==> states[i].slot.error.None?
  {
    RunKeeps(states, steps, i);
  }

  /** How many steps the job in hand is from its end. */
  function Rank(s: State): nat {
    3 * |s.handing| + 2 * |s.queue| + if s.working.Some? then 1 else 0
  }

  /** While the slot is taken there is a step to take, and every step there is brings the job nearer its end. */
  lemma BusyMovesOn(s: State)
    requires Inv(s) && s.slot.busy
    ensures Rank(s) <= 3
    ensures Enabled(s, SendStep(0)) || Enabled(s, ReceiveStep) || Enabled(s, ReportStep(None))
    ensures forall step :: Enabled(s, step) ==> Rank(Next(s, step)) < Rank(s)
  {
    hide Legal, Reached;
  }

  lemma FreeWhenDone(s: State)
    requires Inv(s) && Rank(s) == 0
    ensures !s.slot.busy
  {
    hide Legal, Reached;
  }

  lemma {:induction false} RankFalls(states: seq<State>, steps: seq<Step>, i: nat, j: nat)
    requires Run(states, steps) && i <= j < |states| && forall k :: i <= k <= j ==> states[k].slot.busy
    ensures Rank(states[j]) + (j - i) <= 3
    decreases j
  {
    hide Inv, Rank, Next, Enabled;
    RunKeeps(states, steps, j);
    if i < j {
      RankFalls(states, steps, i, j - 1);
      RunKeeps(states, steps, j - 1);
      BusyMovesOn(states[j - 1]);
    } else {
      BusyMovesOn(states[j]);
    }
  }

  /** So whoever waits for the slot has it within three steps, each of which somebody can take. */
  lemma SlotIsFreed(states: seq<State>, steps: seq<Step>, i: nat)
    requires Run(states, steps) && i < |states|
    ensures states[i].slot.busy ==> exists step :: Enabled(states[i], step)
    ensures i + 3 < |states| ==> exists j :: i <= j <= i + 3 && !states[j].slot.busy
  {
    hide Inv, Rank, Next, Enabled;
    RunKeeps(states, steps, i);
    if states[i].slot.busy {
      BusyMovesOn(states[i]);
    }
    if i + 3 < |states| && forall k :: i <= k <= i + 3 ==> states[k].slot.busy {
      RankFalls(states, steps, i, i + 3);
      RunKeeps(states, steps, i + 3);
      FreeWhenDone(states[i + 3]);
    }
  }

  lemma LogIsLegal(states: seq<State>, steps: seq<Step>, i: nat, j: nat)
    requires Run(states, steps) && i < |states| && j < |states[i].log|
    ensures
      var log := states[i].log;
      Allows(if j == 0 then Sequential(None, None) else After(log[j - 1]), log[j])
  {
    hide Run, Allows, After;
    RunKeeps(states, steps, i);
    var log := states[i].log;
    assert Allows(Reached(log[..j]), log[j]);
  }

  /**
   A save that failed is reported by exactly the next call to get the slot: whatever follows it
   in the log hands out its error, and no call hands out an error but that of the save it follows.
   */
  lemma EachFailureIsReportedOnce(states: seq<State>, steps: seq<Step>, i: nat, j: nat)
    requires Run(states, steps) && i < |states| && j < |states[i].log|
    ensures
      var log := states[i].log;
      forall why ::
        Reports(log[j]) == Some(why) <==> j > 0 && exists job :: log[j - 1] == Ended(job, Some(why))
  {
    LogIsLegal(states, steps, i, j);
    var log := states[i].log;
    forall why
      ensures Reports(log[j]) == Some(why) <==> j > 0 && exists job :: log[j - 1] == Ended(job, Some(why))
    {
      if Reports(log[j]) == Some(why) {
        assert log[j - 1] == Ended(log[j - 1].job, Some(why));
      }
    }
  }

  /** And a failure nobody has been told of yet is still there to be told. */
  lemma LastFailureIsKept(states: seq<State>, steps: seq<Step>, i: nat)
    requires Run(states, steps) && i < |states| && states[i].log != []
    ensures
      var last := states[i].log[|states[i].log| - 1];
      states[i].slot.error == if last.Ended? then last.outcome else None
  {
    RunKeeps(states, steps, i);
  }

  /** A flush that returned found every save taken before it ended or given back. */
  lemma FlushLeavesNothingBehind(states: seq<State>, steps: seq<Step>, i: nat, j: nat, k: nat)
    requires Run(states, steps) && i < |states| && k < j < |states[i].log|
    requires states[i].log[j].Flushed? && states[i].log[k].Begun?
    ensures
      var log := states[i].log;
      k + 1 < j && (log[k + 1] == Unsent(log[k].job) || exists outcome :: log[k + 1] == Ended(log[k].job, outcome))
  {
    LogIsLegal(states, steps, i, k + 1);
    var next := states[i].log[k + 1];
    assert next.Ended? ==> next == Ended(states[i].log[k].job, next.outcome);
  }

  /** Only a save that was taken, and not yet ended, is ever reported as ended. */
  lemma OnlyBegunSavesEnd(states: seq<State>, steps: seq<Step>, i: nat, j: nat)
    requires Run(states, steps) && i < |states| && j < |states[i].log|
    requires states[i].log[j].Ended? || states[i].log[j].Unsent?
    ensures j > 0 && states[i].log[j - 1] == Begun(states[i].log[j].job)
  {
    LogIsLegal(states, steps, i, j);
  }
}
