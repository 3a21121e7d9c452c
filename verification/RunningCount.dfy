/**
  The number of running threads (src/prepare.c, src/routine.c, classes/thread.c).  A
  thread counts itself in after it has signalled READY, and counts itself out before it
  exits, both inside a section of the global lock; the count is read under that lock.
  */
module RunningCount {
  type Tid = nat

  /** Where the started thread is. */
  datatype Routine =
    | Unborn | Booting
    | Preparing | Signalled | CountedIn       // holding the global lock in prepared_startup
    | Alive | Awaiting | Released
    | Ending | CountedOut                     // holding the global lock in prepared_shutdown
    | Gone

  /** Where the creator's calls are; `Dismissing` is join() after it has set EXIT. */
  datatype Calls = Idle | Starting | Started | Joining | Dismissing | Joined

  datatype Thread = Thread(routine: Routine, calls: Calls)

  /** The global lock: free, held by a routine in its critical section, or by any other caller. */
  datatype Holder = NoOne | Child(t: Tid) | Caller

  datatype State = State(threads: map<Tid, Thread>, count: int, holder: Holder)

  datatype Step =
    | Create(t: Tid) | Start(t: Tid) | StartReturns(t: Tid)
    | Join(t: Tid) | Dismiss(t: Tid) | JoinReturns(t: Tid)
    | EnterStartup(t: Tid) | SignalReady(t: Tid) | CountIn(t: Tid) | LeaveStartup(t: Tid)
    | RunEnds(t: Tid) | SeeExit(t: Tid)
    | EnterShutdown(t: Tid) | CountOut(t: Tid) | LeaveShutdown(t: Tid)
    | Lock | Unlock

  const INITIAL: State := State(map[], 0, NoOne)

  // ---------------------------------------------------------------- steps

  predicate InCritical(r: Routine) { r.Preparing? || r.Signalled? || r.CountedIn? || r.Ending? || r.CountedOut? }

  predicate IsReady(r: Routine) { !r.Unborn? && !r.Booting? && !r.Preparing? }

  /** It has seen EXIT. */
  predicate Dismissed(r: Routine) { r.Released? || r.Ending? || r.CountedOut? || r.Gone? }

  predicate At(s: State, t: Tid, r: Routine) { t in s.threads && s.threads[t].routine == r }

  predicate Called(s: State, t: Tid, c: Calls) { t in s.threads && s.threads[t].calls == c }

  predicate Enabled(s: State, step: Step) {
    match step
    case Create(t) => t !in s.threads
    case Start(t) => Called(s, t, Idle)
    case StartReturns(t) => Called(s, t, Starting) && IsReady(s.threads[t].routine)
    case Join(t) => Called(s, t, Started)
    case Dismiss(t) => Called(s, t, Joining) && At(s, t, Awaiting)
    case JoinReturns(t) => Called(s, t, Dismissing) && At(s, t, Gone)
    case EnterStartup(t) => At(s, t, Booting) && s.holder == NoOne
    case SignalReady(t) => At(s, t, Preparing)
    case CountIn(t) => At(s, t, Signalled)
    case LeaveStartup(t) => At(s, t, CountedIn)
    case RunEnds(t) => At(s, t, Alive)
    case SeeExit(t) => At(s, t, Awaiting) && Called(s, t, Dismissing)
    case EnterShutdown(t) => At(s, t, Released) && s.holder == NoOne
    case CountOut(t) => At(s, t, Ending)
    case LeaveShutdown(t) => At(s, t, CountedOut)
    case Lock => s.holder == NoOne
    case Unlock => s.holder == Caller
  }

  function MoveTo(s: State, t: Tid, r: Routine): State
    requires t in s.threads
  {
    s.(threads := s.threads[t := s.threads[t].(routine := r)])
  }

  function Call(s: State, t: Tid, c: Calls): State
    requires t in s.threads
  {
    s.(threads := s.threads[t := s.threads[t].(calls := c)])
  }

  function Apply(s: State, step: Step): State
    requires Enabled(s, step)
  {
    match step
    case Create(t) => s.(threads := s.threads[t := Thread(Unborn, Idle)])
    case Start(t) => s.(threads := s.threads[t := Thread(Booting, Starting)])
    case StartReturns(t) => Call(s, t, Started)
    case Join(t) => Call(s, t, Joining)
    case Dismiss(t) => Call(s, t, Dismissing)
    case JoinReturns(t) => Call(s, t, Joined)
    case EnterStartup(t) => MoveTo(s, t, Preparing).(holder := Child(t))
    case SignalReady(t) => MoveTo(s, t, Signalled)
    case CountIn(t) => MoveTo(s, t, CountedIn).(count := s.count + 1)
    case LeaveStartup(t) => MoveTo(s, t, Alive).(holder := NoOne)
    case RunEnds(t) => MoveTo(s, t, Awaiting)
    case SeeExit(t) => MoveTo(s, t, Released)
    case EnterShutdown(t) => MoveTo(s, t, Ending).(holder := Child(t))
    case CountOut(t) => MoveTo(s, t, CountedOut).(count := s.count - 1)
    case LeaveShutdown(t) => MoveTo(s, t, Gone).(holder := NoOne)
    case Lock => s.(holder := Caller)
    case Unlock => s.(holder := NoOne)
  }

  ghost predicate Run(states: seq<State>, steps: seq<Step>) {
    && |states| == |steps| + 1 && states[0] == INITIAL
    && forall i :: 0 <= i < |steps| ==> Enabled(states[i], steps[i]) && states[i + 1] == Apply(states[i], steps[i])
  }

  // ---------------------------------------------------------------- the invariant

  predicate IsCounted(r: Routine) { r.CountedIn? || r.Alive? || r.Awaiting? || r.Released? || r.Ending? }

  function Counted(s: State): set<Tid> { set t | t in s.threads && IsCounted(s.threads[t].routine) }

  /** The creator's calls and the routine keep step with each other. */
  predicate InStep(th: Thread) {
    match th.calls
    case Idle => th.routine == Unborn
    case Starting => !th.routine.Unborn? && !Dismissed(th.routine)
    case Started => IsReady(th.routine) && !Dismissed(th.routine)
    case Joining => IsReady(th.routine) && !Dismissed(th.routine)
    case Dismissing => th.routine == Awaiting || Dismissed(th.routine)
    case Joined => th.routine == Gone
  }

  predicate ThreadOk(s: State, t: Tid)
    requires t in s.threads
  {
    InStep(s.threads[t]) && (InCritical(s.threads[t].routine) <==> s.holder == Child(t))
  }

  predicate Inv(s: State) {
    && s.count == |Counted(s)|
    && (forall t :: t in s.threads ==> ThreadOk(s, t))
    && (s.holder.Child? ==> s.holder.t in s.threads)
  }

  lemma CountedMoves(s: State, s': State, t: Tid)
    requires t in s'.threads && s'.threads == s.threads[t := s'.threads[t]]
    ensures var before := t in s.threads && IsCounted(s.threads[t].routine);
            var after := IsCounted(s'.threads[t].routine);
            |Counted(s')| == |Counted(s)| + (if after then 1 else 0) - (if before then 1 else 0)
  {
    var before := t in s.threads && IsCounted(s.threads[t].routine);
    var after := IsCounted(s'.threads[t].routine);
    hide IsCounted;
    var rest := Counted(s) - {t};
    assert forall u :: u != t ==> (u in Counted(s') <==> u in Counted(s));
    assert t in Counted(s') <==> after;
    assert Counted(s') == if after then rest + {t} else rest;
    assert Counted(s) == if before then rest + {t} else rest;
  }

  lemma StepCounts(s: State, step: Step)
    requires Inv(s) && Enabled(s, step)
    ensures Apply(s, step).count == |Counted(Apply(s, step))|
  {
    if !step.Lock? && !step.Unlock? {
      if step.t in s.threads { assert ThreadOk(s, step.t); }
      CountedMoves(s, Apply(s, step), step.t);
    } else {
      assert Counted(Apply(s, step)) == Counted(s);
    }
  }

  lemma StepThreads(s: State, step: Step, t: Tid)
    requires Inv(s) && Enabled(s, step) && t in Apply(s, step).threads
    ensures ThreadOk(Apply(s, step), t)
  {
    if t in s.threads { assert ThreadOk(s, t); }
    if s.holder.Child? { assert ThreadOk(s, s.holder.t); }
    if !step.Lock? && !step.Unlock? && step.t in s.threads { assert ThreadOk(s, step.t); }
  }

  lemma StepInv(s: State, step: Step)
    requires Inv(s) && Enabled(s, step)
    ensures Inv(Apply(s, step))
  {
    StepCounts(s, step);
    forall t | t in Apply(s, step).threads ensures ThreadOk(Apply(s, step), t) { StepThreads(s, step, t); }
  }

  lemma {:induction false} RunInv(states: seq<State>, steps: seq<Step>, i: nat)
    requires Run(states, steps) && i < |states|
    ensures Inv(states[i])
  {
    if i == 0 {
      assert Counted(INITIAL) == {};
    } else {
      RunInv(states, steps, i - 1);
      StepInv(states[i - 1], steps[i - 1]);
    }
  }

  // ---------------------------------------------------------------- what a reader of the count learns

  /** start() has returned and join() has not been called. */
  function Running(s: State): set<Tid> { set t | t in s.threads && s.threads[t].calls == Started }

  /** start() or join() is under way. */
  function InTransit(s: State): set<Tid> {
    set t | t in s.threads
      && (s.threads[t].calls.Starting? || s.threads[t].calls.Joining? || s.threads[t].calls.Dismissing?)
  }

  function JoinReturned(s: State): set<Tid> { set t | t in s.threads && s.threads[t].calls == Joined }

  /** Code that may read the count has the lock: a caller of getRunningCount(), or code the
      engine runs inside the routine's own critical section (the lock is recursive). */
  predicate Readable(s: State) {
    || s.holder == Caller
    || (s.holder.Child? && (At(s, s.holder.t, Preparing) || At(s, s.holder.t, Ending)))
  }

  /** In every run, a count read under the lock covers every running thread and no joined one. */
  lemma CountIsExact(states: seq<State>, steps: seq<Step>, i: nat)
    requires Run(states, steps) && i < |states| && Readable(states[i])
    ensures var s := states[i];
            && s.count == |Counted(s)|
            && Running(s) <= Counted(s) <= Running(s) + InTransit(s)
            && Counted(s) !! JoinReturned(s)
            && |Running(s)| <= s.count <= |Running(s)| + |InTransit(s)|
  {
    RunInv(states, steps, i);
    var s := states[i];
    forall t | t in Running(s) ensures t in Counted(s) { assert ThreadOk(s, t); }
    forall t | t in Counted(s) ensures t in Running(s) + InTransit(s)
      && t !in JoinReturned(s) { assert ThreadOk(s, t); }
    SubsetSize(Running(s), Counted(s));
    SubsetSize(Counted(s), Running(s) + InTransit(s));
  }

  /** With no start() or join() under way the count is the number of running threads. */
  lemma QuietCount(states: seq<State>, steps: seq<Step>, i: nat)
    requires Run(states, steps) && i < |states| && Readable(states[i]) && InTransit(states[i]) == {}
    ensures states[i].count == |Running(states[i])|
  {
    CountIsExact(states, steps, i);
  }

  lemma {:induction false} SubsetSize<T>(a: set<T>, b: set<T>)
    requires a <= b
    ensures |a| <= |b|
  {
    if a != {} {
      var x :| x in a;
      SubsetSize(a - {x}, b - {x});
    }
  }

  const EARLY_STEPS: seq<Step> := [Create(0), Start(0), EnterStartup(0), SignalReady(0), StartReturns(0)]

  const EARLY_STATES: seq<State> :=
    [INITIAL,
     State(map[0 := Thread(Unborn, Idle)], 0, NoOne),
     State(map[0 := Thread(Booting, Starting)], 0, NoOne),
     State(map[0 := Thread(Preparing, Starting)], 0, Child(0)),
     State(map[0 := Thread(Signalled, Starting)], 0, Child(0)),
     State(map[0 := Thread(Signalled, Started)], 0, Child(0))]

  lemma EarlyStep(i: nat)
    requires i < 5
    ensures Enabled(EARLY_STATES[i], EARLY_STEPS[i])
    ensures EARLY_STATES[i + 1] == Apply(EARLY_STATES[i], EARLY_STEPS[i])
  {
    if i == 0 { assert EARLY_STEPS[i] == Create(0); }
    else if i == 1 { assert EARLY_STEPS[i] == Start(0); }
    else if i == 2 { assert EARLY_STEPS[i] == EnterStartup(0); }
    else if i == 3 { assert EARLY_STEPS[i] == SignalReady(0); }
    else { assert EARLY_STEPS[i] == StartReturns(0); }
  }

  /** The lock is needed: between READY and the increment, start() has returned and the count is still 0. */
  lemma UnlockedReadMisses()
    ensures Run(EARLY_STATES, EARLY_STEPS)
    ensures var s := EARLY_STATES[5]; 0 in Running(s) && s.count == 0 && !Readable(s)
  {
    hide Apply, Enabled;
    forall i | 0 <= i < |EARLY_STEPS|
      ensures Enabled(EARLY_STATES[i], EARLY_STEPS[i]) && EARLY_STATES[i + 1] == Apply(EARLY_STATES[i], EARLY_STEPS[i])
    {
      EarlyStep(i);
    }
  }
}
