/**
  A worker and its creator (src/worker.c, src/routine.c, classes/worker.c): the task
  queue, the task being run, the tasks waiting to be collected, and the flags both
  threads set and wait on.  Every section the monitor protects is one step; the worker's
  private list of finished tasks is extended after the monitor has been released.
  A thread that waits sleeps until it is notified, or wakes up for no reason.
  */
module WorkerProtocol {
  import opened Options

  type Task = nat

  /** A waiting loop: about to look at the condition, or asleep (and perhaps notified). */
  datatype Wait = Awake | Asleep(notified: bool)

  datatype WorkerPc =
    | Unborn | Boot
    | Main                                // run() of the worker itself
    | Seek(wait: Wait)                    // the loop of pmmpthread_worker_next_task
    | Exec(task: Task)                    // run() of a task
    | Failed(task: Task)                  // it failed; ERROR is not set yet
    | Hand(task: Task, failed: bool)      // about to hand the task to the collector
    | Keep(task: Task, failed: bool)      // handed over; not yet in the private list
    | Leave                               // about to set AWAIT_JOIN
    | Await(wait: Wait)                   // waiting for EXIT
    | Teardown | Gone

  datatype CreatorPc =
    | Free
    | Stacking(task: Task)                // past the guard of stack(), not yet in add_task
    | Starting(wait: Wait)                // waiting for READY
    | Joining(wait: Wait)                 // waiting for AWAIT_JOIN
    | Rescuing                            // syncing the objects the thread made
    | Reaping                             // in pthread_join

  /** How a task left the queue: taken by the worker, or by the creator's unstack(). */
  datatype Exit = Exit(task: Task, toWorker: bool)

  /** The task lists of pmmpthread_worker_data_t, with the history of what went through them. */
  datatype Books = Books(
    queue: seq<Task>, running: Option<Task>, gc: seq<Task>, tally: nat, collectFlag: bool,
    stacked: seq<Task>, exits: seq<Exit>, collected: seq<Task>, acked: nat)

  datatype State = State(
    b: Books,
    started: bool, ready: bool, joined: bool, error: bool, awaitJoin: bool, exit: bool,
    done: seq<Task>,                      // done_tasks_cache, private to the worker
    worker: WorkerPc, creator: CreatorPc)

  datatype CreatorStep =
    | GuardStack(task: Task) | AddTask | Unstack | Collect(n: nat)
    | Start | CheckReady | Join | CheckAwaitJoin | Rescue | Reap | WakeCreator

  datatype WorkerStep =
    | Booted | MainDone(ok: bool) | NextTask | TaskDone(ok: bool) | MarkError | HandOver | Remember
    | Depart | CheckExit | Clean | WakeWorker

  datatype Step = ByCreator(c: CreatorStep) | ByWorker(w: WorkerStep)

  function Initial(): State {
    State(Books([], None, [], 0, false, [], [], [], 0), false, false, false, false, false, false, [], Unborn, Free)
  }

  // ---------------------------------------------------------------- the steps

  function Notify(w: Wait): Wait { if w.Asleep? then Asleep(true) else w }

  function Roused(pc: WorkerPc): WorkerPc {
    match pc
    case Seek(w) => Seek(Notify(w))
    case Await(w) => Await(Notify(w))
    case _ => pc
  }

  function Alerted(pc: CreatorPc): CreatorPc { if pc.Joining? then Joining(Notify(pc.wait)) else pc }

  /** pthread_cond_broadcast on the thread object's monitor. */
  function Broadcast(s: State): State { s.(worker := Roused(s.worker), creator := Alerted(s.creator)) }

  predicate Accepts(s: State) { !s.error && !s.awaitJoin && !s.joined }

  predicate CreatorCan(s: State, step: CreatorStep) {
    match step
    case GuardStack(_) => s.creator.Free? && Accepts(s)
    case AddTask => s.creator.Stacking?
    case Unstack => s.creator.Free?
    case Collect(n) => s.creator.Free? && n <= |s.b.gc|
    case Start => s.creator.Free? && !s.started
    case CheckReady => s.creator == Starting(Awake)
    case Join => s.creator.Free? && s.started && !s.joined
    case CheckAwaitJoin => s.creator == Joining(Awake)
    case Rescue => s.creator.Rescuing?
    case Reap => s.creator.Reaping? && s.worker.Gone?
    case WakeCreator => (s.creator.Starting? || s.creator.Joining?) && s.creator.wait.Asleep?
  }

  predicate WorkerCan(s: State, step: WorkerStep) {
    match step
    case Booted => s.worker.Boot?
    case MainDone(_) => s.worker.Main?
    case NextTask => s.worker == Seek(Awake)
    case TaskDone(_) => s.worker.Exec?
    case MarkError => s.worker.Failed?
    case HandOver => s.worker.Hand?
    case Remember => s.worker.Keep?
    case Depart => s.worker.Leave?
    case CheckExit => s.worker == Await(Awake)
    case Clean => s.worker.Teardown?
    case WakeWorker => (s.worker.Seek? || s.worker.Await?) && s.worker.wait.Asleep?
  }

  predicate Enabled(s: State, step: Step) {
    if step.ByCreator? then CreatorCan(s, step.c) else WorkerCan(s, step.w)
  }

  function Skip<T>(l: seq<T>, n: nat): seq<T> { if n <= |l| then l[n..] else [] }

  function Enqueue(b: Books, t: Task): Books { b.(queue := b.queue + [t], stacked := b.stacked + [t]) }

  function TakeOff(b: Books, toWorker: bool): Books
    requires b.queue != []
  {
    b.(queue := b.queue[1..], exits := b.exits + [Exit(b.queue[0], toWorker)],
       running := if toWorker then Some(b.queue[0]) else b.running)
  }

  function GatherUp(b: Books, n: nat): Books
    requires n <= |b.gc|
  {
    b.(gc := b.gc[n..], collected := b.collected + b.gc[..n], tally := b.tally + n, collectFlag := true)
  }

  function PassOn(b: Books, t: Task): Books { b.(gc := b.gc + [t], running := None) }

  function Settle(b: Books): Books { b.(acked := b.acked + b.tally, tally := 0, collectFlag := false) }

  /** The worker drops the tasks it has been told were collected. */
  function Acknowledge(s: State): State {
    if s.b.collectFlag then Broadcast(s.(done := Skip(s.done, s.b.tally), b := Settle(s.b))) else s
  }

  /** One turn of the loop in pmmpthread_worker_next_task. */
  function Turn(s: State): State {
    var a := Acknowledge(s);
    if a.b.queue == [] then a.(worker := if a.joined then Leave else Seek(Asleep(false)))
    else a.(b := TakeOff(a.b, true), worker := Exec(a.b.queue[0]))
  }

  function CreatorDoes(s: State, step: CreatorStep): State
    requires CreatorCan(s, step)
  {
    match step
    case GuardStack(t) => s.(creator := Stacking(t))
    case AddTask =>
      var a := s.(b := Enqueue(s.b, s.creator.task), creator := Free);
      if s.b.queue == [] then Broadcast(a) else a
    case Unstack => if s.b.queue == [] then s else s.(b := TakeOff(s.b, false))
    case Collect(n) => if n == 0 then s else Broadcast(s.(b := GatherUp(s.b, n)))
    case Start => Broadcast(s.(started := true, worker := Boot, creator := Starting(Awake)))
    case CheckReady => s.(creator := if s.ready then Free else Starting(Asleep(false)))
    case Join => Broadcast(s.(joined := true, creator := Joining(Awake)))
    case CheckAwaitJoin => s.(creator := if s.awaitJoin then Rescuing else Joining(Asleep(false)))
    case Rescue => Broadcast(s.(exit := true, creator := Reaping))
    case Reap => s.(creator := Free)
    case WakeCreator => s.(creator := if s.creator.Starting? then Starting(Awake) else Joining(Awake))
  }

  function WorkerDoes(s: State, step: WorkerStep): State
    requires WorkerCan(s, step)
  {
    match step
    case Booted =>
      s.(ready := true, worker := Main,
         creator := if s.creator.Starting? then Starting(Notify(s.creator.wait)) else s.creator)
    case MainDone(ok) => if ok then s.(worker := Seek(Awake)) else Broadcast(s.(error := true, worker := Leave))
    case NextTask => Turn(s)
    case TaskDone(ok) => s.(worker := if ok then Hand(s.worker.task, false) else Failed(s.worker.task))
    case MarkError => Broadcast(s.(error := true, worker := Hand(s.worker.task, true)))
    case HandOver =>
      Broadcast(s.(b := PassOn(s.b, s.worker.task), worker := Keep(s.worker.task, s.worker.failed)))
    case Remember => s.(done := s.done + [s.worker.task], worker := if s.worker.failed then Leave else Seek(Awake))
    case Depart => Broadcast(s.(awaitJoin := true, worker := Await(Awake)))
    case CheckExit => s.(worker := if s.exit then Teardown else Await(Asleep(false)))
    case Clean => s.(done := [], worker := Gone)
    case WakeWorker => s.(worker := if s.worker.Seek? then Seek(Awake) else Await(Awake))
  }

  function Apply(s: State, step: Step): State
    requires Enabled(s, step)
  {
    if step.ByCreator? then CreatorDoes(s, step.c) else WorkerDoes(s, step.w)
  }

  /** What collect() and getStacked() report. */
  function Remaining(s: State): nat { |s.b.queue| + |s.b.gc| + (if s.b.running.Some? then 1 else 0) }

  // ---------------------------------------------------------------- the ledger

  function Tasks(l: seq<Exit>): seq<Task> {
    if l == [] then [] else Tasks(l[..|l| - 1]) + [l[|l| - 1].task]
  }

  /** The tasks that left the queue one way or the other, in order. */
  function Sent(l: seq<Exit>, toWorker: bool): seq<Task> {
    if l == [] then []
    else
      var e := l[|l| - 1];
      Sent(l[..|l| - 1], toWorker) + (if e.toWorker == toWorker then [e.task] else [])
  }

  lemma TasksSnoc(l: seq<Exit>, e: Exit)
    ensures Tasks(l + [e]) == Tasks(l) + [e.task]
    ensures Sent(l + [e], e.toWorker) == Sent(l, e.toWorker) + [e.task]
    ensures Sent(l + [e], !e.toWorker) == Sent(l, !e.toWorker)
  {
    assert (l + [e])[..|l|] == l;
  }

  lemma {:induction false} SentCounts(l: seq<Exit>)
    ensures |Tasks(l)| == |l| == |Sent(l, true)| + |Sent(l, false)|
  {
    if l != [] { SentCounts(l[..|l| - 1]); }
  }

  function Optional(o: Option<Task>): seq<Task> { if o.Some? then [o.value] else [] }

  /** Stacked tasks are those that left the queue followed by the queue; those the worker
      took are the collected ones, the collectable ones and the running one, in order. */
  predicate Balanced(b: Books) {
    && b.stacked == Tasks(b.exits) + b.queue
    && Sent(b.exits, true) == b.collected + b.gc + Optional(b.running)
  }

  predicate Ledger(s: State) { Balanced(s.b) }

  // ---------------------------------------------------------------- the private list

  /** A task that is with the collector but not yet in the worker's list. */
  function Window(pc: WorkerPc): seq<Task> { if pc.Keep? then [pc.task] else [] }

  /** The worker's list is what was collected but not acknowledged, then what is collectable. */
  predicate Mirrors(b: Books, done: seq<Task>, pc: WorkerPc) {
    && b.acked + b.tally == |b.collected|
    && (b.collectFlag <==> b.tally > 0)
    && (!pc.Gone? ==> b.collected[b.acked..] + b.gc == done + Window(pc))
  }

  predicate Mirror(s: State) { Mirrors(s.b, s.done, s.worker) }

  // ---------------------------------------------------------------- flags and program counters

  predicate Past(pc: WorkerPc) { pc.Leave? || pc.Await? || pc.Teardown? || pc.Gone? }

  predicate Flags(s: State) {
    && (s.b.running.Some? <==> s.worker.Exec? || s.worker.Failed? || s.worker.Hand?)
    && (s.b.running.Some? ==> s.b.running.value == s.worker.task)
    && ((s.worker.Hand? || s.worker.Keep?) && s.worker.failed ==> s.error)
    && (Past(s.worker) ==> s.error || (s.joined && s.b.queue == []))
    && (s.awaitJoin <==> s.worker.Await? || s.worker.Teardown? || s.worker.Gone?)
    && (s.worker.Teardown? || s.worker.Gone? ==> s.exit)
    && (s.started <==> !s.worker.Unborn?) && (s.ready <==> !s.worker.Unborn? && !s.worker.Boot?)
    && (s.worker.Boot? ==> s.creator.Starting?)
    && (s.creator.Starting? ==> s.started && !s.joined)
    && (s.creator.Stacking? ==> !s.joined)
    && (s.creator.Joining? || s.creator.Rescuing? ==> s.joined && !s.exit)
    && (s.creator.Rescuing? ==> s.awaitJoin)
    && (s.creator.Reaping? ==> s.exit)
    && (s.exit ==> s.joined && s.awaitJoin)
    && (s.joined ==> s.ready)
    && (s.joined && !s.exit ==> s.creator.Joining? || s.creator.Rescuing?)
    && (s.exit && !s.creator.Reaping? ==> s.creator.Free? && s.worker.Gone?)
  }

  /** Asleep and not notified means there is nothing to wake up for. */
  predicate NoLostWakeup(s: State) {
    && (s.worker == Seek(Asleep(false)) ==> s.b.queue == [] && !s.joined && s.b.tally == 0)
    && (s.worker == Await(Asleep(false)) ==> !s.exit)
    && (s.creator == Joining(Asleep(false)) ==> !s.awaitJoin)
    && (s.creator == Starting(Asleep(false)) ==> !s.ready)
  }

  predicate Inv(s: State) { Ledger(s) && Mirror(s) && Flags(s) && NoLostWakeup(s) }

  // ---------------------------------------------------------------- every step keeps them

  lemma CreatorFlags(s: State, step: CreatorStep)
    requires Flags(s) && NoLostWakeup(s) && CreatorCan(s, step)
    ensures Flags(CreatorDoes(s, step)) && NoLostWakeup(CreatorDoes(s, step))
  {
  }

  lemma TurnFlags(s: State)
    requires Flags(s) && NoLostWakeup(s) && Mirror(s) && s.worker == Seek(Awake)
    ensures Flags(Turn(s)) && NoLostWakeup(Turn(s))
  {
  }

  lemma WorkerFlags(s: State, step: WorkerStep)
    requires Flags(s) && NoLostWakeup(s) && WorkerCan(s, step) && !step.NextTask?
    ensures Flags(WorkerDoes(s, step)) && NoLostWakeup(WorkerDoes(s, step))
  {
  }

  lemma StepFlags(s: State, step: Step)
    requires Flags(s) && NoLostWakeup(s) && Mirror(s) && Enabled(s, step)
    ensures Flags(Apply(s, step)) && NoLostWakeup(Apply(s, step))
  {
    if step.ByCreator? { CreatorFlags(s, step.c); }
    else if step.w.NextTask? { TurnFlags(s); }
    else { WorkerFlags(s, step.w); }
  }

  lemma EnqueueBalanced(b: Books, t: Task)
    requires Balanced(b)
    ensures Balanced(Enqueue(b, t))
  {
    assert Tasks(b.exits) + (b.queue + [t]) == b.stacked + [t];
  }

  lemma TakeOffBalanced(b: Books, toWorker: bool)
    requires Balanced(b) && b.queue != [] && (toWorker ==> b.running.None?)
    ensures Balanced(TakeOff(b, toWorker))
  {
    TasksSnoc(b.exits, Exit(b.queue[0], toWorker));
    assert Tasks(b.exits) + b.queue == Tasks(b.exits) + [b.queue[0]] + b.queue[1..];
  }

  lemma GatherUpBalanced(b: Books, n: nat)
    requires Balanced(b) && n <= |b.gc|
    ensures Balanced(GatherUp(b, n))
  {
    assert b.collected + b.gc == (b.collected + b.gc[..n]) + b.gc[n..];
  }

  lemma PassOnBalanced(b: Books, t: Task)
    requires Balanced(b) && b.running == Some(t)
    ensures Balanced(PassOn(b, t))
  {
    assert b.collected + b.gc + [t] == b.collected + (b.gc + [t]) + [];
  }

  lemma StepLedger(s: State, step: Step)
    requires Ledger(s) && Flags(s) && Enabled(s, step)
    ensures Ledger(Apply(s, step))
  {
    hide Balanced;
    if step.ByCreator? {
      match step.c
      case AddTask => EnqueueBalanced(s.b, s.creator.task);
      case Unstack => if s.b.queue != [] { TakeOffBalanced(s.b, false); }
      case Collect(n) => GatherUpBalanced(s.b, n);
      case _ =>
    } else {
      match step.w
      case NextTask => SettleBalanced(s.b); if s.b.queue != [] { TakeOffBalanced(Acknowledge(s).b, true); }
      case HandOver => PassOnBalanced(s.b, s.worker.task);
      case _ =>
    }
  }

  lemma SettleBalanced(b: Books)
    requires Balanced(b)
    ensures Balanced(Settle(b))
  {
  }

  lemma GatherUpMirrors(b: Books, n: nat, done: seq<Task>, pc: WorkerPc)
    requires Mirrors(b, done, pc) && 0 < n <= |b.gc|
    ensures Mirrors(GatherUp(b, n), done, pc)
  {
    assert (b.collected + b.gc[..n])[b.acked..] == b.collected[b.acked..] + b.gc[..n];
    assert b.gc == b.gc[..n] + b.gc[n..];
  }

  /**
    When the worker shortens its list it drops exactly the tasks the creator collected
    since the last time, and what stays is exactly what is still collectable.
    */
  lemma Drain(b: Books, done: seq<Task>, pc: WorkerPc)
    requires Mirrors(b, done, pc) && pc.Seek?
    ensures b.tally <= |done| && done[..b.tally] == b.collected[b.acked..] && Skip(done, b.tally) == b.gc
    ensures Mirrors(Settle(b), b.gc, pc) && (!b.collectFlag ==> Settle(b) == b && done == b.gc)
  {
    var c := b.collected[b.acked..];
    assert done == done + [] == c + b.gc && |c| == b.tally;
    assert b.collected[|b.collected|..] == [];
  }

  lemma PassOnMirrors(b: Books, t: Task, done: seq<Task>, failed: bool)
    requires Mirrors(b, done, Hand(t, failed))
    ensures Mirrors(PassOn(b, t), done, Keep(t, failed))
  {
    assert done + [] == done;
    assert b.collected[b.acked..] + (b.gc + [t]) == done + [t];
  }

  lemma CreatorMirror(s: State, step: CreatorStep)
    requires Mirror(s) && Flags(s) && CreatorCan(s, step)
    ensures Mirror(CreatorDoes(s, step))
  {
    if step.Collect? && step.n > 0 { GatherUpMirrors(s.b, step.n, s.done, s.worker); }
  }

  lemma AcknowledgeMirror(s: State)
    requires Mirror(s) && s.worker == Seek(Awake)
    ensures Acknowledge(s).b == Settle(s.b) && Acknowledge(s).done == s.b.gc && Mirrors(Settle(s.b), s.b.gc, s.worker)
  {
    Drain(s.b, s.done, s.worker);
  }

  lemma TakeOffMirrors(b: Books, done: seq<Task>, pc: WorkerPc)
    requires Mirrors(b, done, pc) && b.queue != []
    ensures Mirrors(TakeOff(b, true), done, pc)
  {
  }

  lemma TurnMirror(s: State)
    requires Mirror(s) && s.worker == Seek(Awake)
    ensures Mirror(Turn(s))
  {
    hide Mirrors, Acknowledge, Settle;
    AcknowledgeMirror(s);
    var a, r := Acknowledge(s), Turn(s);
    if a.b.queue != [] { TakeOffMirrors(a.b, a.done, s.worker); }
    SamePcMirrors(r.b, r.done, s.worker, r.worker);
  }

  lemma RememberMirror(s: State)
    requires Mirror(s) && s.worker.Keep?
    ensures Mirror(WorkerDoes(s, Remember))
  {
    assert s.done + [s.worker.task] + [] == s.done + [s.worker.task];
  }

  lemma WorkerMirror(s: State, step: WorkerStep)
    requires Mirror(s) && WorkerCan(s, step)
    ensures Mirror(WorkerDoes(s, step))
  {
    if step.NextTask? { TurnMirror(s); }
    else if step.HandOver? { PassOnMirrors(s.b, s.worker.task, s.done, s.worker.failed); }
    else if step.Remember? { RememberMirror(s); }
    else {
      hide Mirrors;
      var r := WorkerDoes(s, step);
      assert r.b == s.b && (r.worker.Gone? || r.done == s.done);
      SamePcMirrors(s.b, s.done, s.worker, r.worker);
      SamePcMirrors(s.b, r.done, s.worker, r.worker);
    }
  }

  /** Only the hand-over window and the end of the thread matter for the list. */
  lemma SamePcMirrors(b: Books, done: seq<Task>, pc: WorkerPc, pc': WorkerPc)
    requires !pc.Keep? && !pc'.Keep? && !pc.Gone?
    ensures Mirrors(b, done, pc) ==> Mirrors(b, done, pc')
    ensures Mirrors(b, done, pc) && pc'.Gone? ==> forall d :: Mirrors(b, d, pc')
  {
  }

  lemma StepMirror(s: State, step: Step)
    requires Mirror(s) && Flags(s) && Enabled(s, step)
    ensures Mirror(Apply(s, step))
  {
    if step.ByCreator? { CreatorMirror(s, step.c); } else { WorkerMirror(s, step.w); }
  }

  lemma StepInv(s: State, step: Step)
    requires Inv(s) && Enabled(s, step)
    ensures Inv(Apply(s, step))
  {
    StepFlags(s, step);
    StepLedger(s, step);
    StepMirror(s, step);
  }

  predicate Run(states: seq<State>, steps: seq<Step>) {
    && |states| == |steps| + 1
    && forall i :: 0 <= i < |steps| ==> Enabled(states[i], steps[i]) && states[i + 1] == Apply(states[i], steps[i])
  }

  lemma EmptyBalanced(b: Books)
    requires b.queue == [] && b.exits == [] && b.stacked == [] && b.collected == [] && b.gc == [] && b.running == None
    ensures Balanced(b)
  {
    assert Tasks(b.exits) == [] && Sent(b.exits, true) == [];
    hide Tasks, Sent;
    assert |Tasks(b.exits) + b.queue| == 0 && |b.collected + b.gc + Optional(b.running)| == 0;
  }

  lemma EmptyMirrors(b: Books, pc: WorkerPc)
    requires b.collected == [] && b.gc == [] && b.acked == b.tally == 0 && !b.collectFlag && !pc.Keep?
    ensures Mirrors(b, [], pc)
  {
    assert |b.collected[b.acked..] + b.gc| == 0 && |[] + Window(pc)| == 0;
  }

  lemma InitialInv(s: State)
    requires s == Initial()
    ensures Inv(s)
  {
    EmptyBalanced(s.b);
    EmptyMirrors(s.b, s.worker);
    hide Balanced, Mirrors;
  }

  lemma {:induction false} RunInv(states: seq<State>, steps: seq<Step>, n: nat)
    requires Run(states, steps) && states[0] == Initial() && n <= |steps|
    ensures Inv(states[n])
  {
    hide Enabled, Apply, Inv;
    if n == 0 {
      InitialInv(states[0]);
    } else {
      RunInv(states, steps, n - 1);
      StepInv(states[n - 1], steps[n - 1]);
    }
  }

  // ---------------------------------------------------------------- what collect() returns

  /** The count collect() reports: stacked, minus unstacked, minus collected. */
  lemma CollectReports(s: State)
    requires Inv(s)
    ensures Remaining(s) == |s.b.stacked| - |Sent(s.b.exits, false)| - |s.b.collected|
  {
    SentCounts(s.b.exits);
  }

  // ---------------------------------------------------------------- shutdown

  lemma CreatorShutdown(s: State, step: CreatorStep)
    requires Flags(s) && s.joined && CreatorCan(s, step)
    ensures var r := CreatorDoes(s, step);
            && r.joined && r.b.stacked == s.b.stacked
            && (r.b.queue == s.b.queue || (s.b.queue != [] && r.b.queue == s.b.queue[1..]))
  {
  }

  lemma WorkerShutdown(s: State, step: WorkerStep)
    requires Flags(s) && s.joined && WorkerCan(s, step)
    ensures var r := WorkerDoes(s, step);
            && r.joined && r.b.stacked == s.b.stacked
            && (r.b.queue == s.b.queue || (s.b.queue != [] && r.b.queue == s.b.queue[1..]))
  {
  }

  /** Once JOINED is set nothing is accepted any more and the queue only shrinks. */
  lemma ShutdownOnlyDrains(s: State, step: Step)
    requires Inv(s) && s.joined && Enabled(s, step)
    ensures var r := Apply(s, step);
            && r.joined && r.b.stacked == s.b.stacked
            && (r.b.queue == s.b.queue || (s.b.queue != [] && r.b.queue == s.b.queue[1..]))
  {
    hide Ledger, Mirror, Flags;
    if step.ByCreator? { CreatorShutdown(s, step.c); } else { WorkerShutdown(s, step.w); }
  }

  /** A worker past its loop without an error has run everything that was not unstacked. */
  lemma Drained(s: State)
    requires Inv(s) && Past(s.worker) && !s.error
    ensures s.joined && s.b.queue == [] && s.b.running.None?
    ensures s.b.stacked == Tasks(s.b.exits) && Sent(s.b.exits, true) == s.b.collected + s.b.gc
  {
  }

  predicate InJoin(s: State) { s.creator.Joining? || s.creator.Rescuing? || s.creator.Reaping? }

  /** Waking up without having been notified. */
  predicate Spurious(s: State, step: Step) {
    || (step == ByWorker(WakeWorker) && (s.worker.Seek? || s.worker.Await?) && s.worker.wait == Asleep(false))
    || (step == ByCreator(WakeCreator) && (s.creator.Starting? || s.creator.Joining?)
      && s.creator.wait == Asleep(false))
  }

  function Phase(pc: WorkerPc): nat {
    match pc
    case Unborn => 11 case Boot => 10 case Main => 9
    case Exec(_) => 8 case Failed(_) => 7 case Hand(_, _) => 6 case Keep(_, _) => 5
    case Seek(_) => 4 case Leave => 3 case Await(_) => 2 case Teardown => 1 case Gone => 0
  }

  function Drowse(w: Wait): nat { if w.Awake? then 1 else if w.notified then 2 else 0 }

  function Slack(s: State): nat {
    (if s.worker.Seek? || s.worker.Await? then Drowse(s.worker.wait) else 0)
    + (if s.creator.Joining? then Drowse(s.creator.wait) else 0)
  }

  /** Tasks left, then how far the worker and the joining creator still have to go. */
  function Rank(s: State): nat {
    8 * (10 * |s.b.queue| + Phase(s.worker)
         + (if s.creator.Joining? then 2 else if s.creator.Rescuing? then 1 else 0))
    + Slack(s)
  }

  lemma CreatorJoinStep(s: State, step: CreatorStep)
    requires Flags(s) && InJoin(s) && CreatorCan(s, step) && !Spurious(s, ByCreator(step))
    ensures var r := CreatorDoes(s, step); if InJoin(r) then Rank(r) < Rank(s) else s.worker.Gone? && step.Reap?
  {
  }

  lemma WorkerJoinStep(s: State, step: WorkerStep)
    requires Flags(s) && InJoin(s) && WorkerCan(s, step) && !Spurious(s, ByWorker(step))
    ensures var r := WorkerDoes(s, step); InJoin(r) && Rank(r) < Rank(s)
  {
  }

  /** While the creator joins, every step but a spurious wakeup brings the end nearer. */
  lemma JoinStepDecreases(s: State, step: Step)
    requires Inv(s) && InJoin(s) && Enabled(s, step) && !Spurious(s, step)
    ensures var r := Apply(s, step); if InJoin(r) then Rank(r) < Rank(s) else s.worker.Gone? && step == ByCreator(Reap)
  {
    hide Ledger, Mirror, Flags, Rank;
    if step.ByCreator? { CreatorJoinStep(s, step.c); } else { WorkerJoinStep(s, step.w); }
  }

  /** And there is always such a step: the handshake cannot deadlock. */
  lemma JoinNeverStuck(s: State) returns (step: Step)
    requires Inv(s) && InJoin(s)
    ensures Enabled(s, step) && !Spurious(s, step)
  {
    hide Ledger, Mirror;
    if s.worker.Main? { step := ByWorker(MainDone(true)); }
    else if s.worker.Seek? { step := ByWorker(if s.worker.wait.Awake? then NextTask else WakeWorker); }
    else if s.worker.Exec? { step := ByWorker(TaskDone(true)); }
    else if s.worker.Failed? { step := ByWorker(MarkError); }
    else if s.worker.Hand? { step := ByWorker(HandOver); }
    else if s.worker.Keep? { step := ByWorker(Remember); }
    else if s.worker.Leave? { step := ByWorker(Depart); }
    else if s.worker.Teardown? { step := ByWorker(Clean); }
    else if s.worker.Await? && s.worker.wait != Asleep(false) {
      step := ByWorker(if s.worker.wait.Awake? then CheckExit else WakeWorker);
    }
    else if s.creator.Joining? { step := ByCreator(if s.creator.wait.Awake? then CheckAwaitJoin else WakeCreator); }
    else if s.creator.Rescuing? { step := ByCreator(Rescue); }
    else { step := ByCreator(Reap); }
  }

  lemma SpuriousStep(s: State, step: Step)
    requires Inv(s) && InJoin(s) && Enabled(s, step) && Spurious(s, step)
    ensures var r := Apply(s, step); InJoin(r) && Rank(r) == Rank(s) + 1
  {
    hide Ledger, Mirror;
  }

  function SpuriousCount(states: seq<State>, steps: seq<Step>): nat
    requires |states| == |steps| + 1
    decreases |steps|
  {
    if steps == [] then 0
    else
      var n := |steps| - 1;
      SpuriousCount(states[..n + 1], steps[..n]) + (if Spurious(states[n], steps[n]) then 1 else 0)
  }

  /** So a join is over after at most as many steps as its rank and two for every spurious wakeup. */
  lemma {:induction false} JoinEnds(states: seq<State>, steps: seq<Step>)
    requires Run(states, steps) && Inv(states[0])
    requires forall i :: 0 <= i < |states| ==> InJoin(states[i])
    ensures Inv(states[|steps|])
    ensures Rank(states[|steps|]) + |steps| <= Rank(states[0]) + 2 * SpuriousCount(states, steps)
  {
    if steps != [] {
      var n := |steps| - 1;
      JoinEnds(states[..n + 1], steps[..n]);
      StepInv(states[n], steps[n]);
      hide Inv, Rank, Spurious, InJoin, Apply, Enabled;
      if Spurious(states[n], steps[n]) { SpuriousStep(states[n], steps[n]); }
      else { JoinStepDecreases(states[n], steps[n]); }
    }
  }

  /** A join that returns leaves a worker that is gone and, if nothing failed, a drained queue. */
  lemma JoinReturns(s: State)
    requires Inv(s) && Enabled(s, ByCreator(Reap))
    ensures var r := Apply(s, ByCreator(Reap));
            && Inv(r) && r.worker.Gone? && !Accepts(r)
            && (!r.error ==>
                  && r.b.queue == [] && r.b.stacked == Tasks(r.b.exits)
                  && Sent(r.b.exits, true) == r.b.collected + r.b.gc)
  {
    StepInv(s, ByCreator(Reap));
  }

  // ---------------------------------------------------------------- a task stacked while the worker fails

  /** Past its loop, or on the way out of it with a failed task: the worker takes nothing any more. */
  predicate Doomed(pc: WorkerPc) { Past(pc) || pc.Failed? || ((pc.Hand? || pc.Keep?) && pc.failed) }

  /** The `k`-th task ever stacked was taken by the worker. */
  predicate TakenAt(s: State, k: nat) { k < |s.b.exits| && s.b.exits[k].toWorker }

  /** From `n` on, only unstack() has removed tasks. */
  predicate UnstackedSince(l: seq<Exit>, n: nat) { n <= |l| && forall i :: n <= i < |l| ==> !l[i].toWorker }

  lemma DoomedStep(s: State, step: Step, n: nat)
    requires Flags(s) && Doomed(s.worker) && Enabled(s, step) && UnstackedSince(s.b.exits, n)
    ensures Doomed(Apply(s, step).worker) && UnstackedSince(Apply(s, step).b.exits, n)
  {
    hide Flags;
    if step.ByCreator? { DoomedCreator(s, step.c, n); } else { DoomedWorker(s, step.w, n); }
  }

  lemma DoomedCreator(s: State, step: CreatorStep, n: nat)
    requires Flags(s) && Doomed(s.worker) && CreatorCan(s, step) && UnstackedSince(s.b.exits, n)
    ensures Doomed(CreatorDoes(s, step).worker) && UnstackedSince(CreatorDoes(s, step).b.exits, n)
  {
  }

  lemma DoomedWorker(s: State, step: WorkerStep, n: nat)
    requires Flags(s) && Doomed(s.worker) && WorkerCan(s, step) && UnstackedSince(s.b.exits, n)
    ensures Doomed(WorkerDoes(s, step).worker) && UnstackedSince(WorkerDoes(s, step).b.exits, n)
  {
  }

  /** In every continuation a doomed worker takes nothing; what is queued can only be unstacked. */
  lemma {:induction false} DoomedNeverTakes(states: seq<State>, steps: seq<Step>, n: nat)
    requires Run(states, steps) && Inv(states[0]) && Doomed(states[0].worker) && n <= |steps|
    ensures Inv(states[n]) && Doomed(states[n].worker)
    ensures UnstackedSince(states[n].b.exits, |states[0].b.exits|)
  {
    hide Ledger, Mirror, Flags, NoLostWakeup, Doomed, Enabled, Apply;
    if n > 0 {
      DoomedNeverTakes(states, steps, n - 1);
      StepInv(states[n - 1], steps[n - 1]);
      DoomedStep(states[n - 1], steps[n - 1], |states[0].b.exits|);
    }
  }

  /** What a worker that is not doomed can do next towards emptying the queue. */
  function Eager(s: State): Step {
    match s.worker
    case Unborn => ByCreator(Start)
    case Boot => ByWorker(Booted)
    case Main => ByWorker(MainDone(true))
    case Seek(w) => ByWorker(if w.Awake? then NextTask else WakeWorker)
    case Exec(_) => ByWorker(TaskDone(true))
    case Hand(_, _) => ByWorker(HandOver)
    case _ => ByWorker(Remember)
  }

  predicate Willing(s: State) { !Doomed(s.worker) && (s.worker.Unborn? ==> s.creator.Free?) }

  function Distance(s: State): nat {
    20 * |s.b.queue| + Phase(s.worker) + (if s.worker.Seek? && s.worker.wait.Asleep? then 1 else 0)
  }

  lemma EagerCan(s: State)
    requires Inv(s) && Willing(s)
    ensures Enabled(s, Eager(s))
  {
    hide Ledger, Mirror, NoLostWakeup;
  }

  /** Nearer to an empty queue, whose head, if it went, went to the worker. */
  predicate Nearer(s: State, r: State)
    requires s.b.queue != []
  {
    && Willing(r) && Distance(r) < Distance(s)
    && (|| (r.b.queue == s.b.queue && r.b.exits == s.b.exits)
        || (r.b.queue == s.b.queue[1..] && r.b.exits == s.b.exits + [Exit(s.b.queue[0], true)]))
  }

  lemma EagerTurn(s: State)
    requires s.worker == Seek(Awake) && s.b.queue != []
    ensures Nearer(s, Turn(s))
  {
    hide Broadcast, Skip;
    assert Acknowledge(s).b.queue == s.b.queue && Acknowledge(s).b.exits == s.b.exits by { BroadcastBooks(s); }
  }

  lemma BroadcastBooks(s: State)
    ensures Acknowledge(s).b.queue == s.b.queue && Acknowledge(s).b.exits == s.b.exits
  {
  }

  lemma EagerStep(s: State)
    requires Inv(s) && Willing(s) && s.b.queue != []
    ensures Enabled(s, Eager(s)) && Nearer(s, Apply(s, Eager(s)))
  {
    EagerCan(s);
    hide Inv, Turn;
    if s.worker == Seek(Awake) { hide Nearer; EagerTurn(s); }
  }

  /** The whole of `q`, taken by the worker in order. */
  function AllTaken(q: seq<Task>): seq<Exit> { if q == [] then [] else [Exit(q[0], true)] + AllTaken(q[1..]) }

  lemma {:induction false} AllTakenAt(q: seq<Task>, i: nat)
    requires i < |q|
    ensures |AllTaken(q)| == |q| && AllTaken(q)[i].toWorker
  {
    if |q| > 1 { AllTakenAt(q[1..], if i > 0 then i - 1 else 0); }
  }

  /** Taking the head and then the rest, or nothing and then all, is taking all. */
  lemma TakenTogether(l: seq<Exit>, q: seq<Task>, l': seq<Exit>, q': seq<Task>)
    requires q != [] && ((q' == q && l' == l) || (q' == q[1..] && l' == l + [Exit(q[0], true)]))
    ensures l' + AllTaken(q') == l + AllTaken(q)
  {
    var rest := AllTaken(q[1..]);
    assert AllTaken(q) == [Exit(q[0], true)] + rest;
    hide AllTaken;
    assert l + [Exit(q[0], true)] + rest == l + ([Exit(q[0], true)] + rest);
  }

  /** A worker that is not doomed has a continuation in which it takes everything that is queued. */
  lemma {:induction false} WillingTakesAll(s: State) returns (states: seq<State>, steps: seq<Step>)
    requires Inv(s) && Willing(s)
    ensures Run(states, steps) && states != [] && states[0] == s && |states| == |steps| + 1
    ensures states[|steps|].b.exits == s.b.exits + AllTaken(s.b.queue)
    decreases Distance(s)
  {
    if s.b.queue == [] {
      states, steps := [s], [];
    } else {
      hide Inv, Willing, Distance, Apply, Enabled, Eager, AllTaken, Run;
      EagerStep(s);
      StepInv(s, Eager(s));
      var r := Apply(s, Eager(s));
      var rest, more := WillingTakesAll(r);
      states, steps := [s] + rest, [Eager(s)] + more;
      RunBegins(s, Eager(s), rest, more);
      TakenTogether(s.b.exits, s.b.queue, r.b.exits, r.b.queue);
    }
  }

  lemma RunBegins(s: State, step: Step, rest: seq<State>, more: seq<Step>)
    requires Enabled(s, step) && Run(rest, more) && |rest| == |more| + 1 && rest[0] == Apply(s, step)
    ensures Run([s] + rest, [step] + more) && ([s] + rest)[|more| + 1] == rest[|more|]
  {
    hide Enabled, Apply;
    var states, steps := [s] + rest, [step] + more;
    forall i | 0 <= i < |steps| ensures Enabled(states[i], steps[i]) && states[i + 1] == Apply(states[i], steps[i]) {
      if i > 0 { assert states[i] == rest[i - 1] && steps[i] == more[i - 1] && states[i + 1] == rest[i]; }
    }
  }

  /** In no continuation is the `k`-th task ever stacked taken by the worker. */
  ghost predicate NeverTaken(s: State, k: nat) {
    forall states: seq<State>, steps: seq<Step> ::
      Run(states, steps) && states[0] == s ==> !TakenAt(states[|steps|], k)
  }

  lemma DoomedStrands(s: State, k: nat)
    requires Inv(s) && Doomed(s.worker) && |s.b.exits| <= k
    ensures NeverTaken(s, k)
  {
    hide Inv, Doomed;
    forall states: seq<State>, steps: seq<Step> | Run(states, steps) && states[0] == s
      ensures !TakenAt(states[|steps|], k)
    {
      DoomedNeverTakes(states, steps, |steps|);
    }
  }

  lemma WillingServes(s: State, k: nat)
    requires Inv(s) && Willing(s) && |s.b.exits| <= k < |s.b.exits| + |s.b.queue|
    ensures !NeverTaken(s, k)
  {
    var states, steps := WillingTakesAll(s);
    AllTakenAt(s.b.queue, k - |s.b.exits|);
    hide Inv, Willing, AllTaken;
    assert TakenAt(states[|steps|], k);
  }

  /**
    stack() looks at the flags before it takes the queue.  The task it then adds is taken by
    the worker in no continuation if and only if the worker is doomed by that time.
    */
  lemma AddedInVainIff(s: State)
    requires Inv(s) && s.creator.Stacking?
    ensures var r := Apply(s, ByCreator(AddTask));
            r.b.stacked[|s.b.stacked|] == s.creator.task && (NeverTaken(r, |s.b.stacked|) <==> Doomed(s.worker))
  {
    var r := Apply(s, ByCreator(AddTask));
    StepInv(s, ByCreator(AddTask));
    SentCounts(s.b.exits);
    assert Doomed(r.worker) == Doomed(s.worker);
    var k := |s.b.stacked|;
    assert |s.b.exits| + |s.b.queue| == k && r.b.exits == s.b.exits && |r.b.queue| == |s.b.queue| + 1;
    hide Inv;
    if Doomed(s.worker) { DoomedStrands(r, k); } else { WillingServes(r, k); }
  }

  /** It happens: run() fails between the guard and the queue, and the accepted task is never run. */
  lemma StrandedTask(t: Task, s: State) returns (states: seq<State>)
    requires Inv(s) && s.creator == Free && s.worker == Main && Accepts(s)
    ensures Run(states, [ByCreator(GuardStack(t)), ByWorker(MainDone(false)), ByCreator(AddTask)])
    ensures states[0] == s && states[3].b.queue == s.b.queue + [t] && NeverTaken(states[3], |s.b.stacked|)
  {
    var s1 := s.(creator := Stacking(t));
    var s2 := WorkerDoes(s1, MainDone(false));
    assert s2.worker == Leave && s2.error && s2.b == s.b && s2.creator == Stacking(t);
    var s3 := CreatorDoes(s2, AddTask);
    states := [s, s1, s2, s3];
    StepInv(s, ByCreator(GuardStack(t)));
    StepInv(s1, ByWorker(MainDone(false)));
    hide Inv;
    AddedInVainIff(s2);
  }

  // ---------------------------------------------------------------- a failure fails the worker

  predicate Fails(step: Step) { step == ByWorker(TaskDone(false)) || step == ByWorker(MainDone(false)) }

  /** ERROR is set, or the failed task is still the running one: nobody has it to collect yet. */
  predicate ErrorFirst(s: State, t: Task) { s.error || (s.worker == Failed(t) && s.b.running == Some(t)) }

  lemma RunningSame(b: Books, t: Task, n: nat)
    ensures Enqueue(b, t).running == b.running
    ensures b.queue != [] ==> TakeOff(b, false).running == b.running
    ensures n <= |b.gc| ==> GatherUp(b, n).running == b.running
  {
  }

  /** What the creator's steps do to flags and to the worker. */
  lemma CreatorFacts(s: State, step: CreatorStep)
    requires CreatorCan(s, step)
    ensures var r := CreatorDoes(s, step);
            && r.error == s.error && r.awaitJoin == s.awaitJoin && r.joined == (s.joined || step.Join?)
            && r.done == s.done && r.b.running == s.b.running && (step.Start? ==> r.worker == Boot)
            && (!step.Start? ==> r.worker == s.worker || r.worker == Roused(s.worker))
  {
    if step.AddTask? { RunningSame(s.b, s.creator.task, 0); }
    if step.Collect? { RunningSame(s.b, 0, step.n); }
    if step.Unstack? { RunningSame(s.b, 0, 0); }
    hide Enqueue, TakeOff, GatherUp, Roused;
  }

  lemma TurnFacts(s: State)
    requires s.worker == Seek(Awake)
    ensures var r := Turn(s);
            && r.error == s.error && r.awaitJoin == s.awaitJoin && r.joined == s.joined && !r.worker.Gone?
  {
    hide Skip, Settle, TakeOff;
  }

  /** And what the worker's do. */
  lemma WorkerFlagFacts(s: State, step: WorkerStep)
    requires WorkerCan(s, step) && !step.NextTask?
    ensures var r := WorkerDoes(s, step);
            if step.MarkError? || step == MainDone(false) then r.error else r.error == s.error
    ensures var r := WorkerDoes(s, step);
            if step.Depart? then r.awaitJoin else r.awaitJoin == s.awaitJoin
    ensures WorkerDoes(s, step).joined == s.joined
  {
    hide Roused, Alerted, PassOn, Turn;
    if step.MainDone? {
    } else if step.MarkError? {
    } else if step.Depart? {
    } else {
    }
  }

  lemma WorkerEnds(s: State, step: WorkerStep)
    requires WorkerCan(s, step) && !step.NextTask?
    ensures var r := WorkerDoes(s, step);
            (r.worker.Gone? ==> step.Clean? && r.done == []) && (s.worker.Failed? ==> step.MarkError?)
  {
  }

  lemma WorkerFacts(s: State, step: WorkerStep)
    requires WorkerCan(s, step)
    ensures var r := WorkerDoes(s, step);
            && r.error == (s.error || step.MarkError? || step == MainDone(false))
            && r.awaitJoin == (s.awaitJoin || step.Depart?) && r.joined == s.joined
            && (r.worker.Gone? ==> step.Clean? && r.done == [])
            && (s.worker.Failed? ==> step.MarkError?)
  {
    if step.NextTask? {
      TurnFacts(s);
      hide Turn;
    } else {
      WorkerFlagFacts(s, step);
      WorkerEnds(s, step);
      hide WorkerDoes;
    }
  }

  lemma StepErrorFirst(s: State, step: Step, t: Task)
    requires ErrorFirst(s, t) && Flags(s) && Enabled(s, step)
    ensures ErrorFirst(Apply(s, step), t)
  {
    assert step.ByCreator? && step.c.Start? ==> s.worker.Unborn?;
    hide Flags, CreatorDoes, WorkerDoes;
    if step.ByCreator? { CreatorFacts(s, step.c); } else { WorkerFacts(s, step.w); }
  }

  lemma RunSuffix(states: seq<State>, steps: seq<Step>, i: nat)
    requires Run(states, steps) && i <= |steps|
    ensures Run(states[i..], steps[i..])
  {
    hide Enabled, Apply;
    var s, x := states[i..], steps[i..];
    forall j | 0 <= j < |x| ensures Enabled(s[j], x[j]) && s[j + 1] == Apply(s[j], x[j]) {
      assert s[j] == states[i + j] && x[j] == steps[i + j] && s[j + 1] == states[i + j + 1];
    }
  }

  lemma {:induction false} RunErrorFirst(states: seq<State>, steps: seq<Step>, i: nat, n: nat, t: Task)
    requires Run(states, steps) && states[0] == Initial() && i <= n <= |steps| && ErrorFirst(states[i], t)
    ensures ErrorFirst(states[n], t)
    decreases n - i
  {
    hide Enabled, Apply, ErrorFirst;
    if i < n {
      RunInv(states, steps, n - 1);
      hide Flags, Ledger, Mirror, NoLostWakeup;
      RunErrorFirst(states, steps, i, n - 1, t);
      StepErrorFirst(states[n - 1], steps[n - 1], t);
    }
  }

  /** The moment of the failure. */
  lemma FailingStep(s: State, step: Step)
    requires Inv(s) && Enabled(s, step) && Fails(step)
    ensures var r := Apply(s, step);
            && Doomed(r.worker) && r.b == s.b
            && (step.w.TaskDone? ==> s.worker.Exec? && ErrorFirst(r, s.worker.task))
            && (step.w.MainDone? ==> r.error)
  {
    hide Ledger, Mirror, NoLostWakeup;
  }

  /**
    In every run, from the step on in which run() of a task or of the worker failed, no further task
    goes to the worker, and ERROR is set before the failed task can be collected.
    */
  lemma FailureIsFinal(states: seq<State>, steps: seq<Step>, i: nat, n: nat)
    requires Run(states, steps) && states[0] == Initial() && i < n <= |steps| && Fails(steps[i])
    ensures Doomed(states[n].worker) && UnstackedSince(states[n].b.exits, |states[i].b.exits|)
    ensures if steps[i].w.TaskDone? then states[i].worker.Exec? && ErrorFirst(states[n], states[i].worker.task)
            else states[n].error
  {
    RunInv(states, steps, i);
    RunInv(states, steps, i + 1);
    FailingStep(states[i], steps[i]);
    RunSuffix(states, steps, i + 1);
    hide Inv, Doomed, Enabled, Apply, ErrorFirst;
    DoomedNeverTakes(states[i + 1..], steps[i + 1..], n - i - 1);
    assert states[i + 1..][n - i - 1] == states[n];
    if steps[i].w.TaskDone? {
      RunErrorFirst(states, steps, i + 1, n, states[i].worker.task);
    } else {
      RunErrorStays(states, steps, i + 1, n);
    }
  }

  lemma {:induction false} RunErrorStays(states: seq<State>, steps: seq<Step>, i: nat, n: nat)
    requires Run(states, steps) && i <= n <= |steps| && states[i].error
    ensures states[n].error
    decreases n - i
  {
    hide Enabled, Apply;
    if i < n {
      RunErrorStays(states, steps, i, n - 1);
      StepErrorStays(states[n - 1], steps[n - 1]);
    }
  }

  lemma StepErrorStays(s: State, step: Step)
    requires s.error && Enabled(s, step)
    ensures Apply(s, step).error
  {
    hide CreatorDoes, WorkerDoes;
    if step.ByCreator? { CreatorFacts(s, step.c); } else { WorkerFacts(s, step.w); }
  }

  // ---------------------------------------------------------------- when stack() accepts

  /** The steps after which nothing is accepted any more: a failure, the end of the routine, a join. */
  predicate Closes(step: Step) {
    || step == ByWorker(MarkError) || step == ByWorker(MainDone(false))
    || step == ByWorker(Depart) || step == ByCreator(Join)
  }

  lemma StepAccepts(s: State, step: Step)
    requires Enabled(s, step)
    ensures Accepts(Apply(s, step)) <==> Accepts(s) && !Closes(step)
  {
    hide CreatorDoes, WorkerDoes;
    if step.ByCreator? { CreatorFacts(s, step.c); } else { WorkerFacts(s, step.w); }
  }

  /** None of these has been taken in the first `n` steps. */
  predicate Open(steps: seq<Step>, n: nat)
    requires n <= |steps|
  {
    forall i :: 0 <= i < n ==> !Closes(steps[i])
  }

  lemma OpenNext(steps: seq<Step>, n: nat)
    requires 0 < n <= |steps|
    ensures Open(steps, n) <==> Open(steps, n - 1) && !Closes(steps[n - 1])
  {
    hide Closes;
  }

  /** In every run stack() lets a task pass exactly while none of these steps has been taken. */
  lemma AcceptsUntilClosed(states: seq<State>, steps: seq<Step>, n: nat, t: Task)
    requires Run(states, steps) && states[0] == Initial() && n <= |steps|
    ensures Enabled(states[n], ByCreator(GuardStack(t))) <==> states[n].creator.Free? && Open(steps, n)
  {
    OpenUntilClosed(states, steps, n);
    hide Open, Accepts;
  }

  lemma {:induction false} OpenUntilClosed(states: seq<State>, steps: seq<Step>, n: nat)
    requires Run(states, steps) && states[0] == Initial() && n <= |steps|
    ensures Accepts(states[n]) <==> Open(steps, n)
  {
    hide Enabled, Apply, Closes;
    if n > 0 {
      hide Accepts, Open;
      OpenUntilClosed(states, steps, n - 1);
      OpenNext(steps, n);
      StepAccepts(states[n - 1], steps[n - 1]);
    }
  }

  // ---------------------------------------------------------------- letting go

  lemma StepLetsGo(s: State, step: Step)
    requires (s.worker.Gone? ==> s.done == []) && Enabled(s, step)
    ensures Apply(s, step).worker.Gone? ==> Apply(s, step).done == []
  {
    hide CreatorDoes, WorkerDoes;
    if step.ByCreator? { CreatorFacts(s, step.c); } else { WorkerFacts(s, step.w); }
  }

  /** A worker that is gone keeps no task alive. */
  lemma {:induction false} GoneKeepsNothing(states: seq<State>, steps: seq<Step>, n: nat)
    requires Run(states, steps) && states[0] == Initial() && n <= |steps|
    ensures states[n].worker.Gone? ==> states[n].done == []
  {
    hide Enabled, Apply;
    if n > 0 {
      GoneKeepsNothing(states, steps, n - 1);
      StepLetsGo(states[n - 1], steps[n - 1]);
    }
  }

  // ---------------------------------------------------------------- the books record what was done

  /** The task that has passed the guard of stack() and is not in the queue yet. */
  function Pending(pc: CreatorPc): seq<Task> { if pc.Stacking? then [pc.task] else [] }

  function PassedBy(step: Step): seq<Task> {
    if step.ByCreator? && step.c.GuardStack? then [step.c.task] else []
  }

  function CollectedBy(step: Step): nat { if step.ByCreator? && step.c.Collect? then step.c.n else 0 }

  /** unstack() and a turn of the worker's loop each take the oldest task there is. */
  function TakenBy(queue: seq<Task>, step: Step): seq<Exit> {
    if queue == [] then []
    else if step == ByCreator(Unstack) then [Exit(queue[0], false)]
    else if step == ByWorker(NextTask) then [Exit(queue[0], true)]
    else []
  }

  predicate Records(s: State, step: Step, r: State) {
    && r.b.stacked + Pending(r.creator) == s.b.stacked + Pending(s.creator) + PassedBy(step)
    && |r.b.collected| == |s.b.collected| + CollectedBy(step)
    && r.b.exits == s.b.exits + TakenBy(s.b.queue, step)
  }

  function CreatorBooks(s: State, step: CreatorStep): Books
    requires CreatorCan(s, step)
  {
    if step.AddTask? then Enqueue(s.b, s.creator.task)
    else if step.Unstack? && s.b.queue != [] then TakeOff(s.b, false)
    else if step.Collect? && step.n > 0 then GatherUp(s.b, step.n)
    else s.b
  }

  lemma CreatorBooksAre(s: State, step: CreatorStep)
    requires CreatorCan(s, step)
    ensures CreatorDoes(s, step).b == CreatorBooks(s, step)
  {
    hide Roused, Alerted, Enqueue, TakeOff, GatherUp;
  }

  lemma CreatorPending(s: State, step: CreatorStep)
    requires CreatorCan(s, step)
    ensures s.creator.Stacking? <==> step.AddTask?
    ensures var pc := CreatorDoes(s, step).creator;
            (pc.Stacking? <==> step.GuardStack?) && (step.GuardStack? ==> pc == Stacking(step.task))
  {
    hide Roused, Enqueue, TakeOff, GatherUp;
  }

  lemma CreatorRecords(s: State, step: CreatorStep)
    requires CreatorCan(s, step)
    ensures Records(s, ByCreator(step), CreatorDoes(s, step))
  {
    CreatorBooksAre(s, step);
    CreatorPending(s, step);
    hide CreatorDoes;
  }

  lemma TurnBooks(s: State)
    ensures var a, b := Acknowledge(s).b, Turn(s).b;
            b == if a.queue == [] then a else TakeOff(a, true)
    ensures Acknowledge(s).b == (if s.b.collectFlag then Settle(s.b) else s.b)
  {
    hide Roused, Alerted, TakeOff, Settle, Skip;
  }

  /** Waking the creator up does not move it on. */
  predicate SameCall(pc: CreatorPc, pc': CreatorPc) { Pending(pc) == Pending(pc') }

  lemma AlertedSame(pc: CreatorPc)
    ensures SameCall(pc, Alerted(pc)) && SameCall(pc, pc)
  {
  }

  lemma TurnPending(s: State)
    ensures SameCall(s.creator, Turn(s).creator)
  {
    AlertedSame(s.creator);
    hide SameCall, Roused, Alerted, TakeOff, Settle, Skip;
    assert SameCall(s.creator, Acknowledge(s).creator);
    hide Acknowledge;
  }

  lemma WorkerBooksAre(s: State, step: WorkerStep)
    requires WorkerCan(s, step) && !step.NextTask?
    ensures WorkerDoes(s, step).b == if step.HandOver? then PassOn(s.b, s.worker.task) else s.b
  {
    hide Roused, Alerted, PassOn, Turn;
  }

  lemma WorkerPending(s: State, step: WorkerStep)
    requires WorkerCan(s, step) && !step.NextTask?
    ensures SameCall(s.creator, WorkerDoes(s, step).creator)
  {
    AlertedSame(s.creator);
    if step.Booted? {
      hide Turn, Roused, Alerted, PassOn;
    } else {
      hide SameCall, Roused, Alerted, PassOn, Turn;
      if step.MainDone? {
      } else if step.MarkError? || step.Depart? {
      } else if step.HandOver? {
      } else {
      }
    }
  }

  lemma WorkerRecords(s: State, step: WorkerStep)
    requires WorkerCan(s, step)
    ensures Records(s, ByWorker(step), WorkerDoes(s, step))
  {
    if step.NextTask? {
      TurnBooks(s);
      TurnPending(s);
      hide Turn, Acknowledge;
    } else {
      WorkerBooksAre(s, step);
      WorkerPending(s, step);
      hide WorkerDoes;
    }
  }

  function Passed(steps: seq<Step>): seq<Task> {
    if steps == [] then [] else Passed(steps[..|steps| - 1]) + PassedBy(steps[|steps| - 1])
  }

  function CountCollected(steps: seq<Step>): nat {
    if steps == [] then 0 else CountCollected(steps[..|steps| - 1]) + CollectedBy(steps[|steps| - 1])
  }

  /**
    In every run what was stacked is what passed the guard, in that order, but for the one on its way
    into the queue; as many tasks were collected as were asked for; and every call of unstack() and every
    turn of the worker's loop took the oldest task if there was one, and nothing else took any.
    */
  lemma {:induction false} RunRecords(states: seq<State>, steps: seq<Step>, n: nat)
    requires Run(states, steps) && states[0] == Initial() && n <= |steps|
    ensures var s := states[n];
            && s.b.stacked + Pending(s.creator) == Passed(steps[..n])
            && |s.b.collected| == CountCollected(steps[..n])
            && (n > 0 ==> s.b.exits == states[n - 1].b.exits + TakenBy(states[n - 1].b.queue, steps[n - 1]))
  {
    if n > 0 {
      var s, x := states[n - 1], steps[n - 1];
      RunRecords(states, steps, n - 1);
      assert steps[..n][..n - 1] == steps[..n - 1];
      if x.ByCreator? { CreatorRecords(s, x.c); } else { WorkerRecords(s, x.w); }
      hide CreatorDoes, WorkerDoes, CreatorCan, WorkerCan, PassedBy, CollectedBy, TakenBy;
    }
  }
}
