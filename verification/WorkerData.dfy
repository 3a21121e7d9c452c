/**
  pmmpthread_worker_data_t and its operations (src/worker.c) on the linked lists of
  Queue.  The queue item a task arrived in is the very item that later carries it to the
  collector, so it must be in at most one list at any time.  `books` is the state of
  WorkerProtocol that the lists stand for.
  */
module WorkerData {
  import opened Options
  import opened Queue
  import P = WorkerProtocol

  type Task = P.Task

  /** How many tasks from the front a collector accepts before it refuses one. */
  function Leading(s: seq<Task>, accept: Task -> bool): (n: nat)
    ensures n <= |s| && (n < |s| ==> !accept(s[n])) && forall i :: 0 <= i < n ==> accept(s[i])
  {
    if s == [] || !accept(s[0]) then 0
    else
      var n := Leading(s[1..], accept);
      assert forall i :: 0 < i < n + 1 ==> s[i] == s[1..][i - 1];
      1 + n
  }

  lemma LeadingInside(s: seq<Task>, accept: Task -> bool)
    ensures Leading(s, accept) <= |s| && s[0..] == s
  {
  }

  /** The loop of collect(): takes items off the front while the collector accepts them. */
  method ShiftWhile(list: List<Task>, accept: Task -> bool) returns (n: nat)
    requires list.Valid()
    modifies list, list.items
    ensures list.Valid() && n == Leading(old(list.values), accept)
    ensures (forall x | x in list.items :: x in old(list.items)) && list.values == old(list.values)[n..]
  {
    ghost var items, all := list.items, list.values;
    n := 0;
    while list.head != null && accept(list.head.value)
      invariant list.Valid() && n <= |items| && list.items == items[n..] && list.values == all[n..]
      invariant forall i :: 0 <= i < n ==> accept(all[i])
      decreases |items| - n
    {
      var _, _ := list.Shift();
      n := n + 1;
    }
  }

  /** The loop that acknowledges collected tasks; shifting an empty list does nothing. */
  method ShiftTimes(list: List<Task>, n: nat)
    requires list.Valid()
    modifies list, list.items
    ensures list.Valid() && (forall x | x in list.items :: x in old(list.items))
    ensures list.values == P.Skip(old(list.values), n)
  {
    ghost var items, all := list.items, list.values;
    for i := 0 to n
      invariant list.Valid() && list.items == P.Skip(items, i) && list.values == P.Skip(all, i)
    {
      var _, _ := list.Shift();
    }
  }

  class Worker {
    const queue: List<Task>
    const gc: List<Task>
    var running: Item?<Task>
    var tasksCollected: nat
    var collectGarbage: bool
    var joined: bool
    ghost var books: P.Books

    ghost predicate Valid()
      reads this, queue, gc, queue.items, gc.items, if running == null then {} else {running}
    {
      && queue != gc && queue.Valid() && gc.Valid()
      && (forall x | x in queue.items :: x !in gc.items)
      && (running != null ==> running !in queue.items && running !in gc.items)
      && books.queue == queue.values && books.gc == gc.values
      && books.running == (if running == null then None else Some(running.value))
      && books.tally == tasksCollected && books.collectFlag == collectGarbage
    }

    /** The worker's private list shares nothing with the common ones. */
    ghost predicate Apart(done: List<Task>)
      reads this, queue, gc, done
    {
      && done != queue && done != gc
      && forall x | x in done.items :: x !in queue.items && x !in gc.items && x != running
    }

    constructor ()
      ensures Valid() && fresh(queue) && fresh(gc)
      ensures books == P.Initial().b && !joined
    {
      queue := new List<Task>();
      gc := new List<Task>();
      running, tasksCollected, collectGarbage, joined := null, 0, false, false;
      books := P.Initial().b;
    }

    lemma Sizes()
      requires queue.Valid() && gc.Valid()
      ensures queue.size == |queue.values| && gc.size == |gc.values|
    {
    }

    /** stack(): the caller is told whether it has to notify the worker. */
    method AddTask(task: Task) returns (size: int, notify: bool)
      requires Valid()
      modifies this`books, queue, queue.items
      ensures Valid() && books == P.Enqueue(old(books), task)
      ensures size == |books.queue| && notify == (old(books.queue) == [])
      ensures (forall x | x in queue.items :: x in old(queue.items) || fresh(x)) && gc.items == old(gc.items)
    {
      notify := queue.size == 0;
      assert queue.tail != null ==> queue.tail in queue.items;
      assert forall i :: 0 <= i < |gc.items| ==> gc.items[i] != queue.tail;
      queue.PushNew(task);
      assert gc.Valid() && gc.values == books.gc;
      size := queue.size;
      books := P.Enqueue(books, task);
    }

    /** unstack(): the oldest task, if there is one. */
    method DequeueTask() returns (found: bool, task: Task)
      requires Valid()
      modifies this`books, queue, queue.items
      ensures Valid() && found == (old(books.queue) != [])
      ensures books == if found then P.TakeOff(old(books), false) else old(books)
      ensures found ==> task == old(books.queue)[0]
      ensures (forall x | x in queue.items :: x in old(queue.items)) && gc.items == old(gc.items)
    {
      assert forall i :: 0 <= i < |gc.items| ==> gc.items[i] !in queue.items;
      found, task := queue.Shift();
      assert gc.Valid() && gc.values == books.gc;
      if found { books := P.TakeOff(books, false); }
    }

    /** The worker takes the oldest task and keeps its queue item as `running`. */
    method TakeTask() returns (task: Task)
      requires Valid() && books.queue != [] && running == null
      modifies this`books, this`running, queue, queue.items
      ensures Valid() && books == P.TakeOff(old(books), true) && task == old(books.queue)[0]
      ensures running != null && [running] + queue.items == old(queue.items) && gc.items == old(gc.items)
    {
      running := queue.head;
      assert forall i :: 0 <= i < |gc.items| ==> gc.items[i] !in queue.items;
      var _, value := queue.Shift();
      task := value;
      assert gc.Valid() && gc.values == books.gc;
      books := P.TakeOff(books, true);
    }

    /** The finished task's item goes to the collector's list. */
    method HandOver()
      requires Valid() && running != null
      modifies this`books, this`running, gc, gc.items, running
      ensures Valid() && running == null && books == P.PassOn(old(books), old(running.value))
      ensures gc.items == old(gc.items) + [old(running)] && queue.items == old(queue.items)
    {
      assert gc.tail != null ==> gc.tail in gc.items;
      assert forall i :: 0 <= i < |queue.items| ==> queue.items[i] !in gc.items && queue.items[i] != running;
      gc.Push(running);
      assert queue.Valid() && queue.values == books.queue;
      assert gc.values == books.gc + [running.value];
      books := P.PassOn(books, running.value);
      running := null;
    }

    /** collect(): hands the front of the list to the collector until it refuses. */
    method CollectTasks(accept: Task -> bool) returns (remaining: int)
      requires Valid()
      modifies this`books, this`tasksCollected, this`collectGarbage, gc, gc.items
      ensures Valid()
      ensures var n := Leading(old(books.gc), accept);
              books == if n == 0 then old(books) else P.GatherUp(old(books), n)
      ensures remaining == |books.queue| + |books.gc| + (if running != null then 1 else 0)
      ensures (forall x | x in gc.items :: x in old(gc.items)) && queue.items == old(queue.items)
    {
      hide List.Valid;
      assert forall i :: 0 <= i < |queue.items| ==> queue.items[i] !in gc.items;
      var n := ShiftWhile(gc, accept);
      assert queue.Valid();
      if n > 0 {
        tasksCollected := tasksCollected + n;
        collectGarbage := true;
        books := P.GatherUp(books, n);
      }
      assert queue.size == |queue.values| && gc.size == |gc.values| by { Sizes(); }
      remaining := queue.size + gc.size + (if running != null then 1 else 0);
    }

    /** The worker's own list loses as many tasks as were collected, if there are as many. */
    method Acknowledge(done: List<Task>)
      requires Valid() && done.Valid() && Apart(done)
      modifies this`books, this`tasksCollected, this`collectGarbage, done, done.items
      ensures Valid() && done.Valid() && (forall x | x in done.items :: x in old(done.items))
      ensures queue.items == old(queue.items) && gc.items == old(gc.items)
      ensures if old(collectGarbage) then books == P.Settle(old(books))
              && done.values == P.Skip(old(done.values), old(tasksCollected))
              else books == old(books) && done.values == old(done.values)
    {
      if collectGarbage {
        hide List.Valid;
        assert forall i :: 0 <= i < |queue.items| ==> queue.items[i] !in done.items;
        assert forall i :: 0 <= i < |gc.items| ==> gc.items[i] !in done.items;
        ShiftTimes(done, tasksCollected);
        assert queue.Valid() && gc.Valid();
        books := P.Settle(books);
        tasksCollected, collectGarbage := 0, false;
      }
    }

    /** The second half of a turn: take a task, leave, or go to sleep. */
    method Fetch(done: List<Task>) returns (pc: P.WorkerPc)
      requires Valid() && running == null && done.Valid() && Apart(done)
      modifies this`books, this`running, queue, queue.items
      ensures Valid() && done.Valid() && done.items == old(done.items) && gc.items == old(gc.items)
      ensures (forall x | x in queue.items :: x in old(queue.items)) && (running == null || running in old(queue.items))
      ensures if old(books.queue) == []
              then books == old(books) && pc == (if joined then P.Leave else P.Seek(P.Asleep(false)))
              else books == P.TakeOff(old(books), true) && pc == P.Exec(old(books.queue)[0])
    {
      if queue.head == null { return if joined then P.Leave else P.Seek(P.Asleep(false)); }
      assert forall i :: 0 <= i < |done.items| ==> done.items[i] !in queue.items;
      var task := TakeTask();
      pc := P.Exec(task);
    }

    /**
      One turn of pmmpthread_worker_next_task: acknowledge, then take a task, leave, or
      sleep.  TurnOnBooks says that this is the step WorkerProtocol.Turn.
      */
    method NextTask(done: List<Task>) returns (pc: P.WorkerPc)
      requires Valid() && done.Valid() && Apart(done) && running == null
      modifies this`books, this`tasksCollected, this`collectGarbage, this`running, done, done.items, queue, queue.items
      ensures Valid() && done.Valid() && Apart(done) && gc.items == old(gc.items)
      ensures forall x | x in queue.items :: x in old(queue.items)
      ensures forall x | x in done.items :: x in old(done.items)
      ensures running == null || running in old(queue.items)
      ensures done.values == Unacknowledged(old(done.values), old(books)) && Turned(old(books), books, pc, joined)
    {
      Acknowledge(done);
      pc := Fetch(done);
    }

    /** pmmpthread_worker_add_garbage: the task goes to the collector, then into the worker's own list. */
    method AddGarbage(done: List<Task>)
      requires Valid() && done.Valid() && Apart(done) && running != null
      modifies this`books, this`running, gc, gc.items, running, done, done.items
      ensures Valid() && done.Valid() && Apart(done) && running == null
      ensures books == P.PassOn(old(books), old(running.value))
              && done.values == old(done.values) + [old(running.value)]
      ensures gc.items == old(gc.items) + [old(running)] && queue.items == old(queue.items)
      ensures forall x | x in done.items :: x in old(done.items) || fresh(x)
    {
      var task := running.value;
      hide List.Valid;
      assert forall i :: 0 <= i < |done.items| ==> done.items[i] !in gc.items && done.items[i] != running;
      HandOver();
      assert done.Valid() && done.values == old(done.values);
      Record(done, task);
    }

    /** The part of it after the monitor has been released. */
    method Record(done: List<Task>, task: Task)
      requires Valid() && done.Valid() && Apart(done) && running == null
      modifies done, done.items
      ensures Valid() && done.Valid() && Apart(done) && done.values == old(done.values) + [task]
      ensures forall x | x in done.items :: x in old(done.items) || fresh(x)
    {
      assert forall x | x in queue.items || x in gc.items :: x !in done.items;
      assert done.tail != null ==> done.tail in done.items;
      done.PushNew(task);
      assert queue.Valid() && gc.Valid();
    }
  }

  /** What the worker's list holds once collected tasks have been acknowledged. */
  function Unacknowledged(list: seq<Task>, b: P.Books): seq<Task> {
    if b.collectFlag then P.Skip(list, b.tally) else list
  }

  /** What is left of the tally once it has been acknowledged. */
  function Pending(b: P.Books): nat { if b.collectFlag then 0 else b.tally }

  /** Between two turns of the loop in Serve: `i` of the tasks `queued` are done, the next one is `pc`'s. */
  ghost predicate Served(b: P.Books, list: seq<Task>, pc: P.WorkerPc, joined: bool, tally: nat,
                         gc: seq<Task>, base: seq<Task>, queued: seq<Task>, i: nat)
  {
    && i <= |queued| && !b.collectFlag && b.tally == tally && b.gc == gc + queued[..i] && list == base + queued[..i]
    && if i < |queued| then pc == P.Exec(queued[i]) && b.running == Some(queued[i]) && b.queue == queued[i + 1..]
       else pc == (if joined then P.Leave else P.Seek(P.Asleep(false))) && b.running == None && b.queue == []
  }

  // ---------------------------------------------------------------- a worker together with its private list

  /** A worker and the done_tasks_cache of its routine, which no other thread sees. */
  class Routine {
    const worker: Worker
    const done: List<Task>
    ghost var Repr: set<object>

    ghost predicate Valid()
      reads this, Repr
    {
      && {this, worker, worker.queue, worker.gc, done} <= Repr
      && (forall x | x in worker.queue.items :: x in Repr) && (forall x | x in worker.gc.items :: x in Repr)
      && (forall x | x in done.items :: x in Repr) && (worker.running != null ==> worker.running in Repr)
      && worker.Valid() && done.Valid() && worker.Apart(done)
    }

    constructor ()
      ensures Valid() && fresh(Repr) && Books() == P.Initial().b && Kept() == [] && !worker.joined
    {
      worker := new Worker();
      done := new List<Task>();
      new;
      Repr := {this, worker, worker.queue, worker.gc, done};
    }

    ghost function Books(): P.Books
      reads this, Repr
      requires Valid()
    {
      worker.books
    }

    /** The tasks the worker still keeps alive. */
    ghost function Kept(): seq<Task>
      reads this, Repr
      requires Valid()
    {
      done.values
    }

    ghost predicate Joined()
      reads this, Repr
      requires Valid()
    {
      worker.joined
    }

    method Stack(task: Task)
      requires Valid()
      modifies Repr
      ensures Valid() && fresh(Repr - old(Repr))
      ensures Books() == P.Enqueue(old(Books()), task) && Kept() == old(Kept()) && Joined() == old(Joined())
    {
      hide List.Valid;
      assert forall i :: 0 <= i < |done.items| ==> done.items[i] !in worker.queue.items;
      var _, _ := worker.AddTask(task);
      assert done.Valid();
      Repr := Repr + (set x | x in worker.queue.items);
    }

    method Turn() returns (pc: P.WorkerPc)
      requires Valid() && Books().running == None
      modifies Repr
      ensures Valid() && fresh(Repr - old(Repr)) && Joined() == old(Joined())
      ensures Kept() == Unacknowledged(old(Kept()), old(Books()))
      ensures Turned(old(Books()), Books(), pc, Joined())
    {
      hide List.Valid;
      pc := worker.NextTask(done);
    }

    method HandBack()
      requires Valid() && Books().running.Some?
      modifies Repr
      ensures Valid() && fresh(Repr - old(Repr)) && Joined() == old(Joined())
      ensures var t := old(Books()).running.value; Books() == P.PassOn(old(Books()), t) && Kept() == old(Kept()) + [t]
    {
      hide List.Valid;
      worker.AddGarbage(done);
      Repr := Repr + (set x | x in done.items);
    }

    method Collect(accept: Task -> bool) returns (left: int)
      requires Valid()
      modifies Repr
      ensures Valid() && fresh(Repr - old(Repr)) && Kept() == old(Kept()) && Joined() == old(Joined())
      ensures var n := Leading(old(Books()).gc, accept);
              Books() == if n == 0 then old(Books()) else P.GatherUp(old(Books()), n)
      ensures left == |Books().queue| + |Books().gc| + |P.Optional(Books().running)|
    {
      hide List.Valid, Leading;
      assert forall i :: 0 <= i < |done.items| ==> done.items[i] !in worker.gc.items;
      left := worker.CollectTasks(accept);
      assert done.Valid();
    }

    /**
      The loop of a worker's routine while no task fails and nobody else interferes: every
      queued task goes to the collector and into the worker's own list, in order.
      */
    method Serve() returns (pc: P.WorkerPc)
      requires Valid() && Books().running == None
      modifies Repr
      ensures Valid() && fresh(Repr - old(Repr)) && Joined() == old(Joined()) && Books().running == None
      ensures Books().queue == [] && !Books().collectFlag && Books().tally == Pending(old(Books()))
      ensures Books().gc == old(Books()).gc + old(Books()).queue
      ensures Kept() == Unacknowledged(old(Kept()), old(Books())) + old(Books()).queue
      ensures pc == if Joined() then P.Leave else P.Seek(P.Asleep(false))
    {
      hide Valid, Books, Kept, Joined, Served, Unacknowledged, Turned;
      ghost var queued, gc, base := Books().queue, Books().gc, Unacknowledged(Kept(), Books());
      ghost var i, b, list, tally := 0, Books(), Kept(), Pending(Books());
      pc := Turn();
      ServedFirst(b, list, Books(), Kept(), pc, Joined());
      while pc.Exec?
        invariant Valid() && fresh(Repr - old(Repr)) && Joined() == old(Joined())
        invariant Served(Books(), Kept(), pc, Joined(), tally, gc, base, queued, i)
        decreases |queued| - i
      {
        b, list := Books(), Kept();
        ServedExec(b, list, pc, Joined(), tally, gc, base, queued, i);
        HandBack();
        pc := Turn();
        ServedNext(b, list, Books(), Kept(), pc, Joined(), tally, gc, base, queued, i);
        i := i + 1;
      }
      ServedAll(Books(), Kept(), pc, Joined(), tally, gc, base, queued, i);
    }
  }

  /** One turn on the books: acknowledge, then take, leave or sleep. */
  predicate Turned(b: P.Books, b': P.Books, pc: P.WorkerPc, joined: bool) {
    var c := if b.collectFlag then P.Settle(b) else b;
    if c.queue == [] then b' == c && pc == (if joined then P.Leave else P.Seek(P.Asleep(false)))
    else b' == P.TakeOff(c, true) && pc == P.Exec(c.queue[0])
  }

  lemma ServedFirst(b: P.Books, list: seq<Task>, b': P.Books, list': seq<Task>, pc: P.WorkerPc, joined: bool)
    requires b.running == None && list' == Unacknowledged(list, b)
    requires Turned(b, b', pc, joined)
    ensures Served(b', list', pc, joined, Pending(b), b.gc, Unacknowledged(list, b), b.queue, 0)
  {
  }

  lemma ServedExec(b: P.Books, list: seq<Task>, pc: P.WorkerPc, joined: bool, tally: nat,
                   gc: seq<Task>, base: seq<Task>, queued: seq<Task>, i: nat)
    requires Served(b, list, pc, joined, tally, gc, base, queued, i) && pc.Exec?
    ensures i < |queued| && pc.task == queued[i] && b.running == Some(queued[i]) && !b.collectFlag
  {
  }

  lemma ServedNext(b: P.Books, list: seq<Task>, b': P.Books, list': seq<Task>, pc: P.WorkerPc, joined: bool, tally: nat,
                   gc: seq<Task>, base: seq<Task>, queued: seq<Task>, i: nat)
    requires i < |queued| && Served(b, list, P.Exec(queued[i]), joined, tally, gc, base, queued, i)
    requires list' == Unacknowledged(list + [queued[i]], P.PassOn(b, queued[i]))
    requires Turned(P.PassOn(b, queued[i]), b', pc, joined)
    ensures Served(b', list', pc, joined, tally, gc, base, queued, i + 1)
  {
    assert queued[..i + 1] == queued[..i] + [queued[i]];
  }

  lemma ServedAll(b: P.Books, list: seq<Task>, pc: P.WorkerPc, joined: bool, tally: nat,
                  gc: seq<Task>, base: seq<Task>, queued: seq<Task>, i: nat)
    requires Served(b, list, pc, joined, tally, gc, base, queued, i) && !pc.Exec?
    ensures b.queue == [] && b.running == None && !b.collectFlag && b.tally == tally && b.gc == gc + queued
            && list == base + queued
    ensures pc == if joined then P.Leave else P.Seek(P.Asleep(false))
  {
    assert queued[..|queued|] == queued;
  }

  /**
    A worker's life: tasks are stacked, served, collected, and acknowledged in the next turn.
    The worker keeps exactly the tasks from the first one on that the collector refused.
    */
  method Lifecycle(tasks: seq<Task>, accept: Task -> bool) returns (left: int, ghost kept: seq<Task>)
    ensures left == |tasks| - Leading(tasks, accept) && kept == tasks[Leading(tasks, accept)..]
  {
    var r := new Routine();
    hide Routine.Valid, Routine.Books, Routine.Kept, Routine.Joined, Turned, Leading;
    for i := 0 to |tasks|
      invariant r.Valid() && fresh(r.Repr) && r.Kept() == []
      invariant r.Books().queue == tasks[..i] && r.Books().gc == [] && r.Books().running == None
      invariant !r.Books().collectFlag && r.Books().tally == 0
    {
      r.Stack(tasks[i]);
    }
    assert tasks[..|tasks|] == tasks;
    var _ := r.Serve();
    assert r.Books().gc == tasks && r.Kept() == tasks;
    left := r.Collect(accept);
    LeadingInside(tasks, accept);
    var _ := r.Turn();
    kept := r.Kept();
  }

  lemma AcknowledgeOnBooks(s: P.State)
    ensures var a := P.Acknowledge(s);
            && a.b == (if s.b.collectFlag then P.Settle(s.b) else s.b) && a.joined == s.joined
            && a.done == (if s.b.collectFlag then P.Skip(s.done, s.b.tally) else s.done)
  {
    hide P.Roused, P.Alerted, P.Skip, P.Settle;
  }

  lemma TurnOnBooks(s: P.State)
    requires s.worker == P.Seek(P.Awake)
    ensures var r := P.Turn(s); r.done == Unacknowledged(s.done, s.b) && Turned(s.b, r.b, r.worker, s.joined)
  {
    hide P.Broadcast, P.Skip, P.Settle, P.TakeOff;
    AcknowledgeOnBooks(s);
    hide P.Acknowledge;
  }
}
