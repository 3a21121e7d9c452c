/**
  The monitor every shared object carries (src/monitor.c): a recursive mutex, a condition
  variable and a word of state flags.  A wait gives up one level of the lock only, so
  another thread can change the flags meanwhile exactly when that was the last level.
  What other threads do during a wait, and whether the wait fails, is a parameter.
  */
module Monitor {
  import opened Options

  type Tid = nat

  type Flags = bv16

  /** How one wait ends: woken, the flags then being `flags` if others could run; or an error. */
  datatype Event = Wakes(flags: Flags) | Fails

  datatype Outcome = Seen | Failed | Blocked

  const JOINED: Flags := 4
  const COLLECT_GARBAGE: Flags := 32

  /** What the worker's loop finds in one turn, and how its wait ends if it waits. */
  datatype Turn = Turn(hasTask: bool, event: Event)

  datatype Work = Leave | Task | Asleep

  function Masked(flags: Flags, mask: Flags): Flags { flags & mask }

  function With(flags: Flags, mask: Flags): Flags { flags | mask }

  function Without(flags: Flags, mask: Flags): Flags { flags & !mask }

  predicate Has(flags: Flags, mask: Flags) { Masked(flags, mask) != 0 }

  class Lockable {
    var state: Flags
    var owner: Option<Tid>
    var depth: nat
    ghost var waits: seq<nat>             // the lock depth at which each wait was entered

    ghost predicate Valid()
      reads this
    {
      owner.None? <==> depth == 0
    }

    predicate Grantable(me: Tid)
      reads this
    {
      owner.None? || owner == Some(me)
    }

    constructor ()
      ensures Valid() && owner == None && state == 0 && waits == []
    {
      state, owner, depth, waits := 0, None, 0, [];
    }

    /** The moment the mutex is granted. */
    method Lock(me: Tid)
      requires Valid() && Grantable(me)
      modifies this`owner, this`depth
      ensures Valid() && owner == Some(me) && depth == old(depth) + 1
    {
      owner, depth := Some(me), depth + 1;
    }

    method Unlock(me: Tid) returns (ok: bool)
      requires Valid()
      modifies this`owner, this`depth
      ensures Valid() && (ok <==> old(owner) == Some(me))
      ensures ok ==> depth == old(depth) - 1 && owner == if old(depth) == 1 then None else Some(me)
      ensures !ok ==> owner == old(owner) && depth == old(depth)
    {
      ok := owner == Some(me);
      if ok {
        depth := depth - 1;
        if depth == 0 { owner := None; }
      }
    }

    method Check(me: Tid, mask: Flags) returns (r: Flags)
      requires Valid() && Grantable(me)
      modifies this`owner, this`depth
      ensures Valid() && owner == old(owner) && depth == old(depth)
      ensures r == Masked(state, mask) && (r != 0 <==> Has(state, mask))
    {
      Lock(me);
      r := state & mask;
      var _ := Unlock(me);
    }

    method Add(me: Tid, mask: Flags)
      requires Valid() && Grantable(me)
      modifies this`owner, this`depth, this`state
      ensures Valid() && owner == old(owner) && depth == old(depth) && state == With(old(state), mask)
    {
      Lock(me);
      state := state | mask;
      var _ := Unlock(me);
    }

    method Remove(me: Tid, mask: Flags)
      requires Valid() && Grantable(me)
      modifies this`owner, this`depth, this`state
      ensures Valid() && owner == old(owner) && depth == old(depth) && state == Without(old(state), mask)
    {
      Lock(me);
      state := state & !mask;
      var _ := Unlock(me);
    }

    /** The first half of pthread_cond_wait: one level is given up. */
    method Sleep(me: Tid)
      requires Valid() && owner == Some(me)
      modifies this`owner, this`depth, this`waits
      ensures Valid() && depth == old(depth) - 1 && (owner == if depth == 0 then None else Some(me))
      ensures waits == old(waits) + [old(depth)]
    {
      waits := waits + [depth];
      var _ := Unlock(me);
    }

    /** The second half: if the mutex was free others have run, and it is taken again. */
    method Resume(me: Tid, event: Event) returns (ok: bool)
      requires Valid() && Grantable(me)
      modifies this`owner, this`depth, this`state
      ensures Valid() && owner == Some(me) && depth == old(depth) + 1 && ok == event.Wakes?
      ensures state == Observed(old(state), old(depth) > 0, event)
    {
      if owner.None? && event.Wakes? { state := event.flags; }
      Lock(me);
      ok := event.Wakes?;
    }

    /** pmmpthread_monitor_wait_until.  `Blocked` is the thread still asleep when the events run out. */
    method WaitUntil(me: Tid, mask: Flags, events: seq<Event>) returns (outcome: Outcome)
      requires Valid() && Grantable(me)
      modifies this
      ensures Valid() && owner == old(owner) && depth == old(depth)
      ensures outcome == Result(old(state), mask, old(depth) > 0, events)
      ensures outcome == Seen ==> Has(state, mask)
      ensures WaitedAt(old(waits), waits, old(depth) + 1)
    {
      assert WaitedAt(waits, waits, depth + 1);
      assert events[0..] == events;
      hide Has, Result, WaitedAt, Observed;
      var k := 0;
      Lock(me);
      while true
        invariant 0 <= k <= |events| && Valid() && owner == Some(me) && depth == old(depth) + 1
        invariant Result(old(state), mask, old(depth) > 0, events) == Result(state, mask, old(depth) > 0, events[k..])
        invariant WaitedAt(old(waits), waits, old(depth) + 1)
        decreases |events| - k
      {
        Unfold(state, mask, old(depth) > 0, events, k);
        var seen := Check(me, mask);
        if seen != 0 { outcome := Seen; break; }
        WaitedOnce(old(waits), waits, old(depth) + 1);
        Sleep(me);
        if k == |events| { return Blocked; }
        var ok := Resume(me, events[k]);
        k := k + 1;
        if !ok { outcome := Failed; break; }
      }
      var _ := Unlock(me);
    }

    /** The worker takes note of collected tasks and clears the flag. */
    method Acknowledge(me: Tid)
      requires Valid() && Grantable(me)
      modifies this`owner, this`depth, this`state
      ensures Valid() && owner == old(owner) && depth == old(depth)
      ensures state == Without(old(state), COLLECT_GARBAGE) && !Has(state, COLLECT_GARBAGE)
      ensures Has(state, JOINED) <==> Has(old(state), JOINED)
    {
      Cleared(state, COLLECT_GARBAGE);
      FlagsApart();
      WithoutClears(state, COLLECT_GARBAGE, JOINED);
      assert Has(Without(state, COLLECT_GARBAGE), JOINED) <==> Has(state, JOINED);
      hide Has, Masked, Without;
      var collect := Check(me, COLLECT_GARBAGE);
      if collect != 0 { Remove(me, COLLECT_GARBAGE); }
    }

    /** One call of pmmpthread_worker_next_task, as far as the monitor is concerned.  `Asleep` is
        the worker still in its wait when the turns run out. */
    method NextTask(me: Tid, turns: seq<Turn>) returns (work: Work)
      requires Valid() && Grantable(me) && turns != []
      modifies this
      ensures Valid() && owner == old(owner) && depth == old(depth)
      ensures work == Found(old(state), old(depth) > 0, turns)
      ensures !Has(state, COLLECT_GARBAGE) && (work == Leave ==> Has(state, JOINED))
      ensures Has(old(state), JOINED) && !turns[0].hasTask ==> work == Leave && Has(state, JOINED)
      ensures WaitedAt(old(waits), waits, old(depth) + 1)
    {
      assert WaitedAt(waits, waits, depth + 1);
      assert turns[0..] == turns;
      JoinedLeaves(state, depth > 0, turns);
      hide Has, Found, WaitedAt, Observed, Masked, Without;
      var k := 0;
      Lock(me);
      while true
        invariant 0 <= k < |turns| && Valid() && owner == Some(me) && depth == old(depth) + 1
        invariant Found(old(state), old(depth) > 0, turns) == Found(state, old(depth) > 0, turns[k..])
        invariant WaitedAt(old(waits), waits, old(depth) + 1)
        decreases |turns| - k
      {
        UnfoldFound(state, old(depth) > 0, turns, k);
        Acknowledge(me);
        if turns[k].hasTask { work := Task; break; }
        var joined := Check(me, JOINED);
        if joined != 0 { work := Leave; break; }
        WaitedOnce(old(waits), waits, old(depth) + 1);
        Sleep(me);
        if k == |turns| - 1 { return Asleep; }
        var _ := Resume(me, turns[k].event);
        k := k + 1;
      }
      var _ := Unlock(me);
    }
  }

  /** What the loop of pmmpthread_worker_next_task comes to; a failed wait is just another turn. */
  function Found(flags: Flags, held: bool, turns: seq<Turn>): Work
    requires turns != []
    decreases |turns|
  {
    var flags := Without(flags, COLLECT_GARBAGE);
    if turns[0].hasTask then Task
    else if Has(flags, JOINED) then Leave
    else if |turns| == 1 then Asleep
    else Found(Observed(flags, held, turns[0].event), held, turns[1..])
  }

  /** A task comes first; without one a worker that is joined leaves, whatever else is set. */
  lemma JoinedLeaves(flags: Flags, held: bool, turns: seq<Turn>)
    requires turns != []
    ensures turns[0].hasTask ==> Found(flags, held, turns) == Task
    ensures !turns[0].hasTask && Has(flags, JOINED) ==> Found(flags, held, turns) == Leave
  {
    FlagsApart();
    WithoutClears(flags, COLLECT_GARBAGE, JOINED);
  }

  lemma UnfoldFound(flags: Flags, held: bool, turns: seq<Turn>, k: nat)
    requires k < |turns|
    ensures var f := Without(flags, COLLECT_GARBAGE);
            Found(flags, held, turns[k..]) ==
            if turns[k].hasTask then Task
            else if Has(f, JOINED) then Leave
            else if k == |turns| - 1 then Asleep
            else Found(Observed(f, held, turns[k].event), held, turns[k + 1..])
  {
    assert turns[k..][0] == turns[k] && turns[k..][1..] == turns[k + 1..];
  }

  /** Setting flags sets them and no other. */
  lemma WithSets(flags: Flags, mask: Flags, other: Flags)
    ensures Masked(With(flags, mask), mask) == mask
    ensures other & mask == 0 ==> Masked(With(flags, mask), other) == Masked(flags, other)
  {
  }

  /** Clearing flags clears them and no other. */
  lemma WithoutClears(flags: Flags, mask: Flags, other: Flags)
    ensures !Has(Without(flags, mask), mask)
    ensures other & mask == 0 ==> Masked(Without(flags, mask), other) == Masked(flags, other)
  {
  }

  /** The flags are bits of one word, all different. */
  lemma FlagsApart()
    ensures JOINED & COLLECT_GARBAGE == 0 && JOINED != 0 && COLLECT_GARBAGE != 0
  {
  }

  lemma Cleared(flags: Flags, mask: Flags)
    ensures !Has(Without(flags, mask), mask) && (!Has(flags, mask) ==> Without(flags, mask) == flags)
  {
  }

  /** `now` adds to `before` waits entered at lock depth `depth`. */
  predicate WaitedAt(before: seq<nat>, now: seq<nat>, depth: nat) {
    && |before| <= |now| && now[..|before|] == before
    && forall k :: |before| <= k < |now| ==> now[k] == depth
  }

  lemma WaitedOnce(before: seq<nat>, now: seq<nat>, depth: nat)
    requires WaitedAt(before, now, depth)
    ensures WaitedAt(before, now + [depth], depth)
  {
    assert (now + [depth])[..|before|] == now[..|before|];
  }

  lemma Unfold(flags: Flags, mask: Flags, held: bool, events: seq<Event>, k: nat)
    requires k <= |events|
    ensures Has(flags, mask) ==> Result(flags, mask, held, events[k..]) == Seen
    ensures !Has(flags, mask) && k == |events| ==> Result(flags, mask, held, events[k..]) == Blocked
    ensures !Has(flags, mask) && k < |events| ==>
              Result(flags, mask, held, events[k..]) ==
              if events[k].Fails? then Failed
              else Result(Observed(flags, held, events[k]), mask, held, events[k + 1..])
  {
    if k < |events| { assert events[k..][1..] == events[k + 1..]; }
  }

  // ---------------------------------------------------------------- what a wait can see

  function Observed(flags: Flags, held: bool, event: Event): Flags {
    if event.Wakes? && !held then event.flags else flags
  }

  function Result(flags: Flags, mask: Flags, held: bool, events: seq<Event>): Outcome
    decreases |events|
  {
    if Has(flags, mask) then Seen
    else if events == [] then Blocked
    else if events[0].Fails? then Failed
    else Result(Observed(flags, held, events[0]), mask, held, events[1..])
  }

  /** The flag is there after `k` wakeups, none of the waits having failed. */
  predicate SeenAfter(flags: Flags, mask: Flags, events: seq<Event>, k: nat)
    requires k <= |events|
  {
    && (forall i :: 0 <= i < k ==> events[i].Wakes?)
    && Has(if k == 0 then flags else events[k - 1].flags, mask)
  }

  /** Entered with the monitor free, the loop returns as soon as the flag has been set, and only then. */
  lemma {:induction false} FreeWaitSeesIff(flags: Flags, mask: Flags, events: seq<Event>)
    ensures Result(flags, mask, false, events) == Seen <==>
              exists k :: 0 <= k <= |events| && SeenAfter(flags, mask, events, k)
    decreases |events|
  {
    if Has(flags, mask) {
      assert SeenAfter(flags, mask, events, 0);
    } else if events != [] && events[0].Wakes? {
      var next := events[0].flags;
      var rest := events[1..];
      FreeWaitSeesIff(next, mask, rest);
      if k :| 0 <= k <= |rest| && SeenAfter(next, mask, rest, k) {
        assert SeenAfter(flags, mask, events, k + 1);
      }
      if k :| 0 <= k <= |events| && SeenAfter(flags, mask, events, k) {
        assert SeenAfter(next, mask, rest, k - 1);
      }
    }
  }

  /** Entered with the monitor already held, the loop can only return on a flag that was set before. */
  lemma {:induction false} HeldWaitSeesIff(flags: Flags, mask: Flags, events: seq<Event>)
    ensures Result(flags, mask, true, events) == Seen <==> Has(flags, mask)
    decreases |events|
  {
    if !Has(flags, mask) && events != [] && events[0].Wakes? { HeldWaitSeesIff(flags, mask, events[1..]); }
  }

  /** It reports a failure if and only if some wait failed and the flag had not been seen. */
  lemma {:induction false} WaitFailsIff(flags: Flags, mask: Flags, held: bool, events: seq<Event>)
    ensures var r := Result(flags, mask, held, events);
            r == Failed <==> r != Seen && exists i :: 0 <= i < |events| && events[i].Fails?
    decreases |events|
  {
    if !Has(flags, mask) && events != [] && events[0].Wakes? {
      var rest := events[1..];
      WaitFailsIff(Observed(flags, held, events[0]), mask, held, rest);
      if i :| 0 <= i < |events| && events[i].Fails? { assert rest[i - 1].Fails?; }
      if i :| 0 <= i < |rest| && rest[i].Fails? { assert events[i + 1].Fails?; }
    }
  }

  // ---------------------------------------------------------------- what the worker's loop comes to

  /** The flags as turn `k` finds them: those of the last wakeup, if the monitor was free. */
  function FlagsAt(flags: Flags, held: bool, turns: seq<Turn>, k: nat): Flags
    requires k <= |turns|
  {
    if k == 0 then flags else Observed(FlagsAt(flags, held, turns, k - 1), held, turns[k - 1].event)
  }

  /** Turn `k` ends the loop: there is a task, or the worker is joined. */
  predicate Ends(flags: Flags, held: bool, turns: seq<Turn>, k: nat)
    requires k < |turns|
  {
    turns[k].hasTask || Has(FlagsAt(flags, held, turns, k), JOINED)
  }

  lemma {:induction false} FlagsAtTail(flags: Flags, held: bool, turns: seq<Turn>, k: nat)
    requires k < |turns|
    ensures FlagsAt(Observed(flags, held, turns[0].event), held, turns[1..], k) == FlagsAt(flags, held, turns, k + 1)
  {
    if k > 0 { FlagsAtTail(flags, held, turns, k - 1); }
  }

  lemma FoundForgets(flags: Flags, held: bool, turns: seq<Turn>)
    requires turns != []
    ensures Found(Without(flags, COLLECT_GARBAGE), held, turns) == Found(flags, held, turns)
  {
    hide Observed;
    Cleared(Without(flags, COLLECT_GARBAGE), COLLECT_GARBAGE);
  }

  /**
    The first turn that finds a task or JOINED decides, a task coming first, and a failed wait is
    just another turn; without such a turn the worker is still asleep.
    */
  lemma {:induction false} FoundIs(flags: Flags, held: bool, turns: seq<Turn>, k: nat)
    requires k < |turns| && forall j :: 0 <= j < k ==> !Ends(flags, held, turns, j)
    ensures Ends(flags, held, turns, k) ==> Found(flags, held, turns) == if turns[k].hasTask then Task else Leave
    ensures !Ends(flags, held, turns, k) && k == |turns| - 1 ==> Found(flags, held, turns) == Asleep
    decreases k
  {
    FlagsApart();
    WithoutClears(flags, COLLECT_GARBAGE, JOINED);
    if k > 0 {
      assert !Ends(flags, held, turns, 0);
      var next, rest := Observed(flags, held, turns[0].event), turns[1..];
      forall j | 0 <= j < k ensures Ends(next, held, rest, j) <==> Ends(flags, held, turns, j + 1) {
        FlagsAtTail(flags, held, turns, j);
      }
      FoundIs(next, held, rest, k - 1);
      FoundForgets(next, held, rest);
      FoundForgets(Observed(Without(flags, COLLECT_GARBAGE), held, turns[0].event), held, rest);
      hide Has, Masked, Found;
    }
  }
}
