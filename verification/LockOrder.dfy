/**
  The order in which threads take locks inside one another (src/object.c, src/store.c).
  Elsewhere a section under a lock is one step; here every acquisition is a step of its
  own.  Freeing a connection takes the global lock and then the object's monitor;
  restoring an object reference takes the monitor and then the global lock; a merge takes
  the monitors of both arrays.  Locks are recursive.
  */
module LockOrder {
  type Tid = nat

  datatype Lock = Global | Monitor(o: nat)

  /** The locks each thread takes, one inside the other. */
  type Programs = map<Tid, seq<Lock>>

  /** A thread holds the first `n` of its locks, and is taking more or giving them back. */
  datatype Place = Taking(n: nat) | Leaving(n: nat)

  type State = map<Tid, Place>

  datatype Step = Take(t: Tid) | Release(t: Tid)

  function Locks(ps: Programs, t: Tid): seq<Lock> { if t in ps then ps[t] else [] }

  /** What the thread takes after its first `n` locks. */
  function Next(ps: Programs, t: Tid, n: nat): Lock { if n < |Locks(ps, t)| then Locks(ps, t)[n] else Global }

  /** The lock is among the thread's first `n`. */
  predicate Had(ps: Programs, t: Tid, n: nat, l: Lock) {
    exists i :: 0 <= i < n && i < |Locks(ps, t)| && Locks(ps, t)[i] == l
  }

  function Initial(ps: Programs): State { map t | t in ps :: Taking(0) }

  /** A lock can be taken unless another thread has it. */
  predicate Free(ps: Programs, s: State, t: Tid, l: Lock) { forall u | u in s && u != t :: !Had(ps, u, s[u].n, l) }

  predicate Enabled(ps: Programs, s: State, step: Step) {
    && step.t in s
    && match step
       case Take(t) => s[t].Taking? && s[t].n < |Locks(ps, t)| && Free(ps, s, t, Next(ps, t, s[t].n))
       case Release(t) => 0 < s[t].n && (s[t].Leaving? || s[t].n == |Locks(ps, t)|)
  }

  function Apply(s: State, step: Step): State {
    if step.t !in s then s
    else if step.Take? then s[step.t := Taking(s[step.t].n + 1)]
    else if s[step.t].n > 0 then s[step.t := Leaving(s[step.t].n - 1)]
    else s
  }

  predicate Run(ps: Programs, states: seq<State>, steps: seq<Step>) {
    && |states| == |steps| + 1 && states[0] == Initial(ps)
    && forall i :: 0 <= i < |steps| ==> Enabled(ps, states[i], steps[i]) && states[i + 1] == Apply(states[i], steps[i])
  }

  // ---------------------------------------------------------------- deadlock

  /** The thread still wants a lock, and thread `u` has it. */
  predicate WaitsFor(ps: Programs, s: State, t: Tid, u: Tid) {
    && t != u && t in s && u in s && s[t].Taking? && s[t].n < |Locks(ps, t)|
    && Had(ps, u, s[u].n, Next(ps, t, s[t].n))
  }

  predicate WaitsAmong(ps: Programs, s: State, t: Tid, stuck: set<Tid>) {
    exists u | u in stuck :: WaitsFor(ps, s, t, u)
  }

  /** Each of these threads waits for another of them. */
  predicate Deadlocked(ps: Programs, s: State, stuck: set<Tid>) {
    stuck != {} && forall t | t in stuck :: WaitsAmong(ps, s, t, stuck)
  }

  ghost predicate CanDeadlock(ps: Programs) {
    exists states: seq<State>, steps: seq<Step>, stuck: set<Tid> ::
      Run(ps, states, steps) && Deadlocked(ps, states[|steps|], stuck)
  }

  predicate Clash(ps: Programs, t: Tid, n: nat, u: Tid, m: nat) {
    exists i :: 0 <= i < n && i < |Locks(ps, t)| && Had(ps, u, m, Locks(ps, t)[i])
  }

  predicate Wanted(ps: Programs, cut: map<Tid, nat>, t: Tid)
    requires t in cut
  {
    exists u | u in cut :: u != t && Had(ps, u, cut[u], Next(ps, t, cut[t]))
  }

  /** Places in the programs, reached without conflict, at which each thread wants what another has. */
  predicate Cut(ps: Programs, cut: map<Tid, nat>) {
    && cut.Keys != {} && (forall t | t in cut :: t in ps && cut[t] < |Locks(ps, t)|)
    && (forall t, u | t in cut && u in cut && t != u :: !Clash(ps, t, cut[t], u, cut[u]))
    && (forall t | t in cut :: Wanted(ps, cut, t))
  }

  // ---------------------------------------------------------------- a lock has one holder

  predicate Exclusive(ps: Programs, s: State) {
    && s.Keys == ps.Keys && (forall t | t in s :: s[t].n <= |Locks(ps, t)|)
    && forall t, u | t in s && u in s && t != u :: !Clash(ps, t, s[t].n, u, s[u].n)
  }

  lemma ClashBack(ps: Programs, t: Tid, n: nat, u: Tid, m: nat)
    ensures Clash(ps, t, n, u, m) <==> Clash(ps, u, m, t, n)
  {
    if Clash(ps, t, n, u, m) {
      var i :| 0 <= i < n && i < |Locks(ps, t)| && Had(ps, u, m, Locks(ps, t)[i]);
      var j :| 0 <= j < m && j < |Locks(ps, u)| && Locks(ps, u)[j] == Locks(ps, t)[i];
      assert Had(ps, t, n, Locks(ps, u)[j]);
    }
    if Clash(ps, u, m, t, n) {
      var i :| 0 <= i < m && i < |Locks(ps, u)| && Had(ps, t, n, Locks(ps, u)[i]);
      var j :| 0 <= j < n && j < |Locks(ps, t)| && Locks(ps, t)[j] == Locks(ps, u)[i];
      assert Had(ps, u, m, Locks(ps, t)[j]);
    }
  }

  lemma StepApart(ps: Programs, s: State, step: Step, u: Tid)
    requires Exclusive(ps, s) && Enabled(ps, s, step) && u in s && u != step.t
    ensures !Clash(ps, step.t, Apply(s, step)[step.t].n, u, s[u].n)
  {
    hide Had;
    assert !Clash(ps, step.t, s[step.t].n, u, s[u].n);
  }

  lemma StepExclusive(ps: Programs, s: State, step: Step)
    requires Exclusive(ps, s) && Enabled(ps, s, step)
    ensures Exclusive(ps, Apply(s, step))
  {
    var t, r := step.t, Apply(s, step);
    forall u | u in s && u != t ensures !Clash(ps, t, r[t].n, u, r[u].n) && !Clash(ps, u, r[u].n, t, r[t].n) {
      StepApart(ps, s, step, u);
      ClashBack(ps, t, r[t].n, u, r[u].n);
    }
    hide Clash;
  }

  lemma StartExclusive(ps: Programs)
    ensures Exclusive(ps, Initial(ps))
  {
  }

  lemma {:induction false} RunExclusive(ps: Programs, states: seq<State>, steps: seq<Step>, i: nat)
    requires Run(ps, states, steps) && i <= |steps|
    ensures Exclusive(ps, states[i])
  {
    hide Enabled, Apply, Exclusive;
    if i == 0 {
      StartExclusive(ps);
    } else {
      RunExclusive(ps, states, steps, i - 1);
      StepExclusive(ps, states[i - 1], steps[i - 1]);
    }
  }

  // ---------------------------------------------------------------- a deadlock is a cut

  function PlacesOf(s: State, stuck: set<Tid>): map<Tid, nat> { map t | t in stuck && t in s :: s[t].n }

  lemma StuckAt(ps: Programs, s: State, stuck: set<Tid>, t: Tid)
    requires Deadlocked(ps, s, stuck) && t in stuck
    ensures t in s && s[t].Taking? && s[t].n < |Locks(ps, t)|
  {
    hide Had;
    assert WaitsAmong(ps, s, t, stuck);
  }

  lemma StuckWants(ps: Programs, s: State, stuck: set<Tid>, t: Tid)
    requires Deadlocked(ps, s, stuck) && t in stuck && t in s
    ensures Wanted(ps, PlacesOf(s, stuck), t)
  {
    hide Had;
    assert WaitsAmong(ps, s, t, stuck);
    var u :| u in stuck && WaitsFor(ps, s, t, u);
    assert u in PlacesOf(s, stuck);
  }

  lemma DeadlockIsCut(ps: Programs, s: State, stuck: set<Tid>)
    requires Exclusive(ps, s) && Deadlocked(ps, s, stuck)
    ensures Cut(ps, PlacesOf(s, stuck))
  {
    hide Clash, WaitsAmong, Wanted;
    var cut := PlacesOf(s, stuck);
    forall t | t in stuck ensures t in s && t in cut && s[t].n < |Locks(ps, t)| && Wanted(ps, cut, t) {
      StuckAt(ps, s, stuck, t);
      StuckWants(ps, s, stuck, t);
    }
    assert cut.Keys == stuck;
  }

  // ---------------------------------------------------------------- a cut is reached

  /** The threads in `there` stand at the cut, thread `t` holds `k` locks, all others none. */
  function Half(ps: Programs, cut: map<Tid, nat>, there: set<Tid>, t: Tid, k: nat): State {
    map u | u in ps :: Taking(if u == t then k else if u in there && u in cut then cut[u] else 0)
  }

  lemma WayFree(ps: Programs, cut: map<Tid, nat>, t: Tid, u: Tid, k: nat)
    requires Cut(ps, cut) && t in cut && u in cut && t != u && k < cut[t]
    ensures !Had(ps, u, cut[u], Next(ps, t, k))
  {
    hide Had, Wanted;
    assert !Clash(ps, t, cut[t], u, cut[u]);
  }

  lemma HalfMoves(ps: Programs, cut: map<Tid, nat>, there: set<Tid>, t: Tid, k: nat)
    requires t in ps
    ensures var s := Half(ps, cut, there, t, k);
            t in s && s[t] == Taking(k) && Apply(s, Take(t)) == Half(ps, cut, there, t, k + 1)
  {
  }

  lemma HalfFree(ps: Programs, cut: map<Tid, nat>, there: set<Tid>, t: Tid, k: nat)
    requires Cut(ps, cut) && there <= cut.Keys && t in cut && t !in there && k < cut[t]
    ensures Free(ps, Half(ps, cut, there, t, k), t, Next(ps, t, k))
  {
    var s := Half(ps, cut, there, t, k);
    hide Cut, Next;
    forall u | u in s && u != t ensures !Had(ps, u, s[u].n, Next(ps, t, k)) {
      if u in there { hide Had; WayFree(ps, cut, t, u, k); }
    }
  }

  lemma CutInside(ps: Programs, cut: map<Tid, nat>, t: Tid)
    requires Cut(ps, cut) && t in cut
    ensures t in ps && cut[t] < |Locks(ps, t)|
  {
  }

  lemma HalfTakes(ps: Programs, cut: map<Tid, nat>, there: set<Tid>, t: Tid, k: nat)
    requires Cut(ps, cut) && there <= cut.Keys && t in cut && t !in there && k < cut[t]
    ensures var s := Half(ps, cut, there, t, k);
            Enabled(ps, s, Take(t)) && Apply(s, Take(t)) == Half(ps, cut, there, t, k + 1)
  {
    hide Cut, Half, Apply, Free, Next;
    CutInside(ps, cut, t);
    HalfMoves(ps, cut, there, t, k);
    HalfFree(ps, cut, there, t, k);
  }

  lemma RunPush(ps: Programs, states: seq<State>, steps: seq<Step>, step: Step, next: State)
    requires Run(ps, states, steps) && Enabled(ps, states[|steps|], step) && next == Apply(states[|steps|], step)
    ensures Run(ps, states + [next], steps + [step])
  {
    var s, x := states + [next], steps + [step];
    hide Enabled, Apply;
    forall i | 0 <= i < |x| ensures Enabled(ps, s[i], x[i]) && s[i + 1] == Apply(s[i], x[i]) {
      if i < |steps| { assert s[i] == states[i] && s[i + 1] == states[i + 1] && x[i] == steps[i]; }
    }
  }

  /** A run, of which only its last state matters. */
  ghost predicate Reachable(ps: Programs, s: State) {
    exists states: seq<State>, steps: seq<Step> :: Run(ps, states, steps) && states[|steps|] == s
  }

  lemma StartReachable(ps: Programs)
    ensures Reachable(ps, Initial(ps))
  {
    assert Run(ps, [Initial(ps)], []);
  }

  lemma StepReachable(ps: Programs, s: State, step: Step)
    requires Reachable(ps, s) && Enabled(ps, s, step)
    ensures Reachable(ps, Apply(s, step))
  {
    hide Enabled, Apply;
    var states, steps :| Run(ps, states, steps) && states[|steps|] == s;
    RunPush(ps, states, steps, step, Apply(s, step));
    assert (states + [Apply(s, step)])[|steps + [step]|] == Apply(s, step);
  }

  /** Thread `t` goes to its place in the cut. */
  lemma {:induction false} Advance(ps: Programs, cut: map<Tid, nat>, there: set<Tid>, t: Tid, k: nat)
    requires Cut(ps, cut) && there <= cut.Keys && t in cut && t !in there && k <= cut[t]
    requires Reachable(ps, Half(ps, cut, there, t, 0))
    ensures Reachable(ps, Half(ps, cut, there, t, k))
  {
    hide Half, Enabled, Apply, Reachable, Cut;
    if k > 0 {
      Advance(ps, cut, there, t, k - 1);
      HalfTakes(ps, cut, there, t, k - 1);
      StepReachable(ps, Half(ps, cut, there, t, k - 1), Take(t));
    }
  }

  lemma HalfNone(ps: Programs, cut: map<Tid, nat>, t: Tid)
    ensures Half(ps, cut, {}, t, 0) == Initial(ps)
  {
  }

  lemma HalfNext(ps: Programs, cut: map<Tid, nat>, there: set<Tid>, t: Tid, u: Tid)
    requires u in cut && u in there && t !in there
    ensures Half(ps, cut, there - {u}, u, cut[u]) == Half(ps, cut, there, t, 0)
  {
  }

  /** Taking only locks the others of the cut do not hold there, all of them get there. */
  lemma {:induction false} Gather(ps: Programs, cut: map<Tid, nat>, there: set<Tid>, t: Tid)
    requires Cut(ps, cut) && there <= cut.Keys && t in cut && t !in there
    ensures Reachable(ps, Half(ps, cut, there, t, 0))
    decreases there
  {
    hide Half, Reachable, Cut;
    if there == {} {
      StartReachable(ps);
      HalfNone(ps, cut, t);
    } else {
      var u :| u in there;
      HalfNext(ps, cut, there, t, u);
      Gather(ps, cut, there - {u}, u);
      Advance(ps, cut, there - {u}, u, cut[u]);
    }
  }

  lemma HalfAt(ps: Programs, cut: map<Tid, nat>, t: Tid, u: Tid)
    requires Cut(ps, cut) && t in cut && u in cut
    ensures var s := Half(ps, cut, cut.Keys - {t}, t, cut[t]); u in s && s[u] == Taking(cut[u])
  {
    hide Clash, Wanted;
  }

  lemma CutWants(ps: Programs, cut: map<Tid, nat>, u: Tid) returns (v: Tid)
    requires Cut(ps, cut) && u in cut
    ensures v in cut && v != u && Had(ps, v, cut[v], Next(ps, u, cut[u]))
  {
    assert Wanted(ps, cut, u);
    hide Had, Clash, Next;
    v :| v in cut && v != u && Had(ps, v, cut[v], Next(ps, u, cut[u]));
  }

  lemma CutStuck(ps: Programs, cut: map<Tid, nat>, t: Tid, u: Tid)
    requires Cut(ps, cut) && t in cut && u in cut
    ensures WaitsAmong(ps, Half(ps, cut, cut.Keys - {t}, t, cut[t]), u, cut.Keys)
  {
    hide Had, Cut, Half, Next;
    var v := CutWants(ps, cut, u);
    CutInside(ps, cut, u);
    HalfAt(ps, cut, t, u);
    HalfAt(ps, cut, t, v);
    assert v in cut.Keys && WaitsFor(ps, Half(ps, cut, cut.Keys - {t}, t, cut[t]), u, v);
  }

  lemma CutIsReached(ps: Programs, cut: map<Tid, nat>, t: Tid)
    requires Cut(ps, cut) && t in cut
    ensures var s := Half(ps, cut, cut.Keys - {t}, t, cut[t]); Reachable(ps, s) && Deadlocked(ps, s, cut.Keys)
  {
    hide Half, Reachable, Cut, WaitsAmong;
    Gather(ps, cut, cut.Keys - {t}, t);
    Advance(ps, cut, cut.Keys - {t}, t, cut[t]);
    forall u | u in cut.Keys ensures WaitsAmong(ps, Half(ps, cut, cut.Keys - {t}, t, cut[t]), u, cut.Keys) {
      CutStuck(ps, cut, t, u);
    }
  }

  /** Threads can deadlock if and only if their programs have a cut. */
  lemma DeadlockIff(ps: Programs)
    ensures CanDeadlock(ps) <==> exists cut :: Cut(ps, cut)
  {
    hide Deadlocked, Enabled, Apply, Half;
    if CanDeadlock(ps) {
      var states: seq<State>, steps: seq<Step>, stuck: set<Tid> :|
        Run(ps, states, steps) && Deadlocked(ps, states[|steps|], stuck);
      RunExclusive(ps, states, steps, |steps|);
      hide Cut;
      DeadlockIsCut(ps, states[|steps|], stuck);
    }
    if cut :| Cut(ps, cut) {
      var t :| t in cut;
      hide Cut;
      CutIsReached(ps, cut, t);
      var states, steps :| Run(ps, states, steps) && states[|steps|] == Half(ps, cut, cut.Keys - {t}, t, cut[t]);
      assert Deadlocked(ps, states[|steps|], cut.Keys);
    }
  }

  // ---------------------------------------------------------------- what follows for any programs

  predicate Finished(ps: Programs, s: State, t: Tid) { t in s && (s[t] == Leaving(0) || |Locks(ps, t)| == 0) }

  lemma BlockedBy(ps: Programs, s: State, u: Tid) returns (v: Tid)
    requires u in s && s[u].n <= |Locks(ps, u)| && !Finished(ps, s, u)
    requires !Enabled(ps, s, Release(u)) && !Enabled(ps, s, Take(u))
    ensures v in s && WaitsFor(ps, s, u, v) && !Finished(ps, s, v)
  {
    hide Had, Next;
    assert s[u].Taking? && s[u].n < |Locks(ps, u)| && !Free(ps, s, u, Next(ps, u, s[u].n));
    v :| v in s && v != u && Had(ps, v, s[v].n, Next(ps, u, s[u].n));
    HoldersGoOn(ps, s, v, Next(ps, u, s[u].n));
  }

  /** If no thread can take a step and some are not finished, those are deadlocked. */
  lemma StuckIsDeadlocked(ps: Programs, s: State, t: Tid)
    requires Exclusive(ps, s) && (forall step :: !Enabled(ps, s, step)) && t in s && !Finished(ps, s, t)
    ensures Deadlocked(ps, s, set u | u in s && !Finished(ps, s, u))
  {
    hide Finished, Enabled, WaitsFor, Locks;
    var stuck := set u | u in s && !Finished(ps, s, u);
    assert t in stuck;
    forall u | u in stuck ensures WaitsAmong(ps, s, u, stuck) {
      var v := BlockedBy(ps, s, u);
      assert v in stuck;
    }
  }

  lemma HoldersGoOn(ps: Programs, s: State, v: Tid, l: Lock)
    requires v in s && Had(ps, v, s[v].n, l)
    ensures !Finished(ps, s, v)
  {
  }

  lemma StuckStays(ps: Programs, s: State, step: Step, stuck: set<Tid>, t: Tid)
    requires Deadlocked(ps, s, stuck) && Enabled(ps, s, step) && t in stuck
    ensures t != step.t
  {
    hide Had, Next;
    assert WaitsAmong(ps, s, t, stuck);
    var u :| u in stuck && WaitsFor(ps, s, t, u);
  }

  lemma WaitStays(ps: Programs, s: State, step: Step, stuck: set<Tid>, t: Tid)
    requires WaitsAmong(ps, s, t, stuck) && t != step.t && step.t !in stuck
    ensures WaitsAmong(ps, Apply(s, step), t, stuck)
  {
    hide Apply, WaitsFor;
    var u :| u in stuck && WaitsFor(ps, s, t, u);
    WaitsOn(ps, s, step, t, u);
  }

  /** None of them ever goes on, whatever the other threads do. */
  lemma DeadlockStays(ps: Programs, s: State, step: Step, stuck: set<Tid>)
    requires Deadlocked(ps, s, stuck) && Enabled(ps, s, step)
    ensures Deadlocked(ps, Apply(s, step), stuck) && step.t !in stuck
  {
    hide Enabled, Apply, WaitsAmong;
    if step.t in stuck { StuckStays(ps, s, step, stuck, step.t); }
    forall t | t in stuck ensures WaitsAmong(ps, Apply(s, step), t, stuck) { WaitStays(ps, s, step, stuck, t); }
  }

  lemma WaitsOn(ps: Programs, s: State, step: Step, t: Tid, u: Tid)
    requires WaitsFor(ps, s, t, u) && step.t != t && step.t != u
    ensures WaitsFor(ps, Apply(s, step), t, u)
  {
  }

  /** Every lock a program takes anew ranks above all it holds. */
  predicate Ascending(ls: seq<Lock>, rank: Lock -> int) {
    forall i, j :: 0 <= i < j < |ls| ==> rank(ls[i]) < rank(ls[j]) || ls[j] in ls[..j]
  }

  lemma {:induction false} Highest(ps: Programs, cut: map<Tid, nat>, rank: Lock -> int, ts: set<Tid>) returns (t: Tid)
    requires ts != {} && forall u | u in ts :: u in cut
    ensures t in ts && forall u | u in ts :: rank(Next(ps, u, cut[u])) <= rank(Next(ps, t, cut[t]))
    decreases ts
  {
    hide Next;
    t :| t in ts;
    if ts != {t} {
      var rest := ts - {t};
      assert ts == rest + {t} && rest != {};
      var u := Highest(ps, cut, rank, rest);
      if rank(Next(ps, t, cut[t])) <= rank(Next(ps, u, cut[u])) { t := u; }
    }
  }

  lemma ClashIf(ps: Programs, t: Tid, n: nat, u: Tid, m: nat, l: Lock)
    requires Had(ps, t, n, l) && Had(ps, u, m, l)
    ensures Clash(ps, t, n, u, m)
  {
  }

  lemma CutApart(ps: Programs, cut: map<Tid, nat>, t: Tid, u: Tid)
    requires Cut(ps, cut) && t in cut && u in cut && t != u
    ensures !Clash(ps, t, cut[t], u, cut[u])
  {
  }

  lemma CutSome(ps: Programs, cut: map<Tid, nat>) returns (t: Tid)
    requires Cut(ps, cut)
    ensures t in cut
  {
    t :| t in cut.Keys;
  }

  /** What a thread wants at a cut it does not have itself. */
  lemma NotHeld(ps: Programs, cut: map<Tid, nat>, t: Tid)
    requires Cut(ps, cut) && t in cut
    ensures !Had(ps, t, cut[t], Next(ps, t, cut[t]))
  {
    hide Cut, Had, Clash, Next;
    var v := CutWants(ps, cut, t);
    CutApart(ps, cut, t, v);
    if Had(ps, t, cut[t], Next(ps, t, cut[t])) { ClashIf(ps, t, cut[t], v, cut[v], Next(ps, t, cut[t])); }
  }

  /** What is wanted at a cut ranks above everything held there by the same thread. */
  lemma WantsHigher(ps: Programs, cut: map<Tid, nat>, rank: Lock -> int, t: Tid, l: Lock)
    requires Cut(ps, cut) && t in cut && Ascending(Locks(ps, t), rank) && Had(ps, t, cut[t], l)
    ensures rank(l) < rank(Next(ps, t, cut[t]))
  {
    hide Cut;
    CutInside(ps, cut, t);
    NotHeld(ps, cut, t);
    var i :| 0 <= i < cut[t] && i < |Locks(ps, t)| && Locks(ps, t)[i] == l;
  }

  /** Threads that all take their locks in one order never deadlock, however many there are. */
  lemma OrderedNeverDeadlock(ps: Programs, rank: Lock -> int)
    requires forall t | t in ps :: Ascending(Locks(ps, t), rank)
    ensures !CanDeadlock(ps)
  {
    DeadlockIff(ps);
    hide CanDeadlock, Cut, Had, Next, Ascending;
    if cut :| Cut(ps, cut) {
      var x := CutSome(ps, cut);
      var t := Highest(ps, cut, rank, cut.Keys);
      var u := CutWants(ps, cut, t);
      CutInside(ps, cut, u);
      assert u in cut.Keys;
      WantsHigher(ps, cut, rank, u, Next(ps, t, cut[t]));
    }
  }

  // ---------------------------------------------------------------- the extension's own sections

  /**
    Freeing a connection; restoring a reference found in an object; testing, in the sync of an
    object's cache, whether a stored address is valid; dropping from that cache the last use of a
    connection, which frees it there and then; and merging one array into another.
    */
  datatype Job =
    | Freeing(o: nat) | Restoring(o: nat) | Syncing(o: nat) | Evicting(o: nat, x: nat) | Merging(dst: nat, src: nat)

  function Outer(j: Job): Lock {
    match j
    case Freeing(_) => Global
    case Restoring(o) => Monitor(o)
    case Syncing(o) => Monitor(o)
    case Evicting(o, _) => Monitor(o)
    case Merging(d, _) => Monitor(d)
  }

  function Inner(j: Job): Lock {
    match j
    case Freeing(o) => Monitor(o)
    case Restoring(_) => Global
    case Syncing(_) => Global
    case Evicting(_, _) => Global
    case Merging(_, s) => Monitor(s)
  }

  function Taken(j: Job): seq<Lock> {
    [Outer(j), Inner(j)] + (if j.Evicting? then [Monitor(j.x)] else [])
  }

  function Programmed(jobs: map<Tid, Job>): Programs { map t | t in jobs :: Taken(jobs[t]) }

  /** What a job has and wants at each of its places. */
  lemma JobPlaces(jobs: map<Tid, Job>, t: Tid)
    requires t in jobs
    ensures var ps, j := Programmed(jobs), jobs[t];
            && |Locks(ps, t)| == (if j.Evicting? then 3 else 2) && Next(ps, t, 1) == Inner(j)
            && (j.Evicting? ==> Next(ps, t, 2) == Monitor(j.x))
            && (forall l :: !Had(ps, t, 0, l)) && (forall l :: Had(ps, t, 1, l) <==> l == Outer(j))
            && (forall l :: Had(ps, t, 2, l) <==> l == Outer(j) || l == Inner(j))
  {
    var ps, j := Programmed(jobs), jobs[t];
    assert Locks(ps, t) == Taken(j);
    assert Taken(j)[0] == Outer(j) && Taken(j)[1] == Inner(j);
    hide Taken, Outer, Inner, Programmed;
    forall l ensures Had(ps, t, 2, l) <==> l == Outer(j) || l == Inner(j) {
      if l == Outer(j) { assert Locks(ps, t)[0] == l; }
      if l == Inner(j) { assert Locks(ps, t)[1] == l; }
    }
    forall l ensures Had(ps, t, 1, l) <==> l == Outer(j) {
      if l == Outer(j) { assert Locks(ps, t)[0] == l; }
    }
  }

  // ---------------------------------------------------------------- jobs without merges

  /** The job takes the monitor of `o` under the global lock, not holding it already. */
  predicate Descends(j: Job, o: nat) { j == Freeing(o) || (j.Evicting? && j.x == o && j.o != o) }

  /** The job takes the global lock under the monitor of `o`. */
  predicate Climbs(j: Job, o: nat) { j == Restoring(o) || j == Syncing(o) || (j.Evicting? && j.o == o) }

  /** One thread goes down to an object from which another goes up. */
  predicate Crossing(jobs: map<Tid, Job>, t: Tid, u: Tid, o: nat) {
    t in jobs && u in jobs && t != u && Descends(jobs[t], o) && Climbs(jobs[u], o)
  }

  /** The place at which a job that descends wants the monitor. */
  function Brink(j: Job): nat { if j.Evicting? then 2 else 1 }

  lemma AtBrink(jobs: map<Tid, Job>, t: Tid, o: nat)
    requires t in jobs && Descends(jobs[t], o)
    ensures var ps, n := Programmed(jobs), Brink(jobs[t]);
            && n < |Locks(ps, t)| && Next(ps, t, n) == Monitor(o) && Had(ps, t, n, Global) && !Had(ps, t, n, Monitor(o))
  {
    hide Had, Next, Locks, Programmed;
    JobPlaces(jobs, t);
  }

  lemma Climbing(jobs: map<Tid, Job>, u: Tid, o: nat)
    requires u in jobs && Climbs(jobs[u], o)
    ensures var ps := Programmed(jobs);
            && 1 < |Locks(ps, u)| && Next(ps, u, 1) == Global && (forall l :: Had(ps, u, 1, l) <==> l == Monitor(o))
  {
    hide Had, Next, Locks, Programmed;
    JobPlaces(jobs, u);
  }

  lemma NoClash(ps: Programs, t: Tid, n: nat, u: Tid, l: Lock)
    requires (forall k :: Had(ps, u, 1, k) <==> k == l) && !Had(ps, t, n, l)
    ensures !Clash(ps, t, n, u, 1) && !Clash(ps, u, 1, t, n)
  {
    ClashBack(ps, t, n, u, 1);
    hide Had;
    forall i | 0 <= i < n && i < |Locks(ps, t)| ensures Locks(ps, t)[i] != l { HadThere(ps, t, n, i); }
  }

  lemma HadThere(ps: Programs, t: Tid, n: nat, i: nat)
    requires i < n && i < |Locks(ps, t)|
    ensures Had(ps, t, n, Locks(ps, t)[i])
  {
  }

  lemma CrossingCut(jobs: map<Tid, Job>, t: Tid, u: Tid, o: nat)
    requires Crossing(jobs, t, u, o)
    ensures Cut(Programmed(jobs), map[t := Brink(jobs[t]), u := 1])
  {
    var ps, n := Programmed(jobs), Brink(jobs[t]);
    var cut := map[t := n, u := 1];
    AtBrink(jobs, t, o);
    Climbing(jobs, u, o);
    hide Had, Next, Locks, Descends, Climbs, Brink, Clash;
    NoClash(ps, t, n, u, Monitor(o));
    assert Wanted(ps, cut, t) by { assert u in cut && Had(ps, u, cut[u], Next(ps, t, cut[t])); }
    assert Wanted(ps, cut, u) by { assert t in cut && Had(ps, t, cut[t], Next(ps, u, cut[u])); }
    hide Wanted;
  }

  /** At a cut a thread that has the global lock wants a monitor below it. */
  lemma GlobalDescends(jobs: map<Tid, Job>, cut: map<Tid, nat>, v: Tid)
    requires (forall t | t in jobs :: !jobs[t].Merging?) && Cut(Programmed(jobs), cut) && v in cut
    requires Had(Programmed(jobs), v, cut[v], Global)
    ensures v in jobs && Next(Programmed(jobs), v, cut[v]).Monitor?
    ensures Descends(jobs[v], Next(Programmed(jobs), v, cut[v]).o)
  {
    hide Cut, Had, Next, Locks;
    CutInside(Programmed(jobs), cut, v);
    JobPlaces(jobs, v);
    NotHeld(Programmed(jobs), cut, v);
    assert cut[v] <= 2;
  }

  /** One that has a monitor and not the global lock goes up from there. */
  lemma MonitorClimbs(jobs: map<Tid, Job>, cut: map<Tid, nat>, u: Tid, l: Lock)
    requires (forall t | t in jobs :: !jobs[t].Merging?) && Cut(Programmed(jobs), cut) && u in cut
    requires Had(Programmed(jobs), u, cut[u], l) && !Had(Programmed(jobs), u, cut[u], Global)
    ensures u in jobs && l.Monitor? && Climbs(jobs[u], l.o) && Next(Programmed(jobs), u, cut[u]) == Global
  {
    hide Cut, Had, Next, Locks;
    CutInside(Programmed(jobs), cut, u);
    JobPlaces(jobs, u);
    assert cut[u] <= 2;
  }

  lemma CutCrossing(jobs: map<Tid, Job>, cut: map<Tid, nat>) returns (t: Tid, u: Tid, o: nat)
    requires (forall t | t in jobs :: !jobs[t].Merging?) && Cut(Programmed(jobs), cut)
    ensures Crossing(jobs, t, u, o)
  {
    hide Cut, Had, Next, Descends, Climbs, Clash, Programmed;
    var ps := Programmed(jobs);
    var x := CutSome(ps, cut);
    t := CutWants(ps, cut, x);
    if !Had(ps, t, cut[t], Global) {
      MonitorClimbs(jobs, cut, t, Next(ps, x, cut[x]));
      t := CutWants(ps, cut, t);
    }
    GlobalDescends(jobs, cut, t);
    o := Next(ps, t, cut[t]).o;
    u := CutWants(ps, cut, t);
    CutApart(ps, cut, t, u);
    if Had(ps, u, cut[u], Global) { ClashIf(ps, t, cut[t], u, cut[u], Global); }
    MonitorClimbs(jobs, cut, u, Next(ps, t, cut[t]));
  }

  /**
    Without merges, any number of threads can deadlock if and only if one takes the monitor of an
    object under the global lock, not holding it already, while another takes the global lock under
    that monitor.
    */
  lemma CrossingDeadlockIff(jobs: map<Tid, Job>)
    requires forall t | t in jobs :: !jobs[t].Merging?
    ensures CanDeadlock(Programmed(jobs)) <==> exists t, u, o :: Crossing(jobs, t, u, o)
  {
    DeadlockIff(Programmed(jobs));
    hide CanDeadlock, Cut, Programmed, Crossing;
    if cut :| Cut(Programmed(jobs), cut) { var t, u, o := CutCrossing(jobs, cut); }
    if t, u, o :| Crossing(jobs, t, u, o) { CrossingCut(jobs, t, u, o); }
  }

  // ---------------------------------------------------------------- jobs of two locks, merges among them

  /** Threads in a ring, each of which wants inside what the next one has outside. */
  predicate Ring(jobs: map<Tid, Job>, r: seq<Tid>) {
    && |r| >= 2 && (forall i :: 0 <= i < |r| ==> r[i] in jobs)
    && (forall i, j :: 0 <= i < j < |r| ==> r[i] != r[j] && Outer(jobs[r[i]]) != Outer(jobs[r[j]]))
    && (forall i :: 0 <= i < |r| ==> Inner(jobs[r[i]]) == Outer(jobs[r[After(i, |r|)]]))
  }

  function After(i: nat, n: nat): nat { if i + 1 < n then i + 1 else 0 }

  predicate Short(jobs: map<Tid, Job>) { forall t | t in jobs :: !jobs[t].Evicting? }

  /** At a cut every thread that holds something holds its outer lock and wants the inner one. */
  lemma CutHolds(jobs: map<Tid, Job>, cut: map<Tid, nat>, t: Tid, l: Lock)
    requires Short(jobs) && Cut(Programmed(jobs), cut) && t in cut && Had(Programmed(jobs), t, cut[t], l)
    ensures t in jobs && cut[t] == 1 && l == Outer(jobs[t])
    ensures Next(Programmed(jobs), t, cut[t]) == Inner(jobs[t])
  {
    hide Cut, Had, Next, Locks;
    CutInside(Programmed(jobs), cut, t);
    JobPlaces(jobs, t);
  }

  /** Holders at a cut, each wanting inside what the next has outside. */
  ghost predicate Trail(jobs: map<Tid, Job>, cut: map<Tid, nat>, p: seq<Tid>) {
    && p != [] && (forall i :: 0 <= i < |p| ==> p[i] in jobs && p[i] in cut && cut[p[i]] == 1)
    && (forall i, j :: 0 <= i < j < |p| ==> p[i] != p[j])
    && (forall i :: 0 <= i < |p| - 1 ==> Inner(jobs[p[i]]) == Outer(jobs[p[i + 1]]))
  }

  lemma {:induction false} DistinctFit(p: seq<Tid>, ts: set<Tid>)
    requires (forall i :: 0 <= i < |p| ==> p[i] in ts) && forall i, j :: 0 <= i < j < |p| ==> p[i] != p[j]
    ensures |p| <= |ts|
  {
    if p != [] { DistinctFit(p[1..], ts - {p[0]}); }
  }

  lemma OutersApart(jobs: map<Tid, Job>, cut: map<Tid, nat>, t: Tid, u: Tid)
    requires Cut(Programmed(jobs), cut) && t in cut && u in cut && t != u && cut[t] == cut[u] == 1
    requires t in jobs && u in jobs
    ensures Outer(jobs[t]) != Outer(jobs[u])
  {
    hide Cut, Had, Next, Clash, Locks;
    JobPlaces(jobs, t);
    JobPlaces(jobs, u);
    CutApart(Programmed(jobs), cut, t, u);
    if Outer(jobs[t]) == Outer(jobs[u]) { ClashIf(Programmed(jobs), t, 1, u, 1, Outer(jobs[t])); }
  }

  /** A trail that comes back to itself closes a ring. */
  lemma Closes(jobs: map<Tid, Job>, cut: map<Tid, nat>, p: seq<Tid>, k: nat)
    requires Cut(Programmed(jobs), cut) && Trail(jobs, cut, p) && k < |p| - 1
    requires Inner(jobs[p[|p| - 1]]) == Outer(jobs[p[k]])
    ensures Ring(jobs, p[k..])
  {
    hide Cut, Outer, Inner, Programmed;
    var r := p[k..];
    forall i, j | 0 <= i < j < |r| ensures r[i] != r[j] && Outer(jobs[r[i]]) != Outer(jobs[r[j]]) {
      assert r[i] == p[k + i] && r[j] == p[k + j];
      OutersApart(jobs, cut, p[k + i], p[k + j]);
    }
    forall i | 0 <= i < |r| ensures Inner(jobs[r[i]]) == Outer(jobs[r[After(i, |r|)]]) {
      assert r[i] == p[k + i];
      if i + 1 < |r| { assert r[i + 1] == p[k + i + 1]; }
    }
  }

  lemma Prolonged(jobs: map<Tid, Job>, cut: map<Tid, nat>, p: seq<Tid>, v: Tid)
    requires Trail(jobs, cut, p) && v !in p && v in jobs && v in cut && cut[v] == 1
    requires Inner(jobs[p[|p| - 1]]) == Outer(jobs[v])
    ensures Trail(jobs, cut, p + [v])
  {
    hide Outer, Inner;
    var q := p + [v];
    forall i | 0 <= i < |q| - 1 ensures Inner(jobs[q[i]]) == Outer(jobs[q[i + 1]]) {
      if i < |p| - 1 { assert q[i] == p[i] && q[i + 1] == p[i + 1]; }
    }
  }

  lemma TrailEnd(jobs: map<Tid, Job>, cut: map<Tid, nat>, p: seq<Tid>)
    requires Trail(jobs, cut, p)
    ensures p != [] && |p| <= |cut.Keys|
    ensures var t := p[|p| - 1]; t in jobs && t in cut && Next(Programmed(jobs), t, cut[t]) == Inner(jobs[t])
  {
    var t := p[|p| - 1];
    assert t in jobs && t in cut && cut[t] == 1;
    DistinctFit(p, cut.Keys);
    hide Had, Next, Locks, Programmed, Trail;
    JobPlaces(jobs, t);
  }

  /** The holder of what the last thread of a trail wants. */
  lemma TrailNext(jobs: map<Tid, Job>, cut: map<Tid, nat>, p: seq<Tid>) returns (v: Tid)
    requires Short(jobs) && Cut(Programmed(jobs), cut) && Trail(jobs, cut, p)
    ensures p != [] && p[|p| - 1] in jobs && v in jobs && v in cut && cut[v] == 1 && v != p[|p| - 1]
    ensures Inner(jobs[p[|p| - 1]]) == Outer(jobs[v])
  {
    hide Cut, Had, Next, Programmed, Short, Trail, Outer, Inner;
    TrailEnd(jobs, cut, p);
    var t := p[|p| - 1];
    v := CutWants(Programmed(jobs), cut, t);
    CutHolds(jobs, cut, v, Next(Programmed(jobs), t, cut[t]));
  }

  lemma {:induction false} FollowTrail(jobs: map<Tid, Job>, cut: map<Tid, nat>, p: seq<Tid>) returns (r: seq<Tid>)
    requires Short(jobs) && Cut(Programmed(jobs), cut) && Trail(jobs, cut, p)
    ensures Ring(jobs, r)
    decreases |cut.Keys| - |p|
  {
    hide Cut, Programmed, Short, Ring, Trail, Outer, Inner;
    var v := TrailNext(jobs, cut, p);
    if v in p {
      var k :| 0 <= k < |p| && p[k] == v;
      Closes(jobs, cut, p, k);
      r := p[k..];
    } else {
      Prolonged(jobs, cut, p, v);
      TrailEnd(jobs, cut, p + [v]);
      r := FollowTrail(jobs, cut, p + [v]);
    }
  }

  lemma CutRing(jobs: map<Tid, Job>, cut: map<Tid, nat>) returns (r: seq<Tid>)
    requires Short(jobs) && Cut(Programmed(jobs), cut)
    ensures Ring(jobs, r)
  {
    hide Cut, Had, Next, Programmed, Short, Ring;
    var x := CutSome(Programmed(jobs), cut);
    var t := CutWants(Programmed(jobs), cut, x);
    CutHolds(jobs, cut, t, Next(Programmed(jobs), x, cut[x]));
    assert Trail(jobs, cut, [t]);
    r := FollowTrail(jobs, cut, [t]);
  }

  function OnesAt(r: seq<Tid>): map<Tid, nat> { map t | t in r :: 1 }

  lemma RingWants(jobs: map<Tid, Job>, r: seq<Tid>, i: nat)
    requires Ring(jobs, r) && i < |r|
    ensures r[i] in OnesAt(r) && Wanted(Programmed(jobs), OnesAt(r), r[i])
  {
    var ps, cut, t, u := Programmed(jobs), OnesAt(r), r[i], r[After(i, |r|)];
    JobPlaces(jobs, t);
    JobPlaces(jobs, u);
    assert t != u && t in cut && u in cut && cut[t] == 1 && cut[u] == 1;
    hide Had, Next, Locks, Outer, Inner, Programmed, OnesAt;
    assert Had(ps, u, cut[u], Next(ps, t, cut[t]));
  }

  lemma RingApart(jobs: map<Tid, Job>, r: seq<Tid>, i: nat, j: nat)
    requires Ring(jobs, r) && i < |r| && j < |r| && i != j
    ensures !Clash(Programmed(jobs), r[i], 1, r[j], 1)
  {
    JobPlaces(jobs, r[i]);
    JobPlaces(jobs, r[j]);
    hide Had, Next, Locks, Outer, Inner, Programmed;
    NoClash(Programmed(jobs), r[i], 1, r[j], Outer(jobs[r[j]]));
  }

  lemma RingCut(jobs: map<Tid, Job>, r: seq<Tid>)
    requires Ring(jobs, r)
    ensures Cut(Programmed(jobs), OnesAt(r))
  {
    var ps, cut := Programmed(jobs), OnesAt(r);
    hide Clash, Wanted, Had, Next;
    assert r[0] in cut;
    forall t | t in cut ensures t in ps && cut[t] < |Locks(ps, t)| && Wanted(ps, cut, t) {
      var i :| 0 <= i < |r| && r[i] == t;
      RingWants(jobs, r, i);
      JobPlaces(jobs, t);
    }
    forall t, u | t in cut && u in cut && t != u ensures !Clash(ps, t, cut[t], u, cut[u]) {
      var i :| 0 <= i < |r| && r[i] == t;
      var j :| 0 <= j < |r| && r[j] == u;
      RingApart(jobs, r, i, j);
    }
  }

  /** Any number of threads with jobs of two locks, merges included, can deadlock if and only if some
      of them form a ring. */
  lemma RingDeadlockIff(jobs: map<Tid, Job>)
    requires Short(jobs)
    ensures CanDeadlock(Programmed(jobs)) <==> exists r :: Ring(jobs, r)
  {
    DeadlockIff(Programmed(jobs));
    hide CanDeadlock, Cut, Programmed, Ring, Short;
    if cut :| Cut(Programmed(jobs), cut) { var r := CutRing(jobs, cut); }
    if r :| Ring(jobs, r) { RingCut(jobs, r); }
  }

  /** Two jobs that take the same two locks in opposite orders. */
  predicate Opposed(a: Job, b: Job) { Outer(a) == Inner(b) && Inner(a) == Outer(b) && Outer(a) != Inner(a) }

  lemma RingOfTwo(jobs: map<Tid, Job>, r: seq<Tid>)
    requires jobs.Keys == {0, 1} && Ring(jobs, r)
    ensures Opposed(jobs[0], jobs[1])
  {
    hide Outer, Inner;
    assert forall i :: 0 <= i < |r| ==> r[i] in jobs.Keys;
    DistinctFit(r, {0, 1});
    assert |r| == 2 && After(0, 2) == 1 && After(1, 2) == 0;
    assert Inner(jobs[r[0]]) == Outer(jobs[r[1]]) && Inner(jobs[r[1]]) == Outer(jobs[r[0]]);
    assert r[0] != r[1];
    assert (r[0] == 0 && r[1] == 1) || (r[0] == 1 && r[1] == 0);
  }

  lemma TwoInRing(jobs: map<Tid, Job>)
    requires 0 in jobs && 1 in jobs && Opposed(jobs[0], jobs[1])
    ensures Ring(jobs, [0, 1])
  {
    hide Outer, Inner;
  }

  /** Two threads can deadlock if and only if they take the same two locks in opposite orders. */
  lemma TwoJobsIff(jobs: map<Tid, Job>)
    requires jobs.Keys == {0, 1} && Short(jobs)
    ensures CanDeadlock(Programmed(jobs)) <==> Opposed(jobs[0], jobs[1])
  {
    hide CanDeadlock, Programmed, Ring, Opposed, Short;
    RingDeadlockIff(jobs);
    if r :| Ring(jobs, r) { RingOfTwo(jobs, r); }
    if Opposed(jobs[0], jobs[1]) { TwoInRing(jobs); }
  }

  /** Two merges can deadlock if and only if each goes into the other's source. */
  lemma OppositeMergesIff(a: nat, b: nat, c: nat, d: nat)
    ensures CanDeadlock(Programmed(map[0 := Merging(a, b), 1 := Merging(c, d)])) <==> a == d && b == c && a != b
  {
    var jobs := map[0 := Merging(a, b), 1 := Merging(c, d)];
    assert jobs.Keys == {0, 1} && jobs[0] == Merging(a, b) && jobs[1] == Merging(c, d);
    hide CanDeadlock, Programmed;
    TwoJobsIff(jobs);
  }

  lemma RingGoesOn(jobs: map<Tid, Job>, r: seq<Tid>, t: Tid) returns (u: Tid)
    requires Ring(jobs, r) && t in r
    ensures t in jobs && u in jobs && u in r && u != t && Inner(jobs[t]) == Outer(jobs[u])
  {
    var i :| 0 <= i < |r| && r[i] == t;
    u := r[After(i, |r|)];
    hide Outer, Inner;
  }

  function Three(a: nat, b: nat, c: nat, d: nat): map<Tid, Job> {
    map[0 := Restoring(b), 1 := Freeing(a), 2 := Merging(c, d)]
  }

  lemma ThreeInRing(a: nat, b: nat)
    requires a != b
    ensures Ring(Three(a, b, a, b), [2, 0, 1])
  {
  }

  lemma RingOfThree(a: nat, b: nat, c: nat, d: nat, r: seq<Tid>)
    requires a != b && Ring(Three(a, b, c, d), r)
    ensures c == a && d == b
  {
    var jobs := Three(a, b, c, d);
    assert jobs.Keys == {0, 1, 2};
    hide Ring;
    var t := First(jobs, r);
    var u := RingGoesOn(jobs, r, t);
    var v := RingGoesOn(jobs, r, u);
    var w := RingGoesOn(jobs, r, v);
    assert t in jobs.Keys && u in jobs.Keys && v in jobs.Keys && w in jobs.Keys;
  }

  lemma First(jobs: map<Tid, Job>, r: seq<Tid>) returns (t: Tid)
    requires Ring(jobs, r)
    ensures t in r
  {
    t := r[0];
  }

  /** A merge takes its destination first: with one thread restoring a reference found in `b` and one freeing
      its connection to `a`, a merge closes the ring if and only if it goes from `b` into `a`. */
  lemma MergeOrderIff(a: nat, b: nat, c: nat, d: nat)
    requires a != b
    ensures CanDeadlock(Programmed(Three(a, b, c, d))) <==> c == a && d == b
  {
    RingDeadlockIff(Three(a, b, c, d));
    hide CanDeadlock, Programmed, Ring, Three;
    if r :| Ring(Three(a, b, c, d), r) { RingOfThree(a, b, c, d, r); }
    if c == a && d == b { ThreeInRing(a, b); }
  }
}
