/**
  Connections to shared objects (src/object.c, src/globals.c).  A thread-safe object is
  a reference-counted shared part; each thread that uses it has a connection with an
  address of its own.  The global table knows the live addresses, and each thread's
  resolve map knows its connection to a shared part.  A section under the global lock is
  one step; building and freeing a connection take two, and other threads may come between.
  */
module Connections {
  type Thread = nat
  type Shared = nat
  type Addr = nat

  datatype Conn = Conn(owner: Thread, ts: Shared)

  /** What a thread is in the middle of. */
  datatype Act = Building(a: Addr) | Retiring(a: Addr)

  type Conns = map<Addr, Conn>
  type Resolve = map<(Thread, Shared), Addr>

  datatype State = State(
    objects: set<Addr>,                       // the global table of valid addresses
    conns: Conns,                             // every connection that has not been freed
    embryos: map<Addr, Thread>,               // allocated and listed, not yet constructed
    act: map<Thread, Act>,                    // unfinished constructions and releases
    resolve: Resolve,                         // each thread's own map, keyed by thread
    refs: map<Shared, nat>,                   // reference counts of the shared parts that exist
    nextAddr: Addr, nextShared: Shared)

  datatype Step =
    | Alloc(t: Thread)                        // pmmpthread_globals_object_alloc
    | Construct(t: Thread)                    // pmmpthread_base_ctor of a new object
    | Connect(t: Thread, address: Addr)       // pmmpthread_object_connect
    | FreeBegin(t: Thread, a: Addr)           // pmmpthread_base_free up to the lock
    | FreeEnd(t: Thread)                      // pmmpthread_base_free under the lock

  function Initial(): State { State({}, map[], map[], map[], map[], map[], 0, 0) }

  /** The connections to a shared part. */
  function Users(conns: Conns, ts: Shared): set<Addr> { set a | a in conns && conns[a].ts == ts }

  predicate Enabled(s: State, step: Step) {
    match step
    case Alloc(t) => t !in s.act
    case Construct(t) => t in s.act && s.act[t].Building?
    case Connect(t, address) => t !in s.act && address !in s.embryos
    case FreeBegin(t, a) => t !in s.act && a in s.conns && s.conns[a].owner == t
    case FreeEnd(t) => t in s.act && s.act[t].Retiring? && s.act[t].a in s.conns
  }

  /** The connection object_connect returns, if the address can still be followed. */
  datatype Found = Gone | At(address: Addr, isNew: bool)

  function Lookup(s: State, t: Thread, address: Addr): Found {
    if address !in s.objects || address !in s.conns then Gone
    else if s.conns[address].owner == t then At(address, false)
    else if (t, s.conns[address].ts) in s.resolve then At(s.resolve[(t, s.conns[address].ts)], false)
    else At(s.nextAddr, true)
  }

  /** resolve is added to, never overwritten. */
  function Listed(resolve: Resolve, t: Thread, ts: Shared, a: Addr): Resolve {
    if (t, ts) in resolve then resolve else resolve[(t, ts) := a]
  }

  /** Only the primary connection takes its entry out. */
  function Unlisted(resolve: Resolve, c: Conn, a: Addr): Resolve {
    if (c.owner, c.ts) in resolve && resolve[(c.owner, c.ts)] == a then resolve - {(c.owner, c.ts)} else resolve
  }

  function More(refs: map<Shared, nat>, ts: Shared): map<Shared, nat> {
    refs[ts := (if ts in refs then refs[ts] else 0) + 1]
  }

  function Fewer(refs: map<Shared, nat>, ts: Shared): map<Shared, nat> {
    if ts in refs && refs[ts] > 1 then refs[ts := refs[ts] - 1] else refs - {ts}
  }

  function Apply(s: State, step: Step): State
    requires Enabled(s, step)
  {
    match step
    case Alloc(t) =>
      s.(objects := s.objects + {s.nextAddr}, embryos := s.embryos[s.nextAddr := t],
         act := s.act[t := Building(s.nextAddr)], nextAddr := s.nextAddr + 1)
    case Construct(t) =>
      var a, ts := s.act[t].a, s.nextShared;
      s.(conns := s.conns[a := Conn(t, ts)], embryos := s.embryos - {a}, act := s.act - {t},
         resolve := Listed(s.resolve, t, ts, a), refs := s.refs[ts := 1], nextShared := ts + 1)
    case Connect(t, address) =>
      var f := Lookup(s, t, address);
      if f.Gone? || !f.isNew then s
      else
        var a, ts := s.nextAddr, s.conns[address].ts;
        s.(objects := s.objects + {a}, conns := s.conns[a := Conn(t, ts)],
           resolve := Listed(s.resolve, t, ts, a), refs := More(s.refs, ts), nextAddr := a + 1)
    case FreeBegin(t, a) =>
      s.(act := s.act[t := Retiring(a)], resolve := Unlisted(s.resolve, s.conns[a], a))
    case FreeEnd(t) =>
      var a := s.act[t].a;
      s.(objects := s.objects - {a}, conns := s.conns - {a}, act := s.act - {t}, refs := Fewer(s.refs, s.conns[a].ts))
  }

  // ---------------------------------------------------------------- the invariant

  /** The global table holds exactly the addresses that exist, and new ones are fresh. */
  predicate TableExact(s: State) {
    && s.objects == s.conns.Keys + s.embryos.Keys && s.conns.Keys !! s.embryos.Keys
    && (forall a | a in s.objects :: a < s.nextAddr)
    && (forall a | a in s.conns :: s.conns[a].ts < s.nextShared)
    && (forall t | t in s.act :: if s.act[t].Building? then s.act[t].a in s.embryos && s.embryos[s.act[t].a] == t
                                 else s.act[t].a in s.conns && s.conns[s.act[t].a].owner == t)
  }

  /** A shared part exists exactly while it is used, and its count is the number of its users. */
  ghost predicate CountsExact(conns: Conns, refs: map<Shared, nat>) {
    && (forall ts :: ts in refs <==> Users(conns, ts) != {})
    && (forall ts | ts in refs :: refs[ts] == |Users(conns, ts)|)
  }

  predicate Leaving(act: map<Thread, Act>, t: Thread, a: Addr) { t in act && act[t] == Retiring(a) }

  /** Every connection that is not being freed is the one its thread resolves to. */
  predicate Resolved(conns: Conns, act: map<Thread, Act>, resolve: Resolve) {
    && (forall a | a in conns && !Leaving(act, conns[a].owner, a) ::
          (conns[a].owner, conns[a].ts) in resolve && resolve[(conns[a].owner, conns[a].ts)] == a)
    && (forall a | a in conns && Leaving(act, conns[a].owner, a) :: (conns[a].owner, conns[a].ts) !in resolve)
    && (forall k | k in resolve :: resolve[k] in conns && conns[resolve[k]] == Conn(k.0, k.1))
  }

  ghost predicate Inv(s: State) { TableExact(s) && CountsExact(s.conns, s.refs) && Resolved(s.conns, s.act, s.resolve) }

  /** So a thread never has two connections to the same shared part. */
  lemma OnePerThread(s: State, a: Addr, b: Addr)
    requires Inv(s) && a in s.conns && b in s.conns && s.conns[a] == s.conns[b]
    ensures a == b
  {
    hide CountsExact, TableExact;
    if Leaving(s.act, s.conns[a].owner, a) {
      assert Leaving(s.act, s.conns[b].owner, b);
    }
  }

  // ---------------------------------------------------------------- counting

  lemma AddUser(conns: Conns, a: Addr, c: Conn)
    requires a !in conns
    ensures forall ts :: Users(conns[a := c], ts) == if ts == c.ts then Users(conns, ts) + {a} else Users(conns, ts)
    ensures a !in Users(conns, c.ts)
  {
    forall ts ensures Users(conns[a := c], ts) == if ts == c.ts then Users(conns, ts) + {a} else Users(conns, ts) {}
  }

  lemma DropUser(conns: Conns, a: Addr)
    requires a in conns
    ensures forall ts :: Users(conns - {a}, ts) == if ts == conns[a].ts then Users(conns, ts) - {a} else Users(conns,
            ts)
    ensures a in Users(conns, conns[a].ts)
  {
    forall ts ensures Users(conns - {a}, ts) == if ts == conns[a].ts then Users(conns, ts) - {a} else Users(conns,
      ts) {}
  }

  lemma MoreExact(conns: Conns, refs: map<Shared, nat>, a: Addr, c: Conn)
    requires CountsExact(conns, refs) && a !in conns
    ensures CountsExact(conns[a := c], More(refs, c.ts))
  {
    AddUser(conns, a, c);
    hide Users;
  }

  lemma FewerExact(conns: Conns, refs: map<Shared, nat>, a: Addr)
    requires CountsExact(conns, refs) && a in conns
    ensures CountsExact(conns - {a}, Fewer(refs, conns[a].ts))
    ensures conns[a].ts in refs && (conns[a].ts !in Fewer(refs, conns[a].ts) <==> Users(conns, conns[a].ts) == {a})
  {
    var ts := conns[a].ts;
    DropUser(conns, a);
    hide Users;
    var before, after := Users(conns, ts), Users(conns - {a}, ts);
    assert before == after + {a} && |before| == |after| + 1;
    if refs[ts] == 1 { assert after == {}; }
  }

  lemma FirstUse(s: State)
    requires TableExact(s) && CountsExact(s.conns, s.refs)
    ensures Users(s.conns, s.nextShared) == {} && s.nextShared !in s.refs
  {
  }

  // ---------------------------------------------------------------- resolving

  /** Whether the thread has finished what it was building makes no difference. */
  lemma BuiltResolved(conns: Conns, act: map<Thread, Act>, resolve: Resolve, t: Thread)
    requires Resolved(conns, act, resolve) && (t in act ==> act[t].Building?)
    ensures Resolved(conns, act - {t}, resolve)
  {
    assert forall b, u :: Leaving(act, u, b) <==> Leaving(act - {t}, u, b);
  }

  lemma ListedResolved(conns: Conns, act: map<Thread, Act>, resolve: Resolve, t: Thread, ts: Shared, a: Addr)
    requires Resolved(conns, act, resolve) && a !in conns && (t, ts) !in resolve
    requires t in act ==> act[t].Building?
    ensures Resolved(conns[a := Conn(t, ts)], act, Listed(resolve, t, ts, a))
  {
    forall b | b in conns && conns[b] == Conn(t, ts) ensures Leaving(act, t, b) {}
    assert forall b | b in conns :: conns[b] != Conn(t, ts);
  }

  lemma UnlistedResolved(conns: Conns, act: map<Thread, Act>, resolve: Resolve, t: Thread, a: Addr)
    requires Resolved(conns, act, resolve) && a in conns && conns[a].owner == t && t !in act
    ensures Resolved(conns, act[t := Retiring(a)], Unlisted(resolve, conns[a], a))
  {
    var act' := act[t := Retiring(a)];
    assert forall b, u :: Leaving(act', u, b) <==> (if u == t then b == a else Leaving(act, u, b));
    assert resolve[(t, conns[a].ts)] == a;
  }

  lemma DroppedResolved(conns: Conns, act: map<Thread, Act>, resolve: Resolve, t: Thread, a: Addr)
    requires Resolved(conns, act, resolve) && a in conns && conns[a].owner == t && Leaving(act, t, a)
    ensures Resolved(conns - {a}, act - {t}, resolve)
  {
    assert forall b, u :: Leaving(act - {t}, u, b) <==> u != t && Leaving(act, u, b);
    assert forall b :: Leaving(act, t, b) <==> b == a;
  }

  lemma BuildingResolved(conns: Conns, act: map<Thread, Act>, resolve: Resolve, t: Thread, a: Addr)
    requires Resolved(conns, act, resolve) && t !in act
    ensures Resolved(conns, act[t := Building(a)], resolve)
  {
    assert forall b, u :: Leaving(act[t := Building(a)], u, b) <==> Leaving(act, u, b);
  }

  // ---------------------------------------------------------------- every step, every run

  lemma StepTable(s: State, step: Step)
    requires TableExact(s) && Enabled(s, step)
    ensures TableExact(Apply(s, step))
  {
  }

  lemma ConstructInv(s: State, t: Thread)
    requires Inv(s) && Enabled(s, Construct(t))
    ensures Inv(Apply(s, Construct(t)))
  {
    StepTable(s, Construct(t));
    var a, ts := s.act[t].a, s.nextShared;
    FirstUse(s);
    assert a !in s.conns && (t, ts) !in s.resolve;
    MoreExact(s.conns, s.refs, a, Conn(t, ts));
    ListedResolved(s.conns, s.act, s.resolve, t, ts, a);
    BuiltResolved(s.conns[a := Conn(t, ts)], s.act, Listed(s.resolve, t, ts, a), t);
    hide TableExact, CountsExact, Resolved, Listed;
  }

  lemma ConnectInv(s: State, t: Thread, address: Addr)
    requires Inv(s) && Enabled(s, Connect(t, address))
    ensures Inv(Apply(s, Connect(t, address)))
  {
    StepTable(s, Connect(t, address));
    var f := Lookup(s, t, address);
    if f.At? && f.isNew {
      var ts := s.conns[address].ts;
      assert s.nextAddr !in s.conns;
      MoreExact(s.conns, s.refs, s.nextAddr, Conn(t, ts));
      ListedResolved(s.conns, s.act, s.resolve, t, ts, s.nextAddr);
    }
    hide TableExact, CountsExact, Resolved, Listed, More;
  }

  lemma StepInv(s: State, step: Step)
    requires Inv(s) && Enabled(s, step)
    ensures Inv(Apply(s, step))
  {
    StepTable(s, step);
    match step
    case Alloc(t) => BuildingResolved(s.conns, s.act, s.resolve, t, s.nextAddr);
    case Construct(t) => ConstructInv(s, t);
    case Connect(t, address) => ConnectInv(s, t, address);
    case FreeBegin(t, a) => UnlistedResolved(s.conns, s.act, s.resolve, t, a);
    case FreeEnd(t) =>
      FewerExact(s.conns, s.refs, s.act[t].a);
      DroppedResolved(s.conns, s.act, s.resolve, t, s.act[t].a);
  }

  predicate Run(states: seq<State>, steps: seq<Step>) {
    && |states| == |steps| + 1
    && forall i :: 0 <= i < |steps| ==> Enabled(states[i], steps[i]) && states[i + 1] == Apply(states[i], steps[i])
  }

  /** Two runs of which one ends where the other begins are one run. */
  lemma RunOn(s: seq<State>, x: seq<Step>, r: seq<State>, y: seq<Step>)
    requires Run(s, x) && Run(r, y) && s[|x|] == r[0]
    ensures Run(s + r[1..], x + y) && (s + r[1..])[0] == s[0] && (s + r[1..])[|x + y|] == r[|y|]
  {
    hide Enabled, Apply;
    var states, steps := s + r[1..], x + y;
    forall i | 0 <= i < |steps| ensures Enabled(states[i], steps[i]) && states[i + 1] == Apply(states[i], steps[i]) {
      if i >= |x| { assert states[i] == r[i - |x|] && states[i + 1] == r[i - |x| + 1] && steps[i] == y[i - |x|]; }
    }
  }

  lemma {:induction false} RunInv(states: seq<State>, steps: seq<Step>, n: nat)
    requires Run(states, steps) && Inv(states[0]) && n <= |steps|
    ensures Inv(states[n])
  {
    hide Inv, Enabled, Apply;
    if n > 0 {
      RunInv(states, steps, n - 1);
      StepInv(states[n - 1], steps[n - 1]);
    }
  }

  lemma InitialInv()
    ensures Inv(Initial())
  {
    forall ts ensures Users(map[], ts) == {} {}
  }

  // ---------------------------------------------------------------- what follows

  /** An address can be followed exactly while its connection exists, and leads to its shared part. */
  lemma ConnectReaches(s: State, t: Thread, address: Addr)
    requires Inv(s) && Enabled(s, Connect(t, address))
    ensures Lookup(s, t, address).Gone? <==> address !in s.conns
    ensures var f, r := Lookup(s, t, address), Apply(s, Connect(t, address));
            f.At? ==> f.address in r.conns && r.conns[f.address] == Conn(t, s.conns[address].ts)
  {
    hide CountsExact;
  }

  /** The shared part goes with its last connection and not before. */
  lemma FreedWithTheLast(s: State, t: Thread)
    requires Inv(s) && Enabled(s, FreeEnd(t))
    ensures var a := s.act[t].a; var ts := s.conns[a].ts;
            ts in s.refs && (ts !in Apply(s, FreeEnd(t)).refs <==> Users(s.conns, ts) == {a})
  {
    FewerExact(s.conns, s.refs, s.act[t].a);
    hide Fewer, CountsExact, TableExact, Resolved;
  }

  /** A step frees no connection but the actor's own. */
  lemma OthersUntouched(s: State, step: Step, a: Addr)
    requires Inv(s) && Enabled(s, step) && a in s.conns && s.conns[a].owner != step.t
    ensures a in Apply(s, step).conns && Apply(s, step).conns[a] == s.conns[a]
  {
    hide CountsExact, Resolved;
  }

  /** While thread `t` keeps its connection nothing the other threads do can free the shared part. */
  lemma {:induction false} KeptAlive(states: seq<State>, steps: seq<Step>, n: nat, a: Addr)
    requires Run(states, steps) && Inv(states[0]) && n <= |steps| && a in states[0].conns
    requires forall i :: 0 <= i < n ==> steps[i].t != states[0].conns[a].owner
    ensures Inv(states[n]) && a in states[n].conns && states[n].conns[a] == states[0].conns[a]
    ensures states[0].conns[a].ts in states[n].refs
  {
    hide TableExact, Resolved, CountsExact, Enabled, Apply;
    RunInv(states, steps, n);
    if n > 0 {
      KeptAlive(states, steps, n - 1, a);
      OthersUntouched(states[n - 1], steps[n - 1], a);
    }
    Counted(states[n], a);
  }

  lemma Counted(s: State, a: Addr)
    requires Inv(s) && a in s.conns
    ensures s.conns[a].ts in s.refs
  {
    assert a in Users(s.conns, s.conns[a].ts);
  }
}
