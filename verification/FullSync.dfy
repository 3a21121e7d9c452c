/**
  The recursive sync that rescues a finished thread's objects (src/store.c,
  src/worker.c, src/routine.c): the creator connects to everything reachable from the
  thread, its collectable tasks and the shared globals before the thread may go away.
  Only the recursion stack stops the walk, so on a cyclic graph an object can be met
  many times; it still ends.  A property cache that is in sync is trusted as it stands,
  so the walk follows the cached entry where there is one; it reaches exactly what is
  reachable that way, and that is everything if and only if those caches are honest.
  */
module FullSync {
  import opened Options
  import Connections

  type Obj = nat
  type Key = nat
  type Addr = Connections.Addr
  type Net = Connections.State
  type Thread = Connections.Thread

  /** A reference under a key: the address that is stored and the object it leads to. */
  datatype Ref = Ref(key: Key, at: Addr, to: Option<Obj>)

  /** Shared objects, the references their tables hold, and the tasks waiting in the
      collectable list of those that are workers of this thread. */
  datatype Graph = Graph(nodes: set<Obj>, refs: map<Obj, seq<Ref>>, tasks: map<Obj, seq<Obj>>)

  function RefsOf(g: Graph, o: Obj): seq<Ref> { if o in g.refs then g.refs[o] else [] }

  function TasksOf(g: Graph, o: Obj): seq<Obj> { if o in g.tasks then g.tasks[o] else [] }

  function End(to: Option<Obj>): seq<Obj> { if to.Some? then [to.value] else [] }

  /** Where the references of a table lead. */
  function Ends(refs: seq<Ref>): seq<Obj> {
    if refs == [] then [] else Ends(refs[..|refs| - 1]) + End(refs[|refs| - 1].to)
  }

  lemma {:induction false} EndsHas(refs: seq<Ref>, i: nat)
    requires i < |refs| && refs[i].to.Some?
    ensures refs[i].to.value in Ends(refs)
  {
    if i < |refs| - 1 { EndsHas(refs[..|refs| - 1], i); }
  }

  /** Where the references of a table and then the collectable tasks lead. */
  function Targets(g: Graph, o: Obj): seq<Obj> { Ends(RefsOf(g, o)) + TasksOf(g, o) }

  /** Every reference and task leads into the graph, and keys are distinct. */
  predicate Sound(g: Graph) {
    && (forall o | o in g.nodes :: Within(g, Targets(g, o)))
    && (forall o | o in g.nodes :: DistinctKeys(RefsOf(g, o)))
  }

  predicate DistinctKeys(refs: seq<Ref>) { forall i, j :: 0 <= i < j < |refs| ==> refs[i].key != refs[j].key }

  predicate Within(g: Graph, l: seq<Obj>) { forall i :: 0 <= i < |l| ==> l[i] in g.nodes }

  predicate Edge(g: Graph, o: Obj, x: Obj) { x in Targets(g, o) }

  lemma InGraph(g: Graph, o: Obj)
    requires Sound(g) && o in g.nodes
    ensures Within(g, Targets(g, o)) && Within(g, Ends(RefsOf(g, o))) && Within(g, TasksOf(g, o))
  {
    var l, m := Ends(RefsOf(g, o)), TasksOf(g, o);
    assert Within(g, l + m);
    forall i | 0 <= i < |l| ensures l[i] in g.nodes { assert (l + m)[i] == l[i]; }
    forall i | 0 <= i < |m| ensures m[i] in g.nodes { assert (l + m)[|l| + i] == m[i]; }
  }

  lemma EdgeInside(g: Graph, o: Obj, x: Obj)
    requires Sound(g) && o in g.nodes && Edge(g, o, x)
    ensures x in g.nodes
  {
    assert Within(g, Targets(g, o));
  }

  // ---------------------------------------------------------------- reachability

  /** A path in the graph that stays clear of `avoid`. */
  predicate Path(g: Graph, p: seq<Obj>, avoid: set<Obj>) {
    && p != [] && (forall i :: 0 <= i < |p| ==> p[i] in g.nodes && p[i] !in avoid)
    && (forall i :: 0 <= i < |p| - 1 ==> Edge(g, p[i], p[i + 1]))
  }

  ghost predicate Reaches(g: Graph, o: Obj, x: Obj, avoid: set<Obj>) {
    exists p :: p != [] && Path(g, p, avoid) && p[0] == o && p[|p| - 1] == x
  }

  /** How many objects the walk has not got on its stack: what makes it end. */
  function Room(g: Graph, stack: set<Obj>): nat { |g.nodes - stack| }

  lemma Shrinks(g: Graph, stack: set<Obj>, o: Obj)
    requires o in g.nodes && o !in stack
    ensures Room(g, stack + {o}) < Room(g, stack)
  {
    assert g.nodes - stack == (g.nodes - (stack + {o})) + {o};
  }

  /** The objects the walk visits from `o` when the objects in `stack` are being synced already. */
  function Visit(g: Graph, o: Obj, stack: set<Obj>): set<Obj>
    decreases Room(g, stack), 1, 0
  {
    if o in stack || o !in g.nodes then {}
    else
      Shrinks(g, stack, o);
      {o} + VisitAll(g, Targets(g, o), stack + {o})
  }

  function VisitAll(g: Graph, l: seq<Obj>, stack: set<Obj>): set<Obj>
    decreases Room(g, stack), 2, |l|
  {
    if l == [] then {} else VisitAll(g, l[..|l| - 1], stack) + Visit(g, l[|l| - 1], stack)
  }

  lemma VisitUnfolds(g: Graph, o: Obj, stack: set<Obj>)
    requires o in g.nodes
    ensures Visit(g, o, stack) == if o in stack then {} else {o} + VisitAll(g, Targets(g, o), stack + {o})
  {
    hide VisitAll, Room;
  }

  lemma VisitAllSnoc(g: Graph, l: seq<Obj>, i: nat, stack: set<Obj>)
    requires i < |l|
    ensures VisitAll(g, l[..i + 1], stack) == VisitAll(g, l[..i], stack) + Visit(g, l[i], stack)
  {
    hide Visit, Room;
    assert l[..i + 1][..i] == l[..i];
  }

  lemma {:induction false} VisitAllSplit(g: Graph, l: seq<Obj>, m: seq<Obj>, stack: set<Obj>)
    ensures VisitAll(g, l + m, stack) == VisitAll(g, l, stack) + VisitAll(g, m, stack)
    decreases |m|
  {
    hide Visit, Room;
    if m == [] {
      assert l + m == l;
    } else {
      var n := |m| - 1;
      VisitAllSplit(g, l, m[..n], stack);
      assert (l + m)[..|l + m| - 1] == l + m[..n];
    }
  }

  lemma {:induction false} VisitAllMember(g: Graph, l: seq<Obj>, stack: set<Obj>, x: Obj)
    ensures x in VisitAll(g, l, stack) <==> exists y :: y in l && x in Visit(g, y, stack)
    decreases |l|
  {
    if l != [] {
      var m, y := l[..|l| - 1], l[|l| - 1];
      VisitAllMember(g, m, stack, x);
      assert VisitAll(g, l, stack) == VisitAll(g, m, stack) + Visit(g, y, stack);
      hide Visit, VisitAll;
      forall z ensures z in l <==> z in m || z == y { assert l == m + [y]; }
      if x in VisitAll(g, m, stack) {
        var z :| z in m && x in Visit(g, z, stack);
        assert z in l;
      }
    }
  }

  /** One level of the walk, in terms of edges. */
  lemma VisitStep(g: Graph, o: Obj, stack: set<Obj>, x: Obj)
    requires o in g.nodes && o !in stack
    ensures x in Visit(g, o, stack) <==> x == o || exists y :: Edge(g, o, y) && x in Visit(g, y, stack + {o})
  {
    VisitUnfolds(g, o, stack);
    hide Visit, VisitAll;
    VisitAllMember(g, Targets(g, o), stack + {o}, x);
  }

  lemma PathCons(g: Graph, o: Obj, p: seq<Obj>, avoid: set<Obj>)
    requires o in g.nodes && o !in avoid && Path(g, p, avoid + {o}) && Edge(g, o, p[0])
    ensures Path(g, [o] + p, avoid) && ([o] + p)[|p|] == p[|p| - 1]
  {
    hide Edge;
    var q := [o] + p;
    forall i | 0 <= i < |q| - 1 ensures Edge(g, q[i], q[i + 1]) {
      if i > 0 { assert q[i] == p[i - 1] && q[i + 1] == p[i]; }
    }
  }

  lemma ReachesBack(g: Graph, o: Obj, y: Obj, x: Obj, avoid: set<Obj>)
    requires o in g.nodes && o !in avoid && Edge(g, o, y) && Reaches(g, y, x, avoid + {o})
    ensures Reaches(g, o, x, avoid)
  {
    hide Path, Edge;
    var p :| p != [] && Path(g, p, avoid + {o}) && p[0] == y && p[|p| - 1] == x;
    PathCons(g, o, p, avoid);
    assert ([o] + p)[0] == o && ([o] + p)[|[o] + p| - 1] == x;
  }

  lemma ReachesItself(g: Graph, o: Obj, avoid: set<Obj>)
    requires o in g.nodes && o !in avoid
    ensures Reaches(g, o, o, avoid)
  {
    assert Path(g, [o], avoid);
  }

  /** The walk visits only what some path clear of the stack leads to. */
  lemma {:induction false} VisitSound(g: Graph, o: Obj, stack: set<Obj>, x: Obj)
    requires Sound(g) && o in g.nodes && x in Visit(g, o, stack)
    ensures Reaches(g, o, x, stack)
    decreases Room(g, stack)
  {
    if o in stack { VisitUnfolds(g, o, stack); assert false; }
    VisitStep(g, o, stack, x);
    hide Visit, Edge, Room, Reaches, Sound;
    if x == o {
      ReachesItself(g, o, stack);
    } else {
      var y :| Edge(g, o, y) && x in Visit(g, y, stack + {o});
      EdgeInside(g, o, y);
      Shrinks(g, stack, o);
      VisitSound(g, y, stack + {o}, x);
      ReachesBack(g, o, y, x, stack);
    }
  }

  function LastAt(p: seq<Obj>, o: Obj): (j: nat)
    requires p != [] && p[0] == o
    ensures j < |p| && p[j] == o && forall i :: j < i < |p| ==> p[i] != o
  {
    if |p| == 1 then 0 else if p[|p| - 1] == o then |p| - 1 else LastAt(p[..|p| - 1], o)
  }

  /** What is left of a path after its last return to the start avoids the start. */
  lemma PathAfter(g: Graph, p: seq<Obj>, j: nat, avoid: set<Obj>)
    requires Path(g, p, avoid) && j < |p| - 1 && forall i :: j < i < |p| ==> p[i] != p[j]
    ensures Path(g, p[j + 1..], avoid + {p[j]}) && Edge(g, p[j], p[j + 1]) && p[j + 1] in g.nodes
  {
    hide Edge;
    var q := p[j + 1..];
    forall i | 0 <= i < |q| - 1 ensures Edge(g, q[i], q[i + 1]) { assert Edge(g, p[j + 1 + i], p[j + 2 + i]); }
  }

  /** And everything such a path leads to, although it may run in circles: cut it at its last return to the start. */
  lemma {:induction false} VisitComplete(g: Graph, o: Obj, stack: set<Obj>, p: seq<Obj>)
    requires Path(g, p, stack) && p[0] == o
    ensures p[|p| - 1] in Visit(g, o, stack)
    decreases Room(g, stack)
  {
    var j, x := LastAt(p, o), p[|p| - 1];
    assert o in g.nodes && o !in stack;
    VisitStep(g, o, stack, x);
    if j < |p| - 1 {
      PathAfter(g, p, j, stack);
      hide Visit, Path, Edge, Room;
      var q := p[j + 1..];
      Shrinks(g, stack, o);
      VisitComplete(g, q[0], stack + {o}, q);
      assert q[|q| - 1] == x && Edge(g, o, q[0]) && x in Visit(g, q[0], stack + {o});
    }
  }

  /** With nothing on the stack the walk visits exactly what is reachable. */
  lemma VisitIsReach(g: Graph, o: Obj, x: Obj)
    requires Sound(g) && o in g.nodes
    ensures x in Visit(g, o, {}) <==> Reaches(g, o, x, {})
  {
    hide Visit, Sound, Path;
    if x in Visit(g, o, {}) { VisitSound(g, o, {}, x); }
    if Reaches(g, o, x, {}) {
      var p :| p != [] && Path(g, p, {}) && p[0] == o && p[|p| - 1] == x;
      VisitComplete(g, o, {}, p);
    }
  }

  // ---------------------------------------------------------------- caches

  /** What is cached under a key: a connection to an object, or some other value. */
  type Caches = map<Obj, map<Key, Option<Obj>>>

  /** What the thread's connection to `o` has cached. */
  function At(cache: Caches, o: Obj): map<Key, Option<Obj>> { if o in cache then cache[o] else map[] }

  /** The first `n` of these references are held by the cache. */
  predicate HoldsRefs(m: map<Key, Option<Obj>>, refs: seq<Ref>, n: nat) {
    forall i :: 0 <= i < n && i < |refs| ==> refs[i].key in m && m[refs[i].key] == refs[i].to
  }

  predicate Holds(cache: Caches, g: Graph, o: Obj, n: nat) { HoldsRefs(At(cache, o), RefsOf(g, o), n) }

  /** Every reference of `o` is held, so what it leads to cannot lose its connection. */
  predicate Whole(cache: Caches, g: Graph, o: Obj) { Holds(cache, g, o, |RefsOf(g, o)|) }

  predicate Points(m: map<Key, Option<Obj>>, connected: set<Obj>) {
    forall k | k in m :: m[k].Some? ==> m[k].value in connected
  }

  /** What is cached is connected, and so are the tasks this thread handed to its workers. */
  ghost predicate Backed(cache: Caches, connected: set<Obj>, g: Graph) {
    && (forall o | o in cache :: Points(cache[o], connected))
    && (forall o, x | x in TasksOf(g, o) :: x in connected)
  }

  /** In a cache that is trusted, an entry under a stored reference is that reference. */
  predicate Honest(cache: Caches, synced: set<Obj>, g: Graph, o: Obj) {
    o in synced ==> forall i :: 0 <= i < |RefsOf(g, o)| && RefsOf(g, o)[i].key in At(cache, o) ==>
                      At(cache, o)[RefsOf(g, o)[i].key] == RefsOf(g, o)[i].to
  }

  // ---------------------------------------------------------------- what the walk follows

  /** A trusted cache entry takes the place of the stored reference. */
  function Trusted(r: Ref, m: map<Key, Option<Obj>>, insync: bool): Ref {
    if insync && r.key in m then r.(to := m[r.key]) else r
  }

  function TrustedRefs(refs: seq<Ref>, m: map<Key, Option<Obj>>, insync: bool): (l: seq<Ref>)
    ensures |l| == |refs| && forall i :: 0 <= i < |refs| ==> l[i] == Trusted(refs[i], m, insync)
  {
    seq(|refs|, i requires 0 <= i < |refs| => Trusted(refs[i], m, insync))
  }

  /** The graph as the walk sees it, given what the thread has cached and which caches are in sync. */
  function Seen(g: Graph, cache: Caches, synced: set<Obj>): Graph {
    g.(refs := map o | o in g.refs :: TrustedRefs(g.refs[o], At(cache, o), o in synced))
  }

  predicate FitsAt(cache: Caches, synced: set<Obj>, g: Graph, e: Graph, o: Obj) {
    RefsOf(e, o) == TrustedRefs(RefsOf(g, o), At(cache, o), o in synced)
  }

  /** `e` is what the walk sees now, and it stays so. */
  ghost predicate Fits(cache: Caches, synced: set<Obj>, g: Graph, e: Graph) {
    e.nodes == g.nodes && e.tasks == g.tasks && forall o :: FitsAt(cache, synced, g, e, o)
  }

  lemma SeenFits(g: Graph, cache: Caches, synced: set<Obj>)
    ensures Fits(cache, synced, g, Seen(g, cache, synced))
  {
    hide TrustedRefs;
    forall o ensures FitsAt(cache, synced, g, Seen(g, cache, synced), o) {
      if o !in g.refs { NoRefs(At(cache, o), o in synced); }
    }
  }

  lemma NoRefs(m: map<Key, Option<Obj>>, insync: bool)
    ensures TrustedRefs([], m, insync) == []
  {
  }

  /** At an honest object the walk sees what is stored, and only there. */
  lemma SeenIffHonest(cache: Caches, synced: set<Obj>, g: Graph, e: Graph, o: Obj)
    requires FitsAt(cache, synced, g, e, o)
    ensures RefsOf(e, o) == RefsOf(g, o) <==> Honest(cache, synced, g, o)
  {
    var l, refs, m := RefsOf(e, o), RefsOf(g, o), At(cache, o);
    hide RefsOf, At;
    if l == refs {
      forall i | 0 <= i < |refs| && o in synced && refs[i].key in m ensures m[refs[i].key] == refs[i].to {
        assert l[i] == Trusted(refs[i], m, true);
      }
    }
    if Honest(cache, synced, g, o) {
      forall i | 0 <= i < |refs| ensures l[i] == refs[i] { assert l[i] == Trusted(refs[i], m, o in synced); }
    }
  }

  predicate CachedInside(cache: Caches, nodes: set<Obj>) { forall o | o in cache :: Points(cache[o], nodes) }

  lemma {:induction false} EndsInside(refs: seq<Ref>, nodes: set<Obj>)
    requires forall i :: 0 <= i < |refs| ==> refs[i].to.Some? ==> refs[i].to.value in nodes
    ensures forall i :: 0 <= i < |Ends(refs)| ==> Ends(refs)[i] in nodes
  {
    if refs != [] { EndsInside(refs[..|refs| - 1], nodes); }
  }

  lemma SeenInside(g: Graph, cache: Caches, synced: set<Obj>, e: Graph, o: Obj)
    requires Sound(g) && CachedInside(cache, g.nodes) && Fits(cache, synced, g, e) && o in g.nodes
    ensures Within(e, Targets(e, o)) && DistinctKeys(RefsOf(e, o))
  {
    var l, refs, m := RefsOf(e, o), RefsOf(g, o), At(cache, o);
    assert FitsAt(cache, synced, g, e, o) && Within(g, Targets(g, o)) && DistinctKeys(refs);
    InGraph(g, o);
    if o in cache { assert Points(cache[o], g.nodes); }
    forall i | 0 <= i < |l| ensures l[i].key == refs[i].key && (l[i].to.Some? ==> l[i].to.value in g.nodes) {
      assert l[i] == Trusted(refs[i], m, o in synced);
      if refs[i].to.Some? { EndsHas(refs, i); }
    }
    hide Sound, Fits, CachedInside;
    EndsInside(l, g.nodes);
  }

  lemma SeenSound(g: Graph, cache: Caches, synced: set<Obj>, e: Graph)
    requires Sound(g) && CachedInside(cache, g.nodes) && Fits(cache, synced, g, e)
    ensures Sound(e)
  {
    forall o | o in e.nodes ensures Within(e, Targets(e, o)) && DistinctKeys(RefsOf(e, o)) {
      SeenInside(g, cache, synced, e, o);
    }
    hide Within, Targets, DistinctKeys;
  }

  // ---------------------------------------------------------------- the connections behind the walk

  predicate Mine(net: Net, me: Thread, x: Obj) {
    exists a | a in net.conns :: net.conns[a] == Connections.Conn(me, x)
  }

  /** The stored address can still be followed, and leads to the object. */
  predicate LiveRef(net: Net, r: Ref) { r.at in net.conns && r.to == Some(net.conns[r.at].ts) }

  predicate LiveRefs(net: Net, refs: seq<Ref>) { forall i :: 0 <= i < |refs| ==> LiveRef(net, refs[i]) }

  /** Every stored reference is live, and thread `me` has a connection to everything in `connected`. */
  ghost predicate Tied(net: Net, me: Thread, connected: set<Obj>, g: Graph) {
    && Connections.Inv(net) && me !in net.act
    && (forall o :: LiveRefs(net, RefsOf(g, o)))
    && (forall x | x in connected :: Mine(net, me, x))
  }

  ghost predicate IsStored(g: Graph, a: Addr) { exists o: Obj, i: nat :: i < |RefsOf(g, o)| && RefsOf(g, o)[i].at == a }

  ghost predicate OwnConnects(steps: seq<Connections.Step>, me: Thread, g: Graph) {
    forall i :: 0 <= i < |steps| ==> steps[i].Connect? && steps[i].t == me && IsStored(g, steps[i].address)
  }

  /** Steps of `me` that follow stored addresses lead from `was` to `now`. */
  ghost predicate Followed(was: Net, now: Net, me: Thread, g: Graph) {
    exists states: seq<Net>, steps: seq<Connections.Step> ::
      Connections.Run(states, steps) && OwnConnects(steps, me, g) && states[0] == was && states[|steps|] == now
  }

  lemma FollowedNothing(net: Net, me: Thread, g: Graph)
    ensures Followed(net, net, me, g)
  {
    assert Connections.Run([net], []) && OwnConnects([], me, g);
  }

  lemma FollowedOn(a: Net, b: Net, c: Net, me: Thread, g: Graph)
    requires Followed(a, b, me, g) && Followed(b, c, me, g)
    ensures Followed(a, c, me, g)
  {
    hide IsStored;
    var s, x :| Connections.Run(s, x) && OwnConnects(x, me, g) && s[0] == a && s[|x|] == b;
    var r, y :| Connections.Run(r, y) && OwnConnects(y, me, g) && r[0] == b && r[|y|] == c;
    Connections.RunOn(s, x, r, y);
    assert OwnConnects(x + y, me, g);
  }

  lemma ConnectGrows(net: Net, me: Thread, a: Addr)
    requires Connections.Inv(net) && Connections.Enabled(net, Connections.Connect(me, a))
    ensures var now := Connections.Apply(net, Connections.Connect(me, a));
            && now.act == net.act
            && (forall b | b in net.conns :: b in now.conns && now.conns[b] == net.conns[b])
  {
    hide Connections.CountsExact, Connections.Resolved;
  }

  lemma ConnectEnabled(net: Net, me: Thread, a: Addr)
    requires Connections.Inv(net) && me !in net.act && a in net.conns
    ensures Connections.Enabled(net, Connections.Connect(me, a)) && Connections.Lookup(net, me, a).At?
  {
    hide Connections.CountsExact, Connections.Resolved;
  }

  lemma StillLive(net: Net, now: Net, refs: seq<Ref>)
    requires LiveRefs(net, refs) && forall b | b in net.conns :: b in now.conns && now.conns[b] == net.conns[b]
    ensures LiveRefs(now, refs)
  {
    forall i | 0 <= i < |refs| ensures LiveRef(now, refs[i]) { assert LiveRef(net, refs[i]); }
  }

  lemma StillMine(net: Net, now: Net, me: Thread, x: Obj)
    requires Mine(net, me, x) && forall b | b in net.conns :: b in now.conns && now.conns[b] == net.conns[b]
    ensures Mine(now, me, x)
  {
  }

  lemma FollowedOnce(net: Net, me: Thread, a: Addr, g: Graph)
    requires Connections.Enabled(net, Connections.Connect(me, a)) && IsStored(g, a)
    ensures Followed(net, Connections.Apply(net, Connections.Connect(me, a)), me, g)
  {
    hide Connections.Enabled, Connections.Apply, IsStored;
    var step := Connections.Connect(me, a);
    assert Connections.Run([net, Connections.Apply(net, step)], [step]) && OwnConnects([step], me, g);
  }

  /** Following a stored address is a Connect step, after which its object is held too. */
  lemma Follow(net: Net, me: Thread, connected: set<Obj>, g: Graph, o: Obj, i: nat, x: Obj)
    requires Tied(net, me, connected, g) && i < |RefsOf(g, o)| && RefsOf(g, o)[i].to == Some(x)
    ensures var step := Connections.Connect(me, RefsOf(g, o)[i].at);
            && Connections.Enabled(net, step)
            && Followed(net, Connections.Apply(net, step), me, g)
            && Tied(Connections.Apply(net, step), me, connected + {x}, g)
  {
    var a := RefsOf(g, o)[i].at;
    assert LiveRefs(net, RefsOf(g, o)) && LiveRef(net, RefsOf(g, o)[i]);
    assert IsStored(g, a);
    hide Connections.Inv, Connections.Enabled, Connections.Apply, Followed, LiveRefs, Mine, IsStored;
    ConnectEnabled(net, me, a);
    Connections.ConnectReaches(net, me, a);
    Connections.StepInv(net, Connections.Connect(me, a));
    ConnectGrows(net, me, a);
    FollowedOnce(net, me, a, g);
    var now := Connections.Apply(net, Connections.Connect(me, a));
    HeldThere(now, me, Connections.Lookup(net, me, a).address, x);
    StillTied(net, now, me, connected, g, x);
  }

  lemma StillTied(net: Net, now: Net, me: Thread, connected: set<Obj>, g: Graph, x: Obj)
    requires Tied(net, me, connected, g) && Connections.Inv(now) && now.act == net.act && Mine(now, me, x)
    requires forall b | b in net.conns :: b in now.conns && now.conns[b] == net.conns[b]
    ensures Tied(now, me, connected + {x}, g)
  {
    hide Connections.Inv, LiveRefs, Mine, RefsOf;
    forall y | y in connected ensures Mine(now, me, y) { StillMine(net, now, me, y); }
    forall o ensures LiveRefs(now, RefsOf(g, o)) { StillLive(net, now, RefsOf(g, o)); }
  }

  lemma HeldThere(net: Net, me: Thread, a: Addr, x: Obj)
    requires a in net.conns && net.conns[a] == Connections.Conn(me, x)
    ensures Mine(net, me, x)
  {
  }

  // ---------------------------------------------------------------- one thread's view

  /** What the walk changes: the caches, which of them are in sync, what the thread is
      connected to, and the connections. */
  datatype Snap = Snap(cache: Caches, synced: set<Obj>, connected: set<Obj>, net: Net)

  /** What stays: the thread, the graph as it is stored, and the graph as the walk sees it. */
  datatype Walk = Walk(me: Thread, g: Graph, e: Graph)

  ghost predicate Ready(s: Snap, w: Walk) {
    Backed(s.cache, s.connected, w.g) && Tied(s.net, w.me, s.connected, w.g) && Fits(s.cache, s.synced, w.g, w.e)
  }

  /** The thread has followed references, and is now connected to `found` as well. */
  ghost predicate Moved(was: Snap, now: Snap, w: Walk, found: set<Obj>) {
    && now.connected == was.connected + found && was.synced <= now.synced
    && Followed(was.net, now.net, w.me, w.g)
  }

  lemma Unmoved(s: Snap, r: Snap, w: Walk)
    requires r.connected == s.connected && r.net == s.net && s.synced <= r.synced
    ensures Moved(s, r, w, {})
  {
    FollowedNothing(s.net, w.me, w.g);
  }

  lemma MovedOn(a: Snap, b: Snap, c: Snap, w: Walk, found: set<Obj>, more: set<Obj>)
    requires Moved(a, b, w, found) && Moved(b, c, w, more)
    ensures Moved(a, c, w, found + more)
  {
    FollowedOn(a.net, b.net, c.net, w.me, w.g);
    hide Followed;
  }

  /** From an unmoved state on, counting in something the thread was connected to before. */
  lemma MovedFrom(a: Snap, b: Snap, c: Snap, w: Walk, o: Obj, found: set<Obj>)
    requires a.connected == b.connected && a.net == b.net && a.synced <= b.synced
    requires o in a.connected && Moved(b, c, w, found)
    ensures Moved(a, c, w, {o} + found)
  {
    hide Followed;
    assert a.connected + found == a.connected + ({o} + found);
  }

  /** Over an object that is found anyway or was connected to before. */
  lemma MovedOver(a: Snap, b: Snap, c: Snap, w: Walk, x: Obj, found: set<Obj>)
    requires Moved(a, b, w, {x}) && Moved(b, c, w, found) && (x in a.connected || x in found)
    ensures Moved(a, c, w, found) && x in c.connected
  {
    FollowedOn(a.net, b.net, c.net, w.me, w.g);
    hide Followed;
    assert a.connected + {x} + found == a.connected + found;
  }

  lemma MovedKeeps(a: Snap, b: Snap, w: Walk, found: set<Obj>)
    requires Moved(a, b, w, found)
    ensures a.connected <= b.connected && a.synced <= b.synced
  {
  }

  lemma ReadyBacked(s: Snap, w: Walk)
    requires Ready(s, w)
    ensures Backed(s.cache, s.connected, w.g) && w.e.nodes == w.g.nodes && w.e.tasks == w.g.tasks
  {
  }

  lemma ReadyFits(s: Snap, w: Walk, o: Obj)
    requires Ready(s, w)
    ensures FitsAt(s.cache, s.synced, w.g, w.e, o)
  {
  }

  // ---------------------------------------------------------------- cleaning and entering

  predicate Vouched(refs: seq<Ref>, k: Key, v: Option<Obj>) {
    exists i :: 0 <= i < |refs| && refs[i].key == k && refs[i].to == v
  }

  function CleanedMap(m: map<Key, Option<Obj>>, refs: seq<Ref>): map<Key, Option<Obj>> {
    map k | k in m && Vouched(refs, k, m[k]) :: m[k]
  }

  /** The entries of `o` the table still vouches for. */
  function Cleaned(cache: Caches, g: Graph, o: Obj): Caches { cache[o := CleanedMap(At(cache, o), RefsOf(g, o))] }

  lemma CleanedTrusted(m: map<Key, Option<Obj>>, refs: seq<Ref>)
    requires DistinctKeys(refs)
    ensures TrustedRefs(refs, CleanedMap(m, refs), true) == TrustedRefs(refs, m, false)
  {
    var n := CleanedMap(m, refs);
    forall i | 0 <= i < |refs| ensures Trusted(refs[i], n, true) == refs[i] {
      if refs[i].key in n {
        var j :| 0 <= j < |refs| && refs[j].key == refs[i].key && refs[j].to == n[refs[i].key];
        assert j == i;
      }
    }
  }

  lemma CleanedHolds(m: map<Key, Option<Obj>>, refs: seq<Ref>, n: nat)
    requires HoldsRefs(m, refs, n)
    ensures HoldsRefs(CleanedMap(m, refs), refs, n)
  {
  }

  lemma TrustedAll(refs: seq<Ref>, m: map<Key, Option<Obj>>)
    ensures TrustedRefs(refs, m, false) == refs
  {
  }

  lemma CleanedBacked(cache: Caches, connected: set<Obj>, g: Graph, o: Obj)
    requires Backed(cache, connected, g)
    ensures Backed(Cleaned(cache, g, o), connected, g)
  {
    if o in cache { assert Points(cache[o], connected); }
    assert Points(Cleaned(cache, g, o)[o], connected);
  }

  lemma CleanedAway(cache: Caches, g: Graph, o: Obj, y: Obj)
    ensures At(Cleaned(cache, g, o), y) == if y == o then CleanedMap(At(cache, o), RefsOf(g, o)) else At(cache, y)
  {
    hide CleanedMap;
  }

  lemma CleanedFits(cache: Caches, synced: set<Obj>, g: Graph, e: Graph, o: Obj)
    requires Fits(cache, synced, g, e) && o !in synced && DistinctKeys(RefsOf(g, o))
    ensures Fits(Cleaned(cache, g, o), synced + {o}, g, e)
  {
    hide RefsOf, Cleaned, At, DistinctKeys, TrustedRefs;
    forall y ensures FitsAt(Cleaned(cache, g, o), synced + {o}, g, e, y) {
      assert FitsAt(cache, synced, g, e, y);
      CleanedAway(cache, g, o, y);
      if y == o { CleanedTrusted(At(cache, o), RefsOf(g, o)); }
    }
  }

  /** The cache of `o` with one more reference. */
  function Entered(cache: Caches, o: Obj, k: Key, x: Option<Obj>): Caches { cache[o := At(cache, o)[k := x]] }

  lemma EnteredAway(cache: Caches, o: Obj, k: Key, x: Option<Obj>, y: Obj)
    ensures At(Entered(cache, o, k, x), y) == if y == o then At(cache, o)[k := x] else At(cache, y)
  {
  }

  lemma EnteredTrusted(m: map<Key, Option<Obj>>, refs: seq<Ref>, i: nat)
    requires DistinctKeys(refs) && i < |refs| && refs[i].key !in m
    ensures TrustedRefs(refs, m[refs[i].key := refs[i].to], true) == TrustedRefs(refs, m, true)
  {
    var n := m[refs[i].key := refs[i].to];
    forall j | 0 <= j < |refs| ensures Trusted(refs[j], n, true) == Trusted(refs[j], m, true) {
      assert j != i ==> refs[j].key != refs[i].key;
    }
  }

  lemma EnteredFits(cache: Caches, synced: set<Obj>, g: Graph, e: Graph, o: Obj, i: nat)
    requires Fits(cache, synced, g, e) && o in synced && DistinctKeys(RefsOf(g, o))
    requires i < |RefsOf(g, o)| && RefsOf(g, o)[i].key !in At(cache, o)
    ensures Fits(Entered(cache, o, RefsOf(g, o)[i].key, RefsOf(g, o)[i].to), synced, g, e)
  {
    hide RefsOf, Entered, At, DistinctKeys, TrustedRefs;
    var r := RefsOf(g, o)[i];
    forall y ensures FitsAt(Entered(cache, o, r.key, r.to), synced, g, e, y) {
      assert FitsAt(cache, synced, g, e, y);
      EnteredAway(cache, o, r.key, r.to, y);
      if y == o { EnteredTrusted(At(cache, o), RefsOf(g, o), i); }
    }
  }

  lemma EnteredBacked(cache: Caches, connected: set<Obj>, g: Graph, o: Obj, k: Key, x: Option<Obj>)
    requires Backed(cache, connected, g) && (x.Some? ==> x.value in connected)
    ensures Backed(Entered(cache, o, k, x), connected, g)
  {
    if o in cache { assert Points(cache[o], connected); }
    assert Points(At(cache, o)[k := x], connected);
  }

  /** What a trusted entry is, is what the walk sees; without an entry the walk sees what is stored. */
  lemma SeenRef(s: Snap, w: Walk, o: Obj, i: nat)
    requires Ready(s, w) && o in s.synced && i < |RefsOf(w.g, o)|
    ensures |RefsOf(w.e, o)| == |RefsOf(w.g, o)| && RefsOf(w.e, o)[i].key == RefsOf(w.g, o)[i].key
    ensures var r := RefsOf(w.g, o)[i];
            RefsOf(w.e, o)[i].to == if r.key in At(s.cache, o) then At(s.cache, o)[r.key] else r.to
  {
    ReadyFits(s, w, o);
    hide Ready, RefsOf, At;
  }

  // The contracts of the walk, each as one predicate on what it starts from and what it leaves.

  ghost predicate CanSync(s: Snap, w: Walk, o: Obj, stack: set<Obj>) {
    && Sound(w.g) && Sound(w.e) && o in w.g.nodes && o in s.connected && stack <= s.connected && Ready(s, w)
  }

  /** Everything in `found` is connected and whole, and the objects on the stack were left alone. */
  ghost predicate Synced(a: Snap, b: Snap, w: Walk, found: set<Obj>, stack: set<Obj>) {
    Ready(b, w) && Moved(a, b, w, found) && Advance(a.cache, b.cache, w.e, found, stack)
  }

  /** In the middle of `o`, which is on the stack and in sync, and of which `i` references are held. */
  ghost predicate Amid(s: Snap, w: Walk, o: Obj, inner: set<Obj>, i: nat) {
    CanSync(s, w, o, inner) && o in inner && o in s.synced && Holds(s.cache, w.e, o, i)
  }

  ghost predicate SyncedBut(a: Snap, b: Snap, w: Walk, o: Obj, found: set<Obj>, inner: set<Obj>) {
    Ready(b, w) && Moved(a, b, w, found) && AdvanceBut(a.cache, b.cache, w.e, o, found, inner)
  }

  /** After the local sync of `o`. */
  ghost predicate LocalDone(a: Snap, b: Snap, w: Walk, o: Obj) {
    && Ready(b, w) && b.connected == a.connected && b.net == a.net && b.synced == a.synced + {o}
    && (forall y | y != o :: At(b.cache, y) == At(a.cache, y))
    && (Whole(a.cache, w.e, o) ==> Whole(b.cache, w.e, o))
  }

  class Creator {
    const me: Thread
    var connected: set<Obj>                    // the shared objects this thread has a connection to
    var cache: Caches                          // what its connections' property caches hold
    var synced: set<Obj>                       // those whose modification counts agree with the shared ones
    ghost var net: Net                         // the connections of all threads

    ghost function View(): Snap
      reads this
    {
      Snap(cache, synced, connected, net)
    }

    constructor (me: Thread, connected: set<Obj>, ghost net: Net)
      ensures this.me == me && View() == Snap(map[], {}, connected, net)
    {
      this.me, this.connected, this.net := me, connected, net;
      cache, synced := map[], {};
    }

    /** Nothing if the counts agree; else the entries the table does not vouch for are dropped. */
    method SyncLocal(ghost w: Walk, g: Graph, o: Obj)
      requires w.g == g && Ready(View(), w) && DistinctKeys(RefsOf(g, o))
      modifies this`cache, this`synced
      ensures LocalDone(old(View()), View(), w, o)
    {
      hide Ready, LocalDone, Cleaned, DistinctKeys;
      LocalReady(View(), w, o);
      if o in synced { return; }
      cache, synced := Cleaned(cache, g, o), synced + {o};
    }

    /** A new connection: the address stored in the table of `o` is followed. */
    method Connect(ghost w: Walk, o: Obj, ghost i: nat, address: Addr, x: Obj)
      requires Ready(View(), w) && i < |RefsOf(w.g, o)| && RefsOf(w.g, o)[i].to == Some(x)
      requires RefsOf(w.g, o)[i].at == address && w.me == me
      modifies this`connected, this`net
      ensures Ready(View(), w) && Moved(old(View()), View(), w, {x}) && cache == old(cache) && synced == old(synced)
    {
      ReadyBacked(View(), w);
      MoreBacked(cache, connected, w.g, x);
      hide Tied, Followed, Fits, RefsOf, Backed, Connections.Apply;
      Follow(net, me, connected, w.g, o, i, x);
      net := Connections.Apply(net, Connections.Connect(me, address));
      connected := connected + {x};
    }

    /** Connects to everything around `o` and caches every reference on the way. */
    method Sync(ghost w: Walk, g: Graph, o: Obj, stack: set<Obj>)
      requires w.g == g && w.me == me && CanSync(View(), w, o, stack)
      modifies this
      ensures Synced(old(View()), View(), w, Visit(w.e, o, stack), stack)
      decreases Room(w.e, stack), 1
    {
      hide CanSync, Synced, Amid, SyncedBut, LocalDone, Ready, Visit, VisitAll, Targets, Room, DistinctKeys;
      ghost var was := View();
      SyncBegins(was, w, o, stack);
      if o in stack { return; }
      SyncLocal(w, g, o);
      ghost var mid := View();
      SyncEnters(was, mid, w, o, stack);
      SyncTargets(w, g, o, stack + {o});
      SyncEnds(was, mid, View(), w, o, stack);
    }

    /** One object's sync after its own cache is clean: its references, then its collectable tasks. */
    method SyncTargets(ghost w: Walk, g: Graph, o: Obj, inner: set<Obj>)
      requires w.g == g && w.me == me && Amid(View(), w, o, inner, 0)
      modifies this
      ensures SyncedBut(old(View()), View(), w, o, VisitAll(w.e, Targets(w.e, o), inner), inner)
      ensures Whole(cache, w.e, o)
      decreases Room(w.e, inner), 4
    {
      hide CanSync, Synced, Amid, SyncedBut, VisitAll, Targets, Room, Ends, RefsOf, TasksOf, Whole;
      ghost var was := View();
      SyncRefs(w, g, o, inner);
      ghost var mid := View();
      RefsDone(mid, w, o, inner);
      SyncTasks(w, g, o, inner);
      TargetsDone(was, mid, View(), w, o, inner);
    }

    method SyncRefs(ghost w: Walk, g: Graph, o: Obj, inner: set<Obj>)
      requires w.g == g && w.me == me && Amid(View(), w, o, inner, 0)
      modifies this
      ensures Amid(View(), w, o, inner, |RefsOf(w.e, o)|)
      ensures SyncedBut(old(View()), View(), w, o, VisitAll(w.e, Ends(RefsOf(w.e, o)), inner), inner)
      decreases Room(w.e, inner), 3
    {
      ghost var was, l := View(), RefsOf(w.e, o);
      hide CanSync, Amid, SyncedBut, Visit, VisitAll, Room, Ends, RefsOf;
      NoRefsYet(was, w, o, inner);
      for i := 0 to |RefsOf(g, o)|
        invariant |l| == |RefsOf(g, o)| && Amid(View(), w, o, inner, i)
        invariant SyncedBut(was, View(), w, o, VisitAll(w.e, Ends(l[..i]), inner), inner)
      {
        ghost var mid := View();
        SyncRef(w, g, o, i, inner);
        RefDone(was, mid, View(), w, o, i, inner);
      }
      assert l[..|l|] == l;
    }

    /** pmmpthread_worker_sync_collectable_tasks. */
    method SyncTasks(ghost w: Walk, g: Graph, o: Obj, inner: set<Obj>)
      requires w.g == g && w.me == me && CanSync(View(), w, o, inner)
      modifies this
      ensures Synced(old(View()), View(), w, VisitAll(w.e, TasksOf(w.e, o), inner), inner)
      ensures CanSync(View(), w, o, inner)
      decreases Room(w.e, inner), 3
    {
      ghost var was := View();
      var l := TasksOf(g, o);
      NoTasksYet(was, w, o, inner);
      hide CanSync, Synced, Visit, VisitAll, Room, TasksOf;
      for i := 0 to |l|
        invariant CanSync(View(), w, o, inner)
        invariant Synced(was, View(), w, VisitAll(w.e, l[..i], inner), inner)
      {
        ghost var mid := View();
        TaskNext(mid, w, o, i, inner);
        Sync(w, g, l[i], inner);
        TaskDone(was, mid, View(), w, o, i, inner);
      }
      assert l[..|l|] == l;
    }

    /** One reference: what is cached is taken for it and synced; else a connection is made, synced and cached. */
    method SyncRef(ghost w: Walk, g: Graph, o: Obj, i: nat, inner: set<Obj>)
      requires w.g == g && w.me == me && i < |RefsOf(g, o)| && Amid(View(), w, o, inner, i)
      modifies this
      ensures i < |RefsOf(w.e, o)| && Amid(View(), w, o, inner, i + 1)
      ensures SyncedBut(old(View()), View(), w, o, Beyond(w.e, RefsOf(w.e, o)[i].to, inner), inner)
      decreases Room(w.e, inner), 2
    {
      ghost var was := View();
      var r := RefsOf(g, o)[i];
      hide CanSync, Synced, Amid, SyncedBut, Ready, Visit, Room, RefsOf, Moved, At, Entered;
      RefBegins(was, w, o, i, inner);
      if r.key in At(cache, o) {
        var held := At(cache, o)[r.key];
        if held.Some? {
          HitNext(was, w, o, i, inner);
          Sync(w, g, held.value, inner);
        }
        HitEnds(was, View(), w, o, i, inner);
      } else {
        Connect(w, o, i, r.at, r.to.value);
        ghost var near := View();
        MissNext(was, near, w, o, i, inner);
        Sync(w, g, r.to.value, inner);
        ghost var mid := View();
        cache := Entered(cache, o, r.key, r.to);
        MissEnds(was, near, mid, View(), w, o, i, inner);
      }
    }
  }

  /** What the walk visits behind one reference. */
  function Beyond(g: Graph, to: Option<Obj>, stack: set<Obj>): set<Obj> {
    if to.Some? then Visit(g, to.value, stack) else {}
  }

  // ---------------------------------------------------------------- why the contracts hold

  lemma MoreBacked(cache: Caches, connected: set<Obj>, g: Graph, x: Obj)
    requires Backed(cache, connected, g)
    ensures Backed(cache, connected + {x}, g)
  {
    forall o | o in cache ensures Points(cache[o], connected + {x}) { assert Points(cache[o], connected); }
  }

  lemma CleanedWhole(cache: Caches, synced: set<Obj>, g: Graph, e: Graph, o: Obj)
    requires FitsAt(cache, synced, g, e, o) && o !in synced
    ensures Whole(cache, e, o) ==> Whole(Cleaned(cache, g, o), e, o)
  {
    TrustedAll(RefsOf(g, o), At(cache, o));
    CleanedAway(cache, g, o, o);
    hide RefsOf, At, Cleaned, CleanedMap, TrustedRefs, HoldsRefs;
    if Whole(cache, e, o) { CleanedHolds(At(cache, o), RefsOf(g, o), |RefsOf(g, o)|); }
  }

  lemma LocalReady(s: Snap, w: Walk, o: Obj)
    requires Ready(s, w) && DistinctKeys(RefsOf(w.g, o))
    ensures if o in s.synced then LocalDone(s, s, w, o)
            else LocalDone(s, s.(cache := Cleaned(s.cache, w.g, o), synced := s.synced + {o}), w, o)
  {
    hide Tied, Backed, Fits, Whole, Cleaned, At, DistinctKeys;
    if o in s.synced {
      assert s.synced == s.synced + {o};
    } else {
      ReadyFits(s, w, o);
      CleanedBacked(s.cache, s.connected, w.g, o);
      CleanedFits(s.cache, s.synced, w.g, w.e, o);
      CleanedWhole(s.cache, s.synced, w.g, w.e, o);
      forall y | y != o ensures At(Cleaned(s.cache, w.g, o), y) == At(s.cache, y) { CleanedAway(s.cache, w.g, o, y); }
    }
  }

  lemma SyncBegins(s: Snap, w: Walk, o: Obj, stack: set<Obj>)
    requires CanSync(s, w, o, stack)
    ensures Ready(s, w) && DistinctKeys(RefsOf(w.g, o))
    ensures o in stack ==> Synced(s, s, w, Visit(w.e, o, stack), stack)
  {
    ReadyBacked(s, w);
    VisitUnfolds(w.e, o, stack);
    hide Ready, Moved, Advance, Visit, Targets, Within;
    if o in stack {
      Unmoved(s, s, w);
      NothingYet(s.cache, w.e, o, stack);
    }
  }

  lemma SyncEnters(s: Snap, mid: Snap, w: Walk, o: Obj, stack: set<Obj>)
    requires CanSync(s, w, o, stack) && LocalDone(s, mid, w, o) && o !in stack
    ensures Amid(mid, w, o, stack + {o}, 0) && Room(w.e, stack + {o}) < Room(w.e, stack)
  {
    hide Ready, Sound, Whole, At, Room, RefsOf;
    ReadyBacked(s, w);
    Shrinks(w.e, stack, o);
    assert mid.connected == s.connected && o in mid.synced && stack + {o} <= mid.connected;
  }

  lemma SyncEnds(s: Snap, mid: Snap, now: Snap, w: Walk, o: Obj, stack: set<Obj>)
    requires CanSync(s, w, o, stack) && LocalDone(s, mid, w, o) && o !in stack
    requires SyncedBut(mid, now, w, o, VisitAll(w.e, Targets(w.e, o), stack + {o}), stack + {o})
    requires Whole(now.cache, w.e, o)
    ensures Synced(s, now, w, Visit(w.e, o, stack), stack)
  {
    var rest := VisitAll(w.e, Targets(w.e, o), stack + {o});
    ReadyBacked(s, w);
    VisitUnfolds(w.e, o, stack);
    hide Ready, Sound, Moved, Visit, VisitAll, Targets, Advance, AdvanceBut, Holds, At;
    MovedFrom(s, mid, now, w, o, rest);
    Concluded(s.cache, mid.cache, now.cache, w.e, o, rest, stack);
  }

  lemma RefsDone(s: Snap, w: Walk, o: Obj, inner: set<Obj>)
    requires Amid(s, w, o, inner, |RefsOf(w.e, o)|)
    ensures CanSync(s, w, o, inner)
  {
  }

  lemma TargetsDone(s: Snap, mid: Snap, now: Snap, w: Walk, o: Obj, inner: set<Obj>)
    requires Amid(mid, w, o, inner, |RefsOf(w.e, o)|)
    requires SyncedBut(s, mid, w, o, VisitAll(w.e, Ends(RefsOf(w.e, o)), inner), inner)
    requires Synced(mid, now, w, VisitAll(w.e, TasksOf(w.e, o), inner), inner)
    ensures SyncedBut(s, now, w, o, VisitAll(w.e, Targets(w.e, o), inner), inner) && Whole(now.cache, w.e, o)
  {
    var one, two := VisitAll(w.e, Ends(RefsOf(w.e, o)), inner), VisitAll(w.e, TasksOf(w.e, o), inner);
    VisitAllSplit(w.e, Ends(RefsOf(w.e, o)), TasksOf(w.e, o), inner);
    hide VisitAll, Ready, Moved, Advance, AdvanceBut, Sound, Holds, Ends;
    Weaken(mid.cache, now.cache, w.e, o, two, inner);
    Chain(s.cache, mid.cache, now.cache, w.e, o, one, two, inner);
    MovedOn(s, mid, now, w, one, two);
  }

  lemma NoRefsYet(s: Snap, w: Walk, o: Obj, inner: set<Obj>)
    requires Amid(s, w, o, inner, 0)
    ensures |RefsOf(w.e, o)| == |RefsOf(w.g, o)|
    ensures SyncedBut(s, s, w, o, VisitAll(w.e, Ends(RefsOf(w.e, o)[..0]), inner), inner)
  {
    ReadyFits(s, w, o);
    assert VisitAll(w.e, Ends(RefsOf(w.e, o)[..0]), inner) == {};
    hide VisitAll, Ready, Moved, AdvanceBut, Sound, Ends, RefsOf;
    NothingYet(s.cache, w.e, o, inner);
    Unmoved(s, s, w);
  }

  lemma BeyondNext(g: Graph, refs: seq<Ref>, i: nat, stack: set<Obj>)
    requires i < |refs|
    ensures VisitAll(g, Ends(refs[..i + 1]), stack)
         == VisitAll(g, Ends(refs[..i]), stack) + Beyond(g, refs[i].to, stack)
  {
    assert refs[..i + 1][..i] == refs[..i];
    assert Ends(refs[..i + 1]) == Ends(refs[..i]) + End(refs[i].to);
    VisitAllSplit(g, Ends(refs[..i]), End(refs[i].to), stack);
    VisitAllEnd(g, refs[i].to, stack);
  }

  lemma VisitAllEnd(g: Graph, to: Option<Obj>, stack: set<Obj>)
    ensures VisitAll(g, End(to), stack) == Beyond(g, to, stack)
  {
    hide Visit, Room;
    if to.Some? { assert [to.value][..0] == []; assert VisitAll(g, [], stack) == {}; }
  }

  lemma RefDone(s: Snap, mid: Snap, now: Snap, w: Walk, o: Obj, i: nat, inner: set<Obj>)
    requires i < |RefsOf(w.e, o)|
    requires SyncedBut(s, mid, w, o, VisitAll(w.e, Ends(RefsOf(w.e, o)[..i]), inner), inner)
    requires SyncedBut(mid, now, w, o, Beyond(w.e, RefsOf(w.e, o)[i].to, inner), inner)
    ensures SyncedBut(s, now, w, o, VisitAll(w.e, Ends(RefsOf(w.e, o)[..i + 1]), inner), inner)
  {
    BeyondNext(w.e, RefsOf(w.e, o), i, inner);
    var one := VisitAll(w.e, Ends(RefsOf(w.e, o)[..i]), inner);
    var two := Beyond(w.e, RefsOf(w.e, o)[i].to, inner);
    hide Beyond, VisitAll, Ready, Moved, AdvanceBut, Ends, RefsOf;
    Chain(s.cache, mid.cache, now.cache, w.e, o, one, two, inner);
    MovedOn(s, mid, now, w, one, two);
  }

  lemma NoTasksYet(s: Snap, w: Walk, o: Obj, inner: set<Obj>)
    requires CanSync(s, w, o, inner)
    ensures TasksOf(w.e, o) == TasksOf(w.g, o) && Synced(s, s, w, VisitAll(w.e, TasksOf(w.g, o)[..0], inner), inner)
  {
    ReadyBacked(s, w);
    assert VisitAll(w.e, TasksOf(w.g, o)[..0], inner) == {};
    hide VisitAll, Ready, Moved, Advance, Sound;
    NothingYet(s.cache, w.e, o, inner);
    Unmoved(s, s, w);
  }

  lemma TaskNext(s: Snap, w: Walk, o: Obj, i: nat, inner: set<Obj>)
    requires i < |TasksOf(w.g, o)| && CanSync(s, w, o, inner)
    ensures CanSync(s, w, TasksOf(w.g, o)[i], inner)
  {
    InGraph(w.g, o);
    ReadyBacked(s, w);
    hide Ready, Sound;
    TaskConnected(s.cache, s.connected, w.g, o, i);
  }

  lemma TaskDone(s: Snap, mid: Snap, now: Snap, w: Walk, o: Obj, i: nat, inner: set<Obj>)
    requires i < |TasksOf(w.g, o)| && CanSync(mid, w, o, inner)
    requires Synced(s, mid, w, VisitAll(w.e, TasksOf(w.g, o)[..i], inner), inner)
    requires Synced(mid, now, w, Visit(w.e, TasksOf(w.g, o)[i], inner), inner)
    ensures CanSync(now, w, o, inner)
    ensures Synced(s, now, w, VisitAll(w.e, TasksOf(w.g, o)[..i + 1], inner), inner)
  {
    var l := TasksOf(w.g, o);
    VisitAllSnoc(w.e, l, i, inner);
    hide Visit, VisitAll, Ready, Moved, Advance, Sound;
    ChainAll(s.cache, mid.cache, now.cache, w.e, VisitAll(w.e, l[..i], inner), Visit(w.e, l[i], inner), inner);
    MovedOn(s, mid, now, w, VisitAll(w.e, l[..i], inner), Visit(w.e, l[i], inner));
    MovedKeeps(mid, now, w, Visit(w.e, l[i], inner));
  }

  lemma RefBegins(s: Snap, w: Walk, o: Obj, i: nat, inner: set<Obj>)
    requires i < |RefsOf(w.g, o)| && Amid(s, w, o, inner, i)
    ensures Ready(s, w) && RefsOf(w.g, o)[i].to.Some? && i < |RefsOf(w.e, o)|
  {
    SeenRef(s, w, o, i);
    assert LiveRefs(s.net, RefsOf(w.g, o)) && LiveRef(s.net, RefsOf(w.g, o)[i]);
  }

  lemma RefInside(g: Graph, o: Obj, i: nat)
    requires Sound(g) && o in g.nodes && i < |RefsOf(g, o)| && RefsOf(g, o)[i].to.Some?
    ensures RefsOf(g, o)[i].to.value in g.nodes
  {
    InGraph(g, o);
    EndsHas(RefsOf(g, o), i);
  }

  /** A cached entry is trusted: its object is connected, and it is what the walk sees. */
  lemma HitNext(s: Snap, w: Walk, o: Obj, i: nat, inner: set<Obj>)
    requires i < |RefsOf(w.g, o)| && Amid(s, w, o, inner, i) && RefsOf(w.g, o)[i].key in At(s.cache, o)
    requires At(s.cache, o)[RefsOf(w.g, o)[i].key].Some?
    ensures CanSync(s, w, At(s.cache, o)[RefsOf(w.g, o)[i].key].value, inner)
  {
    SeenRef(s, w, o, i);
    ReadyBacked(s, w);
    RefInside(w.e, o, i);
    assert Points(s.cache[o], s.connected);
    hide Ready, Sound, Holds, RefsOf;
  }

  lemma HitEnds(s: Snap, now: Snap, w: Walk, o: Obj, i: nat, inner: set<Obj>)
    requires i < |RefsOf(w.g, o)| && Amid(s, w, o, inner, i) && RefsOf(w.g, o)[i].key in At(s.cache, o)
    requires var held := At(s.cache, o)[RefsOf(w.g, o)[i].key];
             if held.Some? then Synced(s, now, w, Visit(w.e, held.value, inner), inner) else now == s
    ensures i < |RefsOf(w.e, o)| && Amid(now, w, o, inner, i + 1)
    ensures SyncedBut(s, now, w, o, Beyond(w.e, RefsOf(w.e, o)[i].to, inner), inner)
  {
    SeenRef(s, w, o, i);
    var to := RefsOf(w.e, o)[i].to;
    var found := Beyond(w.e, to, inner);
    assert to.Some? ==> found == Visit(w.e, to.value, inner);
    assert to.None? ==> found == {};
    hide Visit, Beyond, Ready, Sound, Moved, Advance, AdvanceBut, Holds;
    if to.None? {
      Unmoved(s, s, w);
      NothingYet(s.cache, w.e, o, inner);
    }
    assert Synced(s, now, w, found, inner);
    MovedKeeps(s, now, w, found);
    Kept(s.cache, now.cache, w.e, o, i, found, inner);
  }

  /** Between making a connection and syncing what it leads to. */
  ghost predicate Reached(s: Snap, near: Snap, w: Walk, x: Obj) {
    Ready(near, w) && Moved(s, near, w, {x}) && near.cache == s.cache && near.synced == s.synced
  }

  lemma MissNext(s: Snap, near: Snap, w: Walk, o: Obj, i: nat, inner: set<Obj>)
    requires i < |RefsOf(w.g, o)| && Amid(s, w, o, inner, i) && RefsOf(w.g, o)[i].to.Some?
    requires Reached(s, near, w, RefsOf(w.g, o)[i].to.value)
    ensures CanSync(near, w, RefsOf(w.g, o)[i].to.value, inner)
  {
    RefInside(w.g, o, i);
    hide Ready, Sound, Holds, Followed, RefsOf;
  }

  lemma MissMoved(s: Snap, near: Snap, mid: Snap, w: Walk, x: Obj, inner: set<Obj>)
    requires x in w.e.nodes && inner <= s.connected && Reached(s, near, w, x)
    requires Moved(near, mid, w, Visit(w.e, x, inner))
    ensures Moved(s, mid, w, Visit(w.e, x, inner)) && x in mid.connected
  {
    VisitsItself(w.e, x, inner);
    hide Visit, Ready, Moved;
    MovedOver(s, near, mid, w, x, Visit(w.e, x, inner));
  }

  lemma EnteredReady(s: Snap, w: Walk, o: Obj, i: nat)
    requires Ready(s, w) && Sound(w.g) && o in w.g.nodes && o in s.synced && i < |RefsOf(w.g, o)|
    requires RefsOf(w.g, o)[i].key !in At(s.cache, o)
    requires RefsOf(w.g, o)[i].to.Some? && RefsOf(w.g, o)[i].to.value in s.connected
    ensures Ready(s.(cache := Entered(s.cache, o, RefsOf(w.g, o)[i].key, RefsOf(w.g, o)[i].to)), w)
  {
    var r := RefsOf(w.g, o)[i];
    assert DistinctKeys(RefsOf(w.g, o));
    hide Tied, Backed, Fits, Entered, Sound, DistinctKeys;
    EnteredBacked(s.cache, s.connected, w.g, o, r.key, r.to);
    EnteredFits(s.cache, s.synced, w.g, w.e, o, i);
  }

  lemma MissEnds(s: Snap, near: Snap, mid: Snap, now: Snap, w: Walk, o: Obj, i: nat, inner: set<Obj>)
    requires i < |RefsOf(w.g, o)| && Amid(s, w, o, inner, i) && RefsOf(w.g, o)[i].key !in At(s.cache, o)
    requires RefsOf(w.g, o)[i].to.Some? && Reached(s, near, w, RefsOf(w.g, o)[i].to.value)
    requires Synced(near, mid, w, Visit(w.e, RefsOf(w.g, o)[i].to.value, inner), inner)
    requires now == mid.(cache := Entered(mid.cache, o, RefsOf(w.g, o)[i].key, RefsOf(w.g, o)[i].to))
    ensures i < |RefsOf(w.e, o)| && Amid(now, w, o, inner, i + 1)
    ensures SyncedBut(s, now, w, o, Beyond(w.e, RefsOf(w.e, o)[i].to, inner), inner)
  {
    hide Visit, Beyond, Ready, Sound, Moved, Advance, AdvanceBut, Holds, At, RefsOf, Entered;
    var r := RefsOf(w.g, o)[i];
    var found := Visit(w.e, r.to.value, inner);
    SeenRef(s, w, o, i);
    BeyondSome(w.e, r.to, inner);
    MissMid(s, near, mid, w, o, i, inner);
    MovedKeeps(s, mid, w, found);
    EnteredReady(mid, w, o, i);
    MovedSettled(s, mid, now, w, found);
    SoundKeys(w.e, o);
    hide DistinctKeys;
    Recorded(s.cache, mid.cache, w.e, o, i, found, inner);
  }

  /** The state after the sync of a newly connected object, seen from before the connection. */
  lemma MissMid(s: Snap, near: Snap, mid: Snap, w: Walk, o: Obj, i: nat, inner: set<Obj>)
    requires i < |RefsOf(w.g, o)| && Amid(s, w, o, inner, i)
    requires RefsOf(w.g, o)[i].to.Some? && Reached(s, near, w, RefsOf(w.g, o)[i].to.value)
    requires Synced(near, mid, w, Visit(w.e, RefsOf(w.g, o)[i].to.value, inner), inner)
    ensures var x := RefsOf(w.g, o)[i].to.value; var found := Visit(w.e, x, inner);
            && Ready(mid, w) && x in mid.connected && Moved(s, mid, w, found) && o in w.e.nodes
            && Advance(s.cache, mid.cache, w.e, found, inner) && At(mid.cache, o) == At(s.cache, o)
  {
    hide Visit, Ready, Sound, Moved, Advance, Holds, At, RefsOf;
    var x := RefsOf(w.g, o)[i].to.value;
    ReadyBacked(s, w);
    RefInside(w.g, o, i);
    MissMoved(s, near, mid, w, x, inner);
    StackSame(s.cache, mid.cache, w.e, Visit(w.e, x, inner), inner, o);
  }

  lemma BeyondSome(g: Graph, to: Option<Obj>, stack: set<Obj>)
    requires to.Some?
    ensures Beyond(g, to, stack) == Visit(g, to.value, stack)
  {
  }

  lemma SoundKeys(g: Graph, o: Obj)
    requires Sound(g) && o in g.nodes
    ensures DistinctKeys(RefsOf(g, o))
  {
  }

  lemma MovedSettled(a: Snap, b: Snap, c: Snap, w: Walk, found: set<Obj>)
    requires Moved(a, b, w, found) && c.connected == b.connected && c.net == b.net && c.synced == b.synced
    ensures Moved(a, c, w, found)
  {
  }

  lemma VisitsItself(g: Graph, o: Obj, stack: set<Obj>)
    requires o in g.nodes
    ensures o in stack || o in Visit(g, o, stack)
  {
  }

  lemma TaskConnected(cache: Caches, connected: set<Obj>, g: Graph, o: Obj, j: nat)
    requires Backed(cache, connected, g) && j < |TasksOf(g, o)|
    ensures TasksOf(g, o)[j] in connected
  {
  }

  // ---------------------------------------------------------------- how the caches advance

  /** The objects in `found` are whole now, none that was whole has lost anything, and the
      objects on the stack were not touched. */
  ghost predicate Advance(was: Caches, now: Caches, g: Graph, found: set<Obj>, stack: set<Obj>) {
    && (forall y | y in found || Whole(was, g, y) :: Whole(now, g, y))
    && (forall y | y in stack :: At(was, y) == At(now, y))
  }

  /** The same, for the time in which `o` itself is being worked on. */
  ghost predicate AdvanceBut(was: Caches, now: Caches, g: Graph, o: Obj, found: set<Obj>, inner: set<Obj>) {
    && (forall y | y != o && (y in found || Whole(was, g, y)) :: Whole(now, g, y))
    && (forall y | y in inner && y != o :: At(was, y) == At(now, y))
  }

  lemma StackSame(was: Caches, now: Caches, g: Graph, found: set<Obj>, stack: set<Obj>, o: Obj)
    requires Advance(was, now, g, found, stack) && o in stack
    ensures At(was, o) == At(now, o)
  {
  }

  lemma NothingYet(cache: Caches, g: Graph, o: Obj, inner: set<Obj>)
    ensures AdvanceBut(cache, cache, g, o, {}, inner) && Advance(cache, cache, g, {}, inner)
  {
  }

  lemma Chain(a: Caches, b: Caches, c: Caches, g: Graph, o: Obj, found: set<Obj>, more: set<Obj>, inner: set<Obj>)
    requires AdvanceBut(a, b, g, o, found, inner) && AdvanceBut(b, c, g, o, more, inner)
    ensures AdvanceBut(a, c, g, o, found + more, inner)
  {
  }

  lemma ChainAll(a: Caches, b: Caches, c: Caches, g: Graph, found: set<Obj>, more: set<Obj>, inner: set<Obj>)
    requires Advance(a, b, g, found, inner) && Advance(b, c, g, more, inner)
    ensures Advance(a, c, g, found + more, inner)
  {
  }

  lemma Weaken(a: Caches, b: Caches, g: Graph, o: Obj, found: set<Obj>, inner: set<Obj>)
    requires Advance(a, b, g, found, inner) && o in inner
    ensures AdvanceBut(a, b, g, o, found, inner) && At(a, o) == At(b, o)
    ensures Holds(a, g, o, |RefsOf(g, o)|) ==> Holds(b, g, o, |RefsOf(g, o)|)
  {
  }

  /** A reference that was cached already is held. */
  lemma Kept(a: Caches, b: Caches, g: Graph, o: Obj, i: nat, found: set<Obj>, inner: set<Obj>)
    requires o in inner && i < |RefsOf(g, o)| && Holds(a, g, o, i) && Advance(a, b, g, found, inner)
    requires RefsOf(g, o)[i].key in At(a, o) && At(a, o)[RefsOf(g, o)[i].key] == RefsOf(g, o)[i].to
    ensures Holds(b, g, o, i + 1) && AdvanceBut(a, b, g, o, found, inner)
  {
    Weaken(a, b, g, o, found, inner);
  }

  lemma HoldsOneMore(m: map<Key, Option<Obj>>, refs: seq<Ref>, i: nat)
    requires i < |refs| && HoldsRefs(m, refs, i) && DistinctKeys(refs)
    ensures HoldsRefs(m[refs[i].key := refs[i].to], refs, i + 1)
  {
  }

  /** One that was not is held once it has been entered. */
  lemma Recorded(a: Caches, b: Caches, g: Graph, o: Obj, i: nat, found: set<Obj>, inner: set<Obj>)
    requires DistinctKeys(RefsOf(g, o)) && o in inner && i < |RefsOf(g, o)| && Holds(a, g, o, i)
    requires Advance(a, b, g, found, inner)
    ensures var c := Entered(b, o, RefsOf(g, o)[i].key, RefsOf(g, o)[i].to);
            Holds(c, g, o, i + 1) && AdvanceBut(a, c, g, o, found, inner)
  {
    var r := RefsOf(g, o)[i];
    var c := Entered(b, o, r.key, r.to);
    StackSame(a, b, g, found, inner, o);
    HoldsOneMore(At(b, o), RefsOf(g, o), i);
    forall y ensures At(c, y) == if y == o then At(b, o)[r.key := r.to] else At(b, y) {
      EnteredAway(b, o, r.key, r.to, y);
    }
    hide Entered, RefsOf, At, HoldsRefs;
    forall y | y != o && Whole(b, g, y) ensures Whole(c, g, y) {}
  }

  lemma Concluded(a: Caches, b: Caches, c: Caches, g: Graph, o: Obj, found: set<Obj>, stack: set<Obj>)
    requires o !in stack && Holds(c, g, o, |RefsOf(g, o)|)
    requires forall y | y != o :: At(a, y) == At(b, y)
    requires AdvanceBut(b, c, g, o, found, stack + {o})
    ensures Advance(a, c, g, {o} + found, stack)
  {
    hide HoldsRefs, RefsOf;
    forall y | y != o && Whole(a, g, y) ensures Whole(b, g, y) {}
  }

  // ---------------------------------------------------------------- honest caches

  /** Reachable from the thread that is joined or from the shared globals. */
  ghost predicate Needed(g: Graph, thread: Obj, globals: Obj, x: Obj) {
    Reaches(g, thread, x, {}) || Reaches(g, globals, x, {})
  }

  lemma PathPrefix(g: Graph, p: seq<Obj>, i: nat)
    requires Path(g, p, {}) && i < |p|
    ensures Reaches(g, p[0], p[i], {})
  {
    hide Edge;
    var q := p[..i + 1];
    forall j | 0 <= j < |q| - 1 ensures Edge(g, q[j], q[j + 1]) { assert Edge(g, p[j], p[j + 1]); }
    assert Path(g, q, {}) && q[0] == p[0] && q[|q| - 1] == p[i];
  }

  /** Where two graphs agree on everything reachable in one, it is reachable in the other. */
  lemma SameReach(g: Graph, e: Graph, o: Obj, x: Obj)
    requires e.nodes == g.nodes && e.tasks == g.tasks && Reaches(g, o, x, {})
    requires forall y | Reaches(g, o, y, {}) :: RefsOf(e, y) == RefsOf(g, y)
    ensures Reaches(e, o, x, {})
  {
    var p :| p != [] && Path(g, p, {}) && p[0] == o && p[|p| - 1] == x;
    forall i | 0 <= i < |p| - 1 ensures Edge(e, p[i], p[i + 1]) {
      PathPrefix(g, p, i);
      assert Edge(g, p[i], p[i + 1]);
    }
    hide Edge, Reaches;
    assert Path(e, p, {});
    ReachesBy(e, p);
  }

  lemma ReachesBy(g: Graph, p: seq<Obj>)
    requires p != [] && Path(g, p, {})
    ensures Reaches(g, p[0], p[|p| - 1], {})
  {
  }

  // ---------------------------------------------------------------- the rescue

  /** Nothing the other threads can do frees the shared part of `x`. */
  ghost predicate Outlives(net: Net, me: Thread, x: Obj) {
    forall states: seq<Net>, steps: seq<Connections.Step> ::
      Connections.Run(states, steps) && states[0] == net && (forall i :: 0 <= i < |steps| ==> steps[i].t != me)
      ==> x in states[|steps|].refs
  }

  /** What the rescue starts from: live references, and caches that lead to what the thread is connected to. */
  ghost predicate Prepared(s: Snap, me: Thread, g: Graph, thread: Obj, globals: Obj) {
    && Sound(g) && thread in g.nodes && globals in g.nodes && {thread, globals} <= s.connected
    && Backed(s.cache, s.connected, g) && Tied(s.net, me, s.connected, g) && CachedInside(s.cache, g.nodes)
  }

  /** What it leaves: everything the walk sees is connected to and outlives the thread, and everything
      that is stored within reach is held, exactly if every trusted cache within reach is honest. */
  ghost predicate Rescued(a: Snap, b: Snap, me: Thread, g: Graph, thread: Obj, globals: Obj) {
    && Followed(a.net, b.net, me, g)
    && (forall x | Needed(Seen(g, a.cache, a.synced), thread, globals, x) :: x in b.connected && Outlives(b.net, me, x))
    && ((forall x | Needed(g, thread, globals, x) :: Whole(b.cache, g, x)) <==>
        (forall x | Needed(g, thread, globals, x) :: Honest(a.cache, a.synced, g, x)))
    && ((forall x | Needed(g, thread, globals, x) :: Honest(a.cache, a.synced, g, x)) ==>
        (forall x | Needed(g, thread, globals, x) :: x in b.connected && Outlives(b.net, me, x)))
  }

  /**
    The rescue of pmmpthread_join: the thread, its collectable tasks, and the shared globals.
    By following stored addresses the creator gets to a state in which everything reachable is
    held by its caches and outlives whatever the dying thread and all others do while it waits,
    provided that the caches it trusted were honest.
    */
  method Rescue(c: Creator, g: Graph, thread: Obj, globals: Obj)
    requires Prepared(c.View(), c.me, g, thread, globals)
    modifies c
    ensures Rescued(old(c.View()), c.View(), c.me, g, thread, globals)
  {
    ghost var a, w := c.View(), Walk(c.me, g, Seen(g, c.cache, c.synced));
    hide Prepared, Rescued, Visit, VisitAll, Synced, CanSync;
    RescueBegins(a, w, thread, globals);
    c.Sync(w, g, thread, {});
    ghost var b := c.View();
    RescueGoesOn(a, b, w, thread, globals, Visit(w.e, thread, {}));
    c.SyncTasks(w, g, thread, {});
    ghost var d := c.View();
    RescueGoesOn(b, d, w, globals, globals, VisitAll(w.e, TasksOf(w.e, thread), {}));
    c.Sync(w, g, globals, {});
    RescueEnds(a, b, d, c.View(), w, thread, globals);
  }

  lemma RescueBegins(s: Snap, w: Walk, thread: Obj, globals: Obj)
    requires w.e == Seen(w.g, s.cache, s.synced) && Prepared(s, w.me, w.g, thread, globals)
    ensures CanSync(s, w, thread, {}) && CanSync(s, w, globals, {})
  {
    hide Sound, Backed, Tied, CachedInside, Seen, Fits;
    SeenFits(w.g, s.cache, s.synced);
    SeenSound(w.g, s.cache, s.synced, w.e);
  }

  lemma RescueGoesOn(a: Snap, b: Snap, w: Walk, x: Obj, y: Obj, found: set<Obj>)
    requires CanSync(a, w, x, {}) && CanSync(a, w, y, {}) && Synced(a, b, w, found, {})
    ensures CanSync(b, w, x, {}) && CanSync(b, w, y, {})
  {
    hide Sound, Ready, Advance, Moved;
    MovedKeeps(a, b, w, found);
  }

  lemma RescueEnds(a: Snap, b: Snap, d: Snap, e: Snap, w: Walk, thread: Obj, globals: Obj)
    requires w.e == Seen(w.g, a.cache, a.synced) && Prepared(a, w.me, w.g, thread, globals)
    requires CanSync(a, w, thread, {}) && CanSync(a, w, globals, {})
    requires Synced(a, b, w, Visit(w.e, thread, {}), {})
    requires Synced(b, d, w, VisitAll(w.e, TasksOf(w.e, thread), {}), {})
    requires Synced(d, e, w, Visit(w.e, globals, {}), {})
    ensures Rescued(a, e, w.me, w.g, thread, globals)
  {
    hide Visit, VisitAll, Synced, Prepared, Needed, Honest, Whole, Followed, Outlives, Seen, Ready, CanSync, TasksOf;
    RescueSpan(a, b, d, e, w, thread, globals);
    forall x | Needed(w.e, thread, globals, x)
      ensures x in e.connected && Outlives(e.net, w.me, x) && Whole(e.cache, w.e, x)
    {
      NeededVisited(a, w, thread, globals, x);
      HeldOutlives(e, w, x);
    }
    RescueIff(a, e, w, thread, globals);
  }

  /** The three syncs together. */
  lemma RescueSpan(a: Snap, b: Snap, d: Snap, e: Snap, w: Walk, thread: Obj, globals: Obj)
    requires Synced(a, b, w, Visit(w.e, thread, {}), {})
    requires Synced(b, d, w, VisitAll(w.e, TasksOf(w.e, thread), {}), {})
    requires Synced(d, e, w, Visit(w.e, globals, {}), {})
    ensures Ready(e, w) && Followed(a.net, e.net, w.me, w.g) && a.synced <= e.synced
    ensures forall x | x in Visit(w.e, thread, {}) || x in Visit(w.e, globals, {}) ::
              x in e.connected && Whole(e.cache, w.e, x)
  {
    var t, u, v := Visit(w.e, thread, {}), VisitAll(w.e, TasksOf(w.e, thread), {}), Visit(w.e, globals, {});
    hide Visit, VisitAll, Ready, Moved, Advance, Whole;
    ChainAll(a.cache, b.cache, d.cache, w.e, t, u, {});
    ChainAll(a.cache, d.cache, e.cache, w.e, t + u, v, {});
    MovedOn(a, b, d, w, t, u);
    MovedOn(a, d, e, w, t + u, v);
    MovedTo(a, e, w, t + u + v);
    AdvanceTo(a.cache, e.cache, w.e, t + u + v, {});
  }

  lemma NeededVisited(s: Snap, w: Walk, thread: Obj, globals: Obj, x: Obj)
    requires CanSync(s, w, thread, {}) && CanSync(s, w, globals, {}) && Needed(w.e, thread, globals, x)
    ensures x in Visit(w.e, thread, {}) || x in Visit(w.e, globals, {})
  {
    ReadyBacked(s, w);
    hide Visit, Ready, Sound, Reaches;
    VisitIsReach(w.e, thread, x);
    VisitIsReach(w.e, globals, x);
  }

  /** At an object whose entries the walk sees as stored, held is held. */
  lemma WholeSame(cache: Caches, g: Graph, e: Graph, x: Obj)
    requires RefsOf(e, x) == RefsOf(g, x)
    ensures Whole(cache, e, x) <==> Whole(cache, g, x)
  {
  }

  /** A trusted entry that was wrong stays wrong: nobody replaces it. */
  lemma WholeIsHonest(a: Snap, e: Snap, w: Walk, x: Obj)
    requires FitsAt(a.cache, a.synced, w.g, w.e, x) && Ready(e, w) && a.synced <= e.synced && Whole(e.cache, w.g, x)
    ensures Honest(a.cache, a.synced, w.g, x)
  {
    ReadyFits(e, w, x);
    SeenIffHonest(a.cache, a.synced, w.g, w.e, x);
    SeenIffHonest(e.cache, e.synced, w.g, w.e, x);
    hide Ready, FitsAt;
    if x in a.synced { assert Honest(e.cache, e.synced, w.g, x); }
  }

  lemma HonestSeen(a: Snap, w: Walk, thread: Obj, globals: Obj, x: Obj)
    requires w.e.nodes == w.g.nodes && w.e.tasks == w.g.tasks && Needed(w.g, thread, globals, x)
    requires forall y | Needed(w.g, thread, globals, y) :: RefsOf(w.e, y) == RefsOf(w.g, y)
    ensures Needed(w.e, thread, globals, x)
  {
    hide Reaches, RefsOf;
    if Reaches(w.g, thread, x, {}) {
      assert forall y | Reaches(w.g, thread, y, {}) :: Needed(w.g, thread, globals, y);
      SameReach(w.g, w.e, thread, x);
    } else {
      assert forall y | Reaches(w.g, globals, y, {}) :: Needed(w.g, thread, globals, y);
      SameReach(w.g, w.e, globals, x);
    }
  }

  lemma RescueIff(a: Snap, e: Snap, w: Walk, thread: Obj, globals: Obj)
    requires w.e == Seen(w.g, a.cache, a.synced) && Ready(e, w) && a.synced <= e.synced
    requires forall x | Needed(w.e, thread, globals, x) ::
               x in e.connected && Outlives(e.net, w.me, x) && Whole(e.cache, w.e, x)
    ensures (forall x | Needed(w.g, thread, globals, x) :: Whole(e.cache, w.g, x)) <==>
            (forall x | Needed(w.g, thread, globals, x) :: Honest(a.cache, a.synced, w.g, x))
    ensures (forall x | Needed(w.g, thread, globals, x) :: Honest(a.cache, a.synced, w.g, x)) ==>
            (forall x | Needed(w.g, thread, globals, x) :: x in e.connected && Outlives(e.net, w.me, x))
  {
    SeenFits(w.g, a.cache, a.synced);
    assert forall x :: FitsAt(a.cache, a.synced, w.g, w.e, x);
    hide Needed, Whole, Honest, Outlives, Ready, Seen, Fits, FitsAt;
    if forall x | Needed(w.g, thread, globals, x) :: Honest(a.cache, a.synced, w.g, x) {
      forall x | Needed(w.g, thread, globals, x) ensures RefsOf(w.e, x) == RefsOf(w.g, x) {
        SeenIffHonest(a.cache, a.synced, w.g, w.e, x);
      }
      forall x | Needed(w.g, thread, globals, x)
        ensures x in e.connected && Outlives(e.net, w.me, x) && Whole(e.cache, w.g, x)
      {
        HonestSeen(a, w, thread, globals, x);
        WholeSame(e.cache, w.g, w.e, x);
      }
    }
    if forall x | Needed(w.g, thread, globals, x) :: Whole(e.cache, w.g, x) {
      forall x | Needed(w.g, thread, globals, x) ensures Honest(a.cache, a.synced, w.g, x) {
        WholeIsHonest(a, e, w, x);
      }
    }
  }

  lemma AdvanceTo(a: Caches, b: Caches, g: Graph, found: set<Obj>, stack: set<Obj>)
    requires Advance(a, b, g, found, stack)
    ensures forall x | x in found :: Whole(b, g, x)
  {
  }

  lemma MovedTo(a: Snap, b: Snap, w: Walk, found: set<Obj>)
    requires Moved(a, b, w, found)
    ensures found <= b.connected && a.synced <= b.synced && Followed(a.net, b.net, w.me, w.g)
  {
  }

  /** What the creator is connected to outlives whatever the others do while it waits. */
  lemma HeldOutlives(s: Snap, w: Walk, x: Obj)
    requires Ready(s, w) && x in s.connected
    ensures Outlives(s.net, w.me, x)
  {
    assert Mine(s.net, w.me, x);
    var a :| a in s.net.conns && s.net.conns[a] == Connections.Conn(w.me, x);
    hide Connections.Run, Connections.Inv, Backed, Fits, LiveRefs;
    forall states: seq<Net>, steps: seq<Connections.Step> |
      Connections.Run(states, steps) && states[0] == s.net && (forall i :: 0 <= i < |steps| ==> steps[i].t != w.me)
      ensures x in states[|steps|].refs
    {
      Connections.KeptAlive(states, steps, |steps|, a);
    }
  }

  // ---------------------------------------------------------------- a reference that is missed

  /** Object 0 stores a reference to object 2, but its cache, which is in sync, has object 1 there. */
  const STORED: Ref := Ref(7, 20, Some(2))
  const MISLED: Graph := Graph({0, 1, 2, 3}, map[0 := [STORED]], map[])
  const STALE: Caches := map[0 := map[7 := Some(1)]]

  lemma EdgeOne(g: Graph, o: Obj, r: Ref, x: Obj)
    requires RefsOf(g, o) == [r] && TasksOf(g, o) == []
    ensures Edge(g, o, x) <==> r.to == Some(x)
  {
    assert [r][..0] == [];
    assert Ends([r]) == Ends([]) + End(r.to);
    assert Targets(g, o) == End(r.to);
  }

  lemma EdgeNone(g: Graph, o: Obj, x: Obj)
    requires RefsOf(g, o) == [] && TasksOf(g, o) == []
    ensures !Edge(g, o, x)
  {
  }

  /** The stored reference is replaced by what is cached. */
  lemma MisledRefs(o: Obj)
    ensures var e := Seen(MISLED, STALE, {0});
            && RefsOf(MISLED, o) == (if o == 0 then [STORED] else []) && TasksOf(MISLED, o) == []
            && RefsOf(e, o) == (if o == 0 then [STORED.(to := Some(1))] else []) && TasksOf(e, o) == []
  {
    var e := Seen(MISLED, STALE, {0});
    SeenFits(MISLED, STALE, {0});
    assert FitsAt(STALE, {0}, MISLED, e, o);
    hide Seen, Fits;
    assert At(STALE, 0) == map[7 := Some(1)];
  }

  lemma MisledEdges(o: Obj, x: Obj)
    ensures Edge(MISLED, o, x) <==> o == 0 && x == 2
    ensures Edge(Seen(MISLED, STALE, {0}), o, x) <==> o == 0 && x == 1
  {
    var e := Seen(MISLED, STALE, {0});
    MisledRefs(o);
    hide RefsOf, TasksOf, Seen, Edge;
    if o == 0 {
      EdgeOne(MISLED, o, STORED, x);
      EdgeOne(e, o, STORED.(to := Some(1)), x);
    } else {
      EdgeNone(MISLED, o, x);
      EdgeNone(e, o, x);
    }
  }

  /** Object 2 is reachable, and the walk does not see it; object 0 is what is not honest. */
  lemma MissedReference()
    ensures Needed(MISLED, 0, 3, 2) && !Honest(STALE, {0}, MISLED, 0)
    ensures !Needed(Seen(MISLED, STALE, {0}), 0, 3, 2)
  {
    var e := Seen(MISLED, STALE, {0});
    MisledEdges(0, 2);
    StoredWay();
    hide Edge, Seen, Reaches, Honest;
    if Reaches(e, 0, 2, {}) { OnlyWay(0); }
    if Reaches(e, 3, 2, {}) { OnlyWay(3); }
  }

  lemma OnlyWay(o: Obj)
    requires o != 2
    ensures !Reaches(Seen(MISLED, STALE, {0}), o, 2, {})
  {
    var e := Seen(MISLED, STALE, {0});
    hide Edge, Seen, Reaches;
    if Reaches(e, o, 2, {}) {
      var y := ReachEdge(e, o, 2);
      MisledEdges(y, 2);
    }
  }

  lemma StoredWay()
    ensures Reaches(MISLED, 0, 2, {}) && !Honest(STALE, {0}, MISLED, 0)
  {
    MisledEdges(0, 2);
    MisledRefs(0);
    assert At(STALE, 0) == map[7 := Some(1)];
    hide Edge, RefsOf, At, TasksOf, Seen;
    OneEdge(MISLED, 0, 2);
    assert RefsOf(MISLED, 0)[0] == STORED;
  }

  lemma OneEdge(g: Graph, o: Obj, x: Obj)
    requires o in g.nodes && x in g.nodes && Edge(g, o, x)
    ensures Reaches(g, o, x, {})
  {
    hide Edge;
    assert Path(g, [o, x], {});
    ReachesBy(g, [o, x]);
  }

  /** To be reached from elsewhere takes an edge. */
  lemma ReachEdge(g: Graph, o: Obj, x: Obj) returns (y: Obj)
    requires o != x && Reaches(g, o, x, {})
    ensures Edge(g, y, x)
  {
    hide Edge;
    var p :| p != [] && Path(g, p, {}) && p[0] == o && p[|p| - 1] == x;
    y := p[|p| - 2];
    assert Edge(g, p[|p| - 2], p[|p| - 1]);
  }
}
