/**
  Three runs of StoreMachine, from the empty object on, in which the code does less than
  one might expect: a thread reads a stale value of its own, a full sync misses an object
  that is stored, and a pop finds nothing in a table that is not empty.
  */
module StoreCases {
  import opened Options
  import opened ZendHash
  import opened Store
  import opened StoreBounds
  import opened StoreMachine

  lemma RunPush(states: seq<Sys>, steps: seq<Step>, step: Step, next: Sys)
    requires Run(states, steps) && Enabled(states[|steps|], step) && next == Apply(states[|steps|], step)
    ensures Run(states + [next], steps + [step]) && (states + [next])[0] == states[0]
    ensures (states + [next])[|steps + [step]|] == next
  {
    hide Enabled, Apply;
    var s, x := states + [next], steps + [step];
    forall i | 0 <= i < |x| ensures Enabled(s[i], x[i]) && s[i + 1] == Apply(s[i], x[i]) {
      if i < |steps| { assert s[i] == states[i] && s[i + 1] == states[i + 1] && x[i] == steps[i]; }
    }
  }

  /** One thread and its connection. */
  function Alone(p: Props, c: Conn, tail: Tail, live: set<Addr> := {}): Sys {
    Sys(p, map[0 := Peer(c, tail)], live, {})
  }

  lemma AloneUpdate(s: Sys, p: Props, c: Conn, tail: Tail)
    requires s.peers.Keys <= {0} && s.mine == {}
    ensures Update(s, 0, p, c, tail) == Alone(p, c, tail, s.live)
  {
    assert s.peers[0 := Peer(c, tail)] == map[0 := Peer(c, tail)];
  }

  // ---------------------------------------------------------------- the stale read

  const NAME: Key := Name("a")
  const TEXT: ZStr := ZStr(1, "x", Heap(0))
  const PLAIN: Growth := Growth(false, 0)

  function OneEntry(s: Storage, modcount: int): Props {
    Props(Table([Live(NAME, s)], LONG_MIN), None, None, modcount)
  }

  lemma OneSlot(s: Storage, j: Key)
    ensures Find(Table([Live(NAME, s)], LONG_MIN), j) == if j == NAME then Some(s) else None
  {
    assert [Live(NAME, s)][1..] == [];
  }

  lemma FirstWrite(v: Value, live: set<Addr>)
    requires v != Unsafe
    ensures Write(EmptyProps(), FreshConn(EmptyProps()), 0, live, Some(NAME), v, PLAIN)
         == Outcome(OneEntry(Save(v, 0).value, 0), Conn(false, map[], 0), Remember(NAME, v))
  {
    var s := Save(v, 0).value;
    var t: Table<Storage> := Table([], LONG_MIN);
    assert Insert(t, NAME, s, PLAIN).slots == [Live(NAME, s)];
    assert WriteTable(EmptyProps(), Some(NAME), s, PLAIN) == OneEntry(s, 0);
    assert FreshConn(EmptyProps()) == Conn(false, map[], -1);
    assert Sync(OneEntry(s, 0), Conn(false, map[], -1), 0, live).cache == map[];
  }

  lemma OverWrite(s: Storage, r: Storage, modcount: int)
    ensures WriteTable(OneEntry(s, modcount), Some(NAME), r, PLAIN) == OneEntry(r, modcount)
    ensures CacheableAt(OneEntry(s, modcount), NAME) <==> Cacheable(s)
  {
    var p := OneEntry(s, modcount);
    OneSlot(s, NAME);
    assert IndexOf(p.table.slots, NAME) == 0;
    assert p.table.slots[0 := Live(NAME, r)] == [Live(NAME, r)];
  }

  /** Overwriting the own cached value by null, while in sync. */
  lemma SecondWrite(v: Value, live: set<Addr>)
    requires Retained(v)
    ensures var p, c := OneEntry(Save(v, 0).value, 0), Conn(true, map[NAME := v], 0);
            Write(p, c, 0, live, Some(NAME), Simple(Null), PLAIN) ==
            Outcome(OneEntry(SSimple(Null), 1), Conn(true, map[NAME := v], 1), Remember(NAME, Simple(Null)))
  {
    OverWrite(Save(v, 0).value, SSimple(Null), 0);
  }

  /** Attach, write a value that is cached, write null: the value stays cached and trusted. */
  lemma StaleRun(v: Value, live: set<Addr>) returns (states: seq<Sys>, steps: seq<Step>)
    requires Retained(v) && Local(v, 0)
    ensures Run(states, steps) && states[0] == Initial(live)
    ensures states[|steps|] == Alone(OneEntry(SSimple(Null), 1), Conn(true, map[NAME := v], 1), Nothing, live)
  {
    FirstWrite(v, live);
    SecondWrite(v, live);
    hide Write, Sync, Find;
    states, steps := [Initial(live)], [];
    var s := Alone(EmptyProps(), FreshConn(EmptyProps()), Nothing, live);
    AloneUpdate(Initial(live), EmptyProps(), FreshConn(EmptyProps()), Nothing);
    RunPush(states, steps, Attach(0), s);
    states, steps := states + [s], steps + [Attach(0)];
    states, steps := WriteAndSettle(states, steps, EmptyProps(), FreshConn(EmptyProps()), v, live);
    var p, c := OneEntry(Save(v, 0).value, 0), Conn(true, map[NAME := v], 0);
    states, steps := WriteAndSettle(states, steps, p, c, Simple(Null), live);
  }

  lemma WriteAndSettle(states: seq<Sys>, steps: seq<Step>, p: Props, c: Conn, v: Value, live: set<Addr>)
    returns (states': seq<Sys>, steps': seq<Step>)
    requires Run(states, steps) && states[|steps|] == Alone(p, c, Nothing, live) && Local(v, 0)
    ensures Run(states', steps') && states'[0] == states[0]
    ensures var o := Write(p, c, 0, live, Some(NAME), v, PLAIN);
            states'[|steps'|] == Alone(o.props, Finish(o.conn, o.tail), Nothing, live)
  {
    hide Write, Finish;
    var step := DoWrite(0, Some(NAME), v, PLAIN);
    var o := Write(p, c, 0, live, Some(NAME), v, PLAIN);
    var s, r := Alone(o.props, o.conn, o.tail, live), Alone(o.props, Finish(o.conn, o.tail), Nothing, live);
    AloneUpdate(Alone(p, c, Nothing, live), o.props, o.conn, o.tail);
    AloneUpdate(s, o.props, Finish(o.conn, o.tail), Nothing);
    RunPush(states, steps, step, s);
    states', steps' := states + [s], steps + [step];
    RunPush(states', steps', Settle(0), r);
    states', steps' := states' + [r], steps' + [Settle(0)];
  }

  /** The hazard is real: after that run the thread's next read is not what the table holds. */
  lemma StaleRead() returns (states: seq<Sys>, steps: seq<Step>, read: Step)
    ensures Run(states, steps) && states[0] == Initial({}) && read.DoRead? && Enabled(states[|steps|], read)
    ensures var s := states[|steps|];
            var got := Read(s.props, s.peers[read.t].conn, read.t, s.live, read.k, read.indirect, read.restored).1;
            var held := Find(s.props.table, read.k);
            got.Some? && held.Some? && !Denotes(got.value, held.value)
  {
    states, steps := StaleRun(Text(TEXT), {});
    read := DoRead(0, NAME, false, Simple(Null));
    OneSlot(SSimple(Null), NAME);
    hide Run, Find;
  }

  // ---------------------------------------------------------------- the reference a full sync misses

  /** Connections to two different objects, both of which can be followed. */
  const OLD: Addr := Addr(11, 1)
  const NEW: Addr := Addr(12, 2)
  const LIVE: set<Addr> := {OLD, NEW}

  function Pair(p: Props, c: Conn, peer: Peer): Sys { Sys(p, map[0 := Peer(c, Nothing), 1 := peer], LIVE, {}) }

  lemma PairUpdate(s: Sys, c: Conn, p: Props, peer: Peer)
    requires s.live == LIVE && s.mine == {} && s.peers.Keys <= {0, 1} && 0 in s.peers && s.peers[0] == Peer(c, Nothing)
    ensures Update(s, 1, p, peer.conn, peer.tail) == Pair(p, c, peer)
  {
    assert s.peers[1 := peer] == map[0 := Peer(c, Nothing), 1 := peer];
  }

  /** The other thread's write meets null, so no modification count moves. */
  lemma OthersWrite()
    ensures Write(OneEntry(SSimple(Null), 1), Conn(false, map[], 0), 1, LIVE, Some(NAME), Object(NEW), PLAIN)
         == Outcome(OneEntry(SObject(NEW), 1), Conn(false, map[], 1), Remember(NAME, Object(NEW)))
  {
    OverWrite(SSimple(Null), SObject(NEW), 1);
    assert Sync(OneEntry(SObject(NEW), 1), Conn(false, map[], 0), 1, LIVE).cache == map[];
  }

  lemma OthersRun(c: Conn, states: seq<Sys>, steps: seq<Step>) returns (states': seq<Sys>, steps': seq<Step>)
    requires Run(states, steps) && states[|steps|] == Alone(OneEntry(SSimple(Null), 1), c, Nothing, LIVE)
    ensures Run(states', steps') && states'[0] == states[0]
    ensures states'[|steps'|]
         == Pair(OneEntry(SObject(NEW), 1), c, Peer(Conn(true, map[NAME := Object(NEW)], 1), Nothing))
  {
    OthersWrite();
    hide Write, OneEntry;
    var p, q := OneEntry(SSimple(Null), 1), OneEntry(SObject(NEW), 1);
    assert FreshConn(p) == Conn(false, map[], 0) by { ModcountOf(SSimple(Null), 1); }
    var a := Pair(p, c, Peer(Conn(false, map[], 0), Nothing));
    var b := Pair(q, c, Peer(Conn(false, map[], 1), Remember(NAME, Object(NEW))));
    var d := Pair(q, c, Peer(Conn(true, map[NAME := Object(NEW)], 1), Nothing));
    PairUpdate(states[|steps|], c, p, Peer(Conn(false, map[], 0), Nothing));
    RunPush(states, steps, Attach(1), a);
    states', steps' := states + [a], steps + [Attach(1)];
    PairUpdate(a, c, q, Peer(Conn(false, map[], 1), Remember(NAME, Object(NEW))));
    var step := DoWrite(1, Some(NAME), Object(NEW), PLAIN);
    RunPush(states', steps', step, b);
    states', steps' := states' + [b], steps' + [step];
    PairUpdate(b, c, q, Peer(Conn(true, map[NAME := Object(NEW)], 1), Nothing));
    RunPush(states', steps', Settle(1), d);
    states', steps' := states' + [d], steps' + [Settle(1)];
  }

  lemma ModcountOf(s: Storage, modcount: int)
    ensures OneEntry(s, modcount).modcount == modcount
  {
  }

  /**
    After the hazard another thread's new object is missed: the full sync of the first thread trusts
    its own stale entry, so it is never connected to the object the table holds.
    */
  lemma MissedObject() returns (states: seq<Sys>, steps: seq<Step>, table: map<Key, Value>)
    ensures Run(states, steps) && states[0] == Initial(LIVE) && Enabled(states[|steps|], DoFullSync(0, table))
    ensures var s := states[|steps|]; var cache := Apply(s, DoFullSync(0, table)).peers[0].conn.cache;
            && Find(s.props.table, NAME) == Some(SObject(NEW)) && NAME in cache && cache[NAME] == Object(OLD)
            && !AllCached(s.props, cache)
  {
    states, steps := StaleRun(Object(OLD), LIVE);
    var c := Conn(true, map[NAME := Object(OLD)], 1);
    states, steps := OthersRun(c, states, steps);
    table := map[NAME := Object(NEW)];
    var p := OneEntry(SObject(NEW), 1);
    forall k ensures Find(p.table, k) == if k == NAME then Some(SObject(NEW)) else None { OneSlot(SObject(NEW), k); }
    hide Run, Find, OneEntry;
    ModcountOf(SObject(NEW), 1);
    TrustsWrong(p, c, table);
  }

  lemma TrustsWrong(p: Props, c: Conn, table: map<Key, Value>)
    requires p.modcount == 1 && c == Conn(true, map[NAME := Object(OLD)], 1) && table == map[NAME := Object(NEW)]
    requires forall k :: Find(p.table, k) == if k == NAME then Some(SObject(NEW)) else None
    ensures RestoresAll(p, 0, LIVE, table) && FullSync(p, c, 0, LIVE, table).cache[NAME] == Object(OLD)
    ensures !AllCached(p, FullSync(p, c, 0, LIVE, table).cache)
  {
    hide Find;
    assert CacheableAt(p, NAME);
    assert FullSync(p, c, 0, LIVE, table).cache[NAME] == Object(OLD);
    assert !Denotes(Object(OLD), SObject(NEW));
  }

  // ---------------------------------------------------------------- the pop that finds nothing

  /** `n` slots of which the first `m` are dead, as appends and deletions of the oldest leave them. */
  function Row(n: nat, m: nat): (s: seq<Slot<Storage>>)
    ensures |s| == n && forall i :: 0 <= i < n ==> s[i] == if i < m then Dead else Live(Index(i), SSimple(Null))
  {
    seq(n, i requires 0 <= i < n => if i < m then Dead else Live(Index(i), SSimple(Null)))
  }

  function RowProps(n: nat, m: nat): Props {
    Props(Table(Row(n, m), if n == 0 then LONG_MIN else n), None, None, 0)
  }

  function RowConn(n: nat): Conn { Conn(false, map[], if n == 0 then -1 else 0) }

  lemma RowIndex(n: nat, m: nat, k: nat)
    requires m <= k
    ensures IndexOf(Row(n, m), Index(k)) == if k < n then k else n
  {
    hide IndexOf, Row;
    IndexOfFirst(Row(n, m), Index(k));
    if k < n { assert Holds(Row(n, m)[k], Index(k)); }
  }

  lemma {:induction false} RowItems(n: nat, m: nat)
    requires m <= n
    ensures |Items(Row(n, m))| == n - m
  {
    if n == m {
      ItemsDead(Row(n, m));
    } else {
      RowItems(n - 1, m);
      hide Items;
      assert Row(n, m)[..n - 1] == Row(n - 1, m) && Row(n, m)[n..] == [];
      ItemsSplit(Row(n, m), n - 1);
      NoItems();
    }
  }

  lemma NoItems()
    ensures Items<Storage>([]) == []
  {
  }

  /** The eight slots of a new table fill up in order. */
  lemma RowAppend(n: nat)
    requires n < 8
    ensures Write(RowProps(n, 0), RowConn(n), 0, {}, None, Simple(Null), PLAIN)
         == Outcome(RowProps(n + 1, 0), RowConn(n + 1), Remember(Index(n), Simple(Null)))
  {
    RowIndex(n, 0, n);
    var p, k := RowProps(n, 0), Index(n);
    assert AppendKey(p.table) == k;
    assert Tombstones<Storage>(0) == [];
    hide IndexOf, Row;
    assert Row(n, 0) + [] + [Live(k, SSimple(Null))] == Row(n + 1, 0);
    assert WriteTable(p, None, SSimple(Null), PLAIN) == RowProps(n + 1, 0);
    assert Sync(RowProps(n + 1, 0), RowConn(n), 0, {}).cache == map[];
  }

  lemma RowDelete(n: nat, m: nat)
    requires m < n - 1
    ensures Delete(RowProps(n, m), RowConn(n), Index(m)) == Outcome(RowProps(n, m + 1), RowConn(n), Forget(Index(m)))
  {
    RowIndex(n, m, m);
    hide IndexOf, Row;
    assert Row(n, m)[m := Dead] == Row(n, m + 1);
  }

  lemma RowBack(n: nat, m: nat)
    requires m + 2 < n
    ensures LastBefore(Row(n, m), n) == Some(n - 1) && LastBefore(Row(n, m), n - 1) == Some(n - 2)
    ensures ValidPos(Row(n, m), n - 1) == n - 1
  {
  }

  lemma RowCut(n: nat, m: nat)
    requires m + 2 < n
    ensures Del(Table(Row(n, m), n), Index(n - 1)) == Table(Row(n - 1, m), n)
  {
    var s := Row(n, m);
    RowIndex(n, m, n - 1);
    hide IndexOf, Row, Trim;
    TrimLength(s[n - 1 := Dead], n - 2);
    assert s[n - 1 := Dead][..n - 1] == Row(n - 1, m);
  }

  /** A pop caches `last` and leaves `first` unknown. */
  lemma RowPop(n: nat, m: nat)
    requires m + 2 < n
    ensures Pop(RowProps(n, m), RowConn(n)).props == Props(Table(Row(n - 1, m), n), None, Some(n - 2), 0)
    ensures Pop(RowProps(n, m), RowConn(n)).conn == RowConn(n)
  {
    hide Row, LastBefore, ValidPos, Items, Del;
    RowItems(n, m);
    RowBack(n, m);
    RowCut(n, m);
  }

  lemma RowStart() returns (states: seq<Sys>, steps: seq<Step>)
    ensures Run(states, steps) && states[0] == Initial({})
    ensures states[|steps|] == Alone(RowProps(0, 0), RowConn(0), Nothing)
  {
    states, steps := [Initial({})], [];
    assert Row(0, 0) == [];
    assert FreshConn(EmptyProps()) == RowConn(0) && EmptyProps() == RowProps(0, 0);
    var s := Alone(RowProps(0, 0), RowConn(0), Nothing);
    AloneUpdate(Initial({}), EmptyProps(), RowConn(0), Nothing);
    RunPush(states, steps, Attach(0), s);
    states, steps := states + [s], steps + [Attach(0)];
  }

  /** A section that leaves a tail, and the tail. */
  lemma SectionAndSettle(states: seq<Sys>, steps: seq<Step>, step: Step, o: Outcome)
    returns (states': seq<Sys>, steps': seq<Step>)
    requires Run(states, steps) && Enabled(states[|steps|], step)
    requires Apply(states[|steps|], step) == Alone(o.props, o.conn, o.tail)
    ensures Run(states', steps') && states'[0] == states[0]
    ensures states'[|steps'|] == Alone(o.props, Finish(o.conn, o.tail), Nothing)
  {
    var s, r := Alone(o.props, o.conn, o.tail), Alone(o.props, Finish(o.conn, o.tail), Nothing);
    hide Finish;
    AloneUpdate(s, o.props, Finish(o.conn, o.tail), Nothing);
    RunPush(states, steps, step, s);
    states', steps' := states + [s], steps + [step];
    RunPush(states', steps', Settle(0), r);
    states', steps' := states' + [r], steps' + [Settle(0)];
  }

  lemma RowRun() returns (states: seq<Sys>, steps: seq<Step>)
    ensures Run(states, steps) && states[0] == Initial({})
    ensures states[|steps|] == Alone(RowProps(8, 5), RowConn(8), Nothing)
  {
    hide Write, Delete, RowProps, Enabled, Apply;
    states, steps := RowStart();
    var n := 0;
    while n < 8
      invariant 0 <= n <= 8 && Run(states, steps) && states[0] == Initial({})
      invariant states[|steps|] == Alone(RowProps(n, 0), RowConn(n), Nothing)
    {
      states, steps := RowAppendStep(states, steps, n);
      n := n + 1;
    }
    var m := 0;
    while m < 5
      invariant 0 <= m <= 5 && Run(states, steps) && states[0] == Initial({})
      invariant states[|steps|] == Alone(RowProps(8, m), RowConn(8), Nothing)
    {
      states, steps := RowDeleteStep(states, steps, m);
      m := m + 1;
    }
  }

  lemma RowAppendStep(states: seq<Sys>, steps: seq<Step>, n: nat) returns (states': seq<Sys>, steps': seq<Step>)
    requires n < 8 && Run(states, steps) && states[|steps|] == Alone(RowProps(n, 0), RowConn(n), Nothing)
    ensures Run(states', steps') && states'[0] == states[0]
    ensures states'[|steps'|] == Alone(RowProps(n + 1, 0), RowConn(n + 1), Nothing)
  {
    RowAppend(n);
    hide Write, RowProps;
    var o := Outcome(RowProps(n + 1, 0), RowConn(n + 1), Remember(Index(n), Simple(Null)));
    AloneUpdate(Alone(RowProps(n, 0), RowConn(n), Nothing), o.props, o.conn, o.tail);
    states', steps' := SectionAndSettle(states, steps, DoWrite(0, None, Simple(Null), PLAIN), o);
  }

  lemma RowDeleteStep(states: seq<Sys>, steps: seq<Step>, m: nat) returns (states': seq<Sys>, steps': seq<Step>)
    requires m < 7 && Run(states, steps) && states[|steps|] == Alone(RowProps(8, m), RowConn(8), Nothing)
    ensures Run(states', steps') && states'[0] == states[0]
    ensures states'[|steps'|] == Alone(RowProps(8, m + 1), RowConn(8), Nothing)
  {
    RowDelete(8, m);
    hide Delete, RowProps;
    var o := Outcome(RowProps(8, m + 1), RowConn(8), Forget(Index(m)));
    assert Finish(o.conn, o.tail) == RowConn(8);
    AloneUpdate(Alone(RowProps(8, m), RowConn(8), Nothing), o.props, o.conn, o.tail);
    states', steps' := SectionAndSettle(states, steps, DoDelete(0, Index(m)), o);
  }

  const TIGHT: Growth := Growth(true, 0)

  /** The table then compacts to make room for the next index, and `last` points past its end. */
  lemma RowMisplaced()
    ensures var p := Props(Table(Row(7, 5), 8), None, Some(6), 0);
            var q := WriteTable(p, None, SSimple(Null), TIGHT);
            Bounded(p) && Misplaces(p, TIGHT) && Bounded(q) && !LastOk(q) && |Contents(q)| == 3
    ensures !CacheableAt(Props(Table(Row(7, 5), 8), None, Some(6), 0), Index(8))
  {
    var s := Row(7, 5);
    var p := Props(Table(s, 8), None, Some(6), 0);
    KeysOkIff(s, 8);
    assert Bounded(p) && LastOk(p);
    CompactShrinks(s);
    assert s[0].Dead?;
    RowItems(7, 5);
    hide Row, Items, Compact, KeysOk, WriteTable, Set, Find;
    AppendKeyStorable(p.table);
    AppendKeepsLastIff(p, SSimple(Null), TIGHT);
    WriteTableFacts(p, None, SSimple(Null), TIGHT);
    WriteKeepsFirst(p, None, SSimple(Null), TIGHT);
    RowGrown(p);
    RowIndex(7, 5, 8);
    NotThere(p.table, Index(8));
  }

  lemma NotThere(t: Table<Storage>, k: Key)
    requires IndexOf(t.slots, k) == |t.slots|
    ensures Find(t, k) == None
  {
  }

  lemma RowGrown(p: Props)
    requires p.table == Table(Row(7, 5), 8) && |Items(Row(7, 5))| == 2
    ensures |Set(Contents(p), AppendKey(p.table), SSimple(Null))| == 3
  {
    RowIndex(7, 5, 8);
    hide IndexOf, Items, Row, Set;
    FindIsGet(p.table, Index(8));
    SetAbsent(Items(Row(7, 5)), Index(8), SSimple(Null));
  }

  /**
    Eight appends fill the table, the five oldest elements are unset, one is popped, and the
    next append compacts: a pop now returns nothing although three elements are there.
    */
  lemma StaleLast() returns (states: seq<Sys>, steps: seq<Step>)
    ensures Run(states, steps) && states[0] == Initial({})
    ensures var s := states[|steps|];
            && !LastOk(s.props) && |Contents(s.props)| == 3
            && 0 in s.peers && Pop(s.props, s.peers[0].conn).item == None
  {
    hide Pop, Row, WriteTable, Contents, Items, LastOk, Misplaces, Bounded, RowProps, RowConn, CacheableAt, Enabled,
      Apply;
    RowMisplaced();
    states, steps := RowRun();
    states, steps := PopStep(states, steps);
    states, steps := LastAppend(states, steps, Props(Table(Row(7, 5), 8), None, Some(6), 0));
    var r := states[|steps|];
    BoundedParts(r.props);
    hide LastWeak;
    MisplacedPopFindsNothing(r.props, r.peers[0].conn);
  }

  lemma PopStep(states: seq<Sys>, steps: seq<Step>) returns (states': seq<Sys>, steps': seq<Step>)
    requires Run(states, steps) && states[|steps|] == Alone(RowProps(8, 5), RowConn(8), Nothing)
    ensures Run(states', steps') && states'[0] == states[0]
    ensures states'[|steps'|] == Alone(Props(Table(Row(7, 5), 8), None, Some(6), 0), RowConn(8), Nothing)
  {
    RowPop(8, 5);
    var p := Props(Table(Row(7, 5), 8), None, Some(6), 0);
    var s := Alone(p, RowConn(8), Nothing);
    ApplyPop(Alone(RowProps(8, 5), RowConn(8), Nothing), 0);
    hide Pop, Row, RowProps, RowConn, Enabled, Apply;
    AloneUpdate(Alone(RowProps(8, 5), RowConn(8), Nothing), p, RowConn(8), Nothing);
    RunPush(states, steps, DoPop(0), s);
    states', steps' := states + [s], steps + [DoPop(0)];
  }

  lemma LastAppend(states: seq<Sys>, steps: seq<Step>, p: Props) returns (states': seq<Sys>, steps': seq<Step>)
    requires Run(states, steps) && states[|steps|] == Alone(p, RowConn(8), Nothing)
             && !CacheableAt(p, AppendKey(p.table))
    ensures Run(states', steps') && states'[0] == states[0]
    ensures states'[|steps'|].props == WriteTable(p, None, SSimple(Null), TIGHT) && 0 in states'[|steps'|].peers
  {
    var step := DoWrite(0, None, Simple(Null), TIGHT);
    var o := Write(p, RowConn(8), 0, {}, None, Simple(Null), TIGHT);
    hide WriteTable, Sync, CacheableAt;
    assert o.props == WriteTable(p, None, SSimple(Null), TIGHT);
    hide Write;
    AloneUpdate(Alone(p, RowConn(8), Nothing), o.props, o.conn, o.tail);
    states', steps' := SectionAndSettle(states, steps, step, o);
  }
}
