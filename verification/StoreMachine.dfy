/**
  Any number of threads working on one shared object, each through its own connection.
  Every monitor-protected section is one step, and what a thread does after it has
  released the monitor is a step of its own, so other threads may come in between.
  */
module StoreMachine {
  import opened Options
  import opened ZendHash
  import opened Store
  import opened StoreBounds

  /** A connection and the unfinished tail of its thread's current operation. */
  datatype Peer = Peer(conn: Conn, tail: Tail)

  /** `live` are the connection addresses (of any object) that may still be followed, and `mine`
      the persistent allocations that were made for this object's strings. */
  datatype Sys = Sys(props: Props, peers: map<Thread, Peer>, live: set<Addr>, mine: set<nat>)

  datatype Step =
    | Attach(t: Thread)
    | Detach(t: Thread, ids: nat -> nat)
    | Settle(t: Thread)
    | DoRead(t: Thread, k: Key, indirect: bool, restored: Value)
    | DoWrite(t: Thread, key: Option<Key>, v: Value, g: Growth)
    | DoDelete(t: Thread, k: Key)
    | DoShift(t: Thread)
    | DoPop(t: Thread)
    | DoChunk(t: Thread, n: int)
    | DoMerge(t: Thread, src: seq<(Key, Storage)>, gs: seq<Growth>, ids: nat -> nat, overwrite: bool)
    | DoToHash(t: Thread, table: map<Key, Value>)
    | DoSync(t: Thread)
    | DoFullSync(t: Thread, table: map<Key, Value>)
    | DoReset(t: Thread)
    | Churn(live': set<Addr>)

  /** The values an engine could rebuild from the whole table on thread `t`. */
  ghost predicate RestoresAll(p: Props, t: Thread, live: set<Addr>, table: map<Key, Value>) {
    && (forall k :: Find(p.table, k).Some? ==> k in table)
    && (forall k | k in table && Find(p.table, k).Some? :: Restores(table[k], Find(p.table, k).value, t, live))
  }

  /** The value is one a thread can have: its strings are permanent or in its own heap. */
  predicate Local(v: Value, t: Thread) { v.Text? ==> v.z.home.Permanent? || v.z.home == Heap(t) }

  /** New allocations: none in use, no two the same. */
  predicate NewIds(ids: nat -> nat, n: nat, mine: set<nat>) {
    && (forall i :: 0 <= i < n ==> ids(i) !in mine)
    && (forall i, j :: 0 <= i < j < n ==> ids(i) != ids(j))
  }

  function Allocated(ids: nat -> nat, n: nat): set<nat> { set i | 0 <= i < n :: ids(i) }

  predicate Idle(s: Sys, t: Thread) { t in s.peers && s.peers[t].tail.Nothing? }

  ghost predicate Enabled(s: Sys, step: Step) {
    match step
    case Attach(t) => t !in s.peers
    case Settle(t) => t in s.peers
    case Churn(_) => true
    case DoRead(t, k, _, v) =>
      Idle(s, t) && (Find(s.props.table, k).Some? ==> Restores(v, Find(s.props.table, k).value, t, s.live))
    case DoWrite(t, key, v, _) => Idle(s, t) && (key.Some? ==> Storable(key.value)) && Local(v, t)
    case DoMerge(t, src, gs, ids, _) =>
      && Idle(s, t) && |gs| == |src| && NewIds(ids, |src|, s.mine)
      && forall i :: 0 <= i < |src| ==> Storable(src[i].0)
    case Detach(t, ids) => Idle(s, t) && NewIds(ids, |s.props.table.slots|, s.mine)
    case DoToHash(t, table) => Idle(s, t) && RestoresAll(s.props, t, s.live, table)
    case DoFullSync(t, table) =>
      && Idle(s, t) && RestoresAll(s.props, t, s.live, table)
      && forall k :: Find(s.props.table, k).Some? ==> !Broken(Find(s.props.table, k).value, s.live)
    case _ => Idle(s, step.t)
  }

  function Update(s: Sys, t: Thread, p: Props, c: Conn, tail: Tail): Sys {
    s.(props := p, peers := s.peers[t := Peer(c, tail)])
  }

  function EmptyProps(): Props { Props(Table([], LONG_MIN), None, None, 0) }

  ghost function Apply(s: Sys, step: Step): Sys
    requires Enabled(s, step)
  {
    var p := s.props;
    match step
    case Attach(t) => Update(s, t, p, FreshConn(p), Nothing)
    case Detach(t, ids) =>
      Sys(if s.peers.Keys == {t} then EmptyProps() else Persist(p, t, ids), s.peers - {t}, s.live,
          s.mine + Allocated(ids, |p.table.slots|))
    case Settle(t) => Update(s, t, p, Finish(s.peers[t].conn, s.peers[t].tail), Nothing)
    case Churn(live') => s.(live := live')
    case DoRead(t, k, indirect, v) =>
      var o := Read(p, s.peers[t].conn, t, s.live, k, indirect, v).0;
      Update(s, t, o.props, o.conn, o.tail)
    case DoWrite(t, key, v, g) =>
      var o := Write(p, s.peers[t].conn, t, s.live, key, v, g);
      Update(s, t, o.props, o.conn, o.tail)
    case DoDelete(t, k) =>
      var o := Delete(p, s.peers[t].conn, k);
      Update(s, t, o.props, o.conn, o.tail)
    case DoShift(t) =>
      var r := Shift(p, s.peers[t].conn);
      Update(s, t, r.props, r.conn, Nothing)
    case DoPop(t) =>
      var r := Pop(p, s.peers[t].conn);
      Update(s, t, r.props, r.conn, Nothing)
    case DoChunk(t, n) =>
      var r := Chunk(p, s.peers[t].conn, n);
      Update(s, t, r.props, r.conn, Nothing)
    case DoMerge(t, src, gs, ids, overwrite) =>
      var (q, d) := Merge(p, s.peers[t].conn, src, gs, ids, overwrite);
      Update(s, t, q, d, Nothing).(mine := s.mine + Allocated(ids, |src|))
    case DoToHash(t, table) => Update(s, t, p, ToOwnTable(p, s.peers[t].conn, t, s.live, table), Nothing)
    case DoSync(t) => Update(s, t, p, Sync(p, s.peers[t].conn, t, s.live), Nothing)
    case DoFullSync(t, table) => Update(s, t, p, FullSync(p, s.peers[t].conn, t, s.live, table), Nothing)
    case DoReset(t) => Update(s, t, Reset(p).0, s.peers[t].conn, Nothing)
  }

  lemma ApplyPop(s: Sys, t: Thread)
    requires Idle(s, t)
    ensures Enabled(s, DoPop(t))
    ensures var r := Pop(s.props, s.peers[t].conn); Apply(s, DoPop(t)) == Update(s, t, r.props, r.conn, Nothing)
  {
    hide Pop;
  }

  lemma ApplyDelete(s: Sys, t: Thread, k: Key)
    requires Idle(s, t)
    ensures Enabled(s, DoDelete(t, k))
    ensures var o := Delete(s.props, s.peers[t].conn, k);
            Apply(s, DoDelete(t, k)) == Update(s, t, o.props, o.conn, o.tail)
  {
    hide Delete;
  }

  // ---------------------------------------------------------------- the invariants

  /** What the thread's cache will be once it has finished what it is doing. */
  function Settled(peer: Peer): map<Key, Value> { Finish(peer.conn, peer.tail).cache }

  predicate Backed(p: Props, k: Key, v: Value) {
    CacheableAt(p, k) && Denotes(v, Find(p.table, k).value)
  }

  /** Equal modification counts: every cached value is what the shared table holds. */
  predicate PeerCoherent(p: Props, peer: Peer) {
    InSync(p, peer.conn) ==> forall k | k in Settled(peer) :: Backed(p, k, Settled(peer)[k])
  }

  predicate Coherent(s: Sys) { forall t | t in s.peers :: PeerCoherent(s.props, s.peers[t]) }

  /** Thread `t` keeps alive every string the table points to in its heap. */
  ghost predicate PeerHolds(p: Props, t: Thread, cache: map<Key, Value>) {
    forall k | Points(p, k, t) :: k in cache && cache[k] == Text(Find(p.table, k).value.z)
  }

  predicate Points(p: Props, k: Key, t: Thread) {
    var s := Find(p.table, k);
    s.Some? && s.value.STextPtr? && s.value.owner == t
  }

  /** No raw string pointer outlives the connection that keeps the string. */
  ghost predicate NoDangling(s: Sys) {
    && (forall t | t in s.peers :: PeerHolds(s.props, t, Settled(s.peers[t])))
    && (forall k, t | Points(s.props, k, t) :: t in s.peers)
  }

  predicate PeerShape(p: Props, peer: Peer) {
    peer.conn.synced <= p.modcount && (peer.conn.hasTable || peer.conn.cache == map[])
  }

  predicate Shape(s: Sys) {
    && Valid(s.props.table) && FirstOk(s.props) && LastWeak(s.props)
    && (forall t | t in s.peers :: PeerShape(s.props, s.peers[t]))
  }

  // ---------------------------------------------------------------- values

  lemma SaveDenotes(v: Value, t: Thread)
    ensures Save(v, t).Some? ==> Denotes(v, Save(v, t).value) && (Retained(v) <==> Cacheable(Save(v, t).value))
  {
  }

  lemma KeepsDenotes(v: Value, s: Storage, t: Thread, live: set<Addr>)
    ensures Keeps(v, s, t, live) ==> Cacheable(s) && Denotes(v, s)
  {
  }

  lemma RestoresDenotes(v: Value, s: Storage, t: Thread, live: set<Addr>)
    requires Restores(v, s, t, live) && !Broken(s, live)
    ensures Denotes(v, s) && (Retained(v) <==> Cacheable(s))
  {
  }

  lemma MeaningDenotes(v: Value, s: Storage, r: Storage)
    requires SameMeaning(s, r)
    ensures Denotes(v, s) <==> Denotes(v, r)
    ensures Cacheable(s) <==> Cacheable(r)
  {
  }

  // ---------------------------------------------------------------- how one section looks to the others

  /**
    What every section owes the other connections: it moves the modification count, or
    what was cacheable still means the same.
    */
  ghost predicate Evolves(p: Props, q: Props) {
    || p.modcount < q.modcount
    || ( && p.modcount == q.modcount
         && forall k | CacheableAt(p, k) ::
              CacheableAt(q, k) && SameMeaning(Find(p.table, k).value, Find(q.table, k).value))
  }

  lemma OthersStayCoherent(p: Props, q: Props, peer: Peer)
    requires PeerShape(p, peer) && PeerCoherent(p, peer) && Evolves(p, q)
    ensures PeerShape(q, peer) && PeerCoherent(q, peer)
  {
    if InSync(q, peer.conn) {
      forall k | k in Settled(peer) ensures Backed(q, k, Settled(peer)[k]) {
        assert Backed(p, k, Settled(peer)[k]);
        MeaningDenotes(Settled(peer)[k], Find(p.table, k).value, Find(q.table, k).value);
      }
    }
  }

  lemma SyncCoherent(p: Props, c: Conn, t: Thread, live: set<Addr>)
    requires PeerShape(p, Peer(c, Nothing)) && PeerCoherent(p, Peer(c, Nothing))
    ensures var d := Sync(p, c, t, live);
            && InSync(p, d) && d.hasTable == c.hasTable
            && PeerShape(p, Peer(d, Nothing)) && PeerCoherent(p, Peer(d, Nothing))
            && forall k | k in d.cache :: k in c.cache && d.cache[k] == c.cache[k]
  {
    var d := Sync(p, c, t, live);
    if !InSync(p, c) {
      forall k | k in d.cache ensures Backed(p, k, d.cache[k]) {
        KeepsDenotes(d.cache[k], Find(p.table, k).value, t, live);
      }
    }
  }

  /** A sync never throws out the strings the table still points to. */
  lemma SyncHolds(p: Props, c: Conn, t: Thread, live: set<Addr>)
    requires PeerHolds(p, t, c.cache)
    ensures PeerHolds(p, t, Sync(p, c, t, live).cache)
  {
    var d := Sync(p, c, t, live);
    forall k | Points(p, k, t) ensures k in d.cache && d.cache[k] == c.cache[k] {
      assert k in c.cache && Stays(p, c, k, t, live);
    }
  }

  /** A section never makes the table point into another thread's heap. */
  ghost predicate PointersKept(p: Props, q: Props, t: Thread) {
    forall k, o | Points(q, k, o) && o != t :: Find(q.table, k) == Find(p.table, k)
  }

  ghost predicate Bounded(p: Props) { Valid(p.table) && FirstOk(p) && LastWeak(p) }

  /** A section of thread `t` keeps the shape and every string alive if it does so for `t`. */
  lemma AssembleHolds(s: Sys, t: Thread, q: Props, c: Conn, tail: Tail)
    requires Shape(s) && NoDangling(s)
    requires Bounded(q) && s.props.modcount <= q.modcount && PointersKept(s.props, q, t)
    requires PeerShape(q, Peer(c, tail)) && PeerHolds(q, t, Settled(Peer(c, tail)))
    ensures Shape(Update(s, t, q, c, tail)) && NoDangling(Update(s, t, q, c, tail))
  {
    var r := Update(s, t, q, c, tail);
    forall o | o in r.peers ensures PeerHolds(q, o, Settled(r.peers[o])) && PeerShape(q, r.peers[o]) {
      if o != t {
        assert PeerHolds(s.props, o, Settled(s.peers[o])) && PeerShape(s.props, s.peers[o]);
        forall k | Points(q, k, o) ensures k in Settled(r.peers[o])
          && Settled(r.peers[o])[k] == Text(Find(q.table, k).value.z) {
          assert Points(s.props, k, o);
        }
      }
    }
    forall k, o | Points(q, k, o) ensures o in r.peers {
      if o != t { assert Points(s.props, k, o); }
    }
  }

  /** And it keeps every cache honest if it does so for `t` and evolves the table properly. */
  lemma AssembleCoherent(s: Sys, t: Thread, q: Props, c: Conn, tail: Tail)
    requires Shape(s) && Coherent(s) && Evolves(s.props, q) && PeerCoherent(q, Peer(c, tail))
    ensures Coherent(Update(s, t, q, c, tail))
  {
    forall o | o in s.peers && o != t ensures PeerCoherent(q, s.peers[o]) {
      OthersStayCoherent(s.props, q, s.peers[o]);
    }
  }

  // ---------------------------------------------------------------- write

  lemma WriteTableFacts(p: Props, key: Option<Key>, s: Storage, g: Growth)
    requires Bounded(p) && (key.Some? ==> Storable(key.value))
    ensures var q := WriteTable(p, key, s, g); var k := WriteKey(p, key);
            && Bounded(q) && q.modcount == p.modcount
            && forall j :: Find(q.table, j) == if j == k then Some(s) else Find(p.table, j)
  {
    WriteKeepsFirst(p, key, s, g);
    WriteKeepsLastWeak(p, key, s, g);
    var k := WriteKey(p, key);
    forall j ensures Find(WriteTable(p, key, s, g).table, j) == if j == k then Some(s) else Find(p.table, j) {
      FindPut(p.table, k, s, g, j);
    }
  }

  /** Overwriting one's own cached value, while in sync, with a value that is never cached. */
  predicate Hazard(s: Sys, step: Step) {
    && step.DoWrite? && step.t in s.peers && step.v != Unsafe && !Retained(step.v)
    && InSync(s.props, s.peers[step.t].conn)
    && WriteKey(s.props, step.key) in s.peers[step.t].conn.cache
  }

  /** How a write changes the table, for everybody else. */
  lemma WriteEvolves(p: Props, c: Conn, t: Thread, live: set<Addr>, key: Option<Key>, v: Value, g: Growth)
    requires Bounded(p) && (key.Some? ==> Storable(key.value)) && v != Unsafe
    ensures var q := Write(p, c, t, live, key, v, g).props; var k := WriteKey(p, key);
            && Bounded(q) && Evolves(p, q) && PointersKept(p, q, t)
            && q.modcount == p.modcount + (if CacheableAt(p, k) then 1 else 0)
            && forall j :: Find(q.table, j) == if j == k then Save(v, t) else Find(p.table, j)
  {
    WriteTableFacts(p, key, Save(v, t).value, g);
  }

  /** The sync at the end of a write keeps the strings the new table points to. */
  lemma OwnWriteKeeps(p: Props, c: Conn, t: Thread, live: set<Addr>, key: Option<Key>, v: Value, g: Growth)
    requires Bounded(p) && (key.Some? ==> Storable(key.value)) && v != Unsafe && PeerHolds(p, t, c.cache)
    ensures var o := Write(p, c, t, live, key, v, g);
            forall j | Points(p, j, t) && j != WriteKey(p, key) :: j in o.conn.cache && o.conn.cache[j] == c.cache[j]
  {
    WriteEvolves(p, c, t, live, key, v, g);
    hide Find, WriteTable, Bounded, CacheableAt;
  }

  lemma WriteShape(p: Props, c: Conn, t: Thread, live: set<Addr>, key: Option<Key>, v: Value, g: Growth)
    requires Bounded(p) && (key.Some? ==> Storable(key.value)) && v != Unsafe && PeerShape(p, Peer(c, Nothing))
    ensures var o := Write(p, c, t, live, key, v, g);
            PeerShape(o.props, Peer(o.conn, o.tail)) && o.tail == Remember(WriteKey(p, key), v)
  {
    WriteEvolves(p, c, t, live, key, v, g);
    hide Find, WriteTable, Bounded, CacheableAt, Stays;
  }

  lemma WriteHolds(p: Props, c: Conn, t: Thread, live: set<Addr>, key: Option<Key>, v: Value, g: Growth)
    requires Bounded(p) && (key.Some? ==> Storable(key.value)) && v != Unsafe
    requires PeerShape(p, Peer(c, Nothing)) && PeerHolds(p, t, c.cache)
    ensures var o := Write(p, c, t, live, key, v, g);
            PeerShape(o.props, Peer(o.conn, o.tail)) && PeerHolds(o.props, t, Settled(Peer(o.conn, o.tail)))
  {
    hide Find, Write, Bounded;
    WriteShape(p, c, t, live, key, v, g);
    WriteEvolves(p, c, t, live, key, v, g);
    OwnWriteKeeps(p, c, t, live, key, v, g);
    var o := Write(p, c, t, live, key, v, g);
    var q, cache := o.props, Settled(Peer(o.conn, o.tail));
    forall j | Points(q, j, t) ensures j in cache && cache[j] == Text(Find(q.table, j).value.z) {
      if j != WriteKey(p, key) { assert Points(p, j, t); }
    }
  }

  /** A write leaves its own cache honest exactly when it is not the hazard. */
  lemma WriteCoherentIff(s: Sys, t: Thread, key: Option<Key>, v: Value, g: Growth)
    requires Shape(s) && Coherent(s) && Enabled(s, DoWrite(t, key, v, g))
    ensures Coherent(Apply(s, DoWrite(t, key, v, g))) <==> !Hazard(s, DoWrite(t, key, v, g))
  {
    var p, c := s.props, s.peers[t].conn;
    var o := Write(p, c, t, s.live, key, v, g);
    var r := Apply(s, DoWrite(t, key, v, g));
    assert PeerCoherent(p, s.peers[t]);
    if v == Unsafe {
      AssembleCoherent(s, t, p, c, Nothing);
    } else {
      var q, k := o.props, WriteKey(p, key);
      WriteEvolves(p, c, t, s.live, key, v, g);
      SaveDenotes(v, t);
      if Hazard(s, DoWrite(t, key, v, g)) {
        assert k in Settled(s.peers[t]);
        assert k in Settled(r.peers[t]) && !CacheableAt(q, k);
        assert !PeerCoherent(q, r.peers[t]);
      } else {
        OwnWriteCoherent(p, c, t, s.live, key, v, g);
        AssembleCoherent(s, t, q, o.conn, o.tail);
      }
    }
  }

  lemma OwnWriteCoherent(p: Props, c: Conn, t: Thread, live: set<Addr>, key: Option<Key>, v: Value, g: Growth)
    requires Bounded(p) && (key.Some? ==> Storable(key.value)) && v != Unsafe
    requires PeerShape(p, Peer(c, Nothing)) && PeerCoherent(p, Peer(c, Nothing))
    requires Retained(v) || !InSync(p, c) || WriteKey(p, key) !in c.cache
    ensures var o := Write(p, c, t, live, key, v, g); PeerCoherent(o.props, Peer(o.conn, o.tail))
  {
    var o := Write(p, c, t, live, key, v, g);
    var q, k := o.props, WriteKey(p, key);
    WriteEvolves(p, c, t, live, key, v, g);
    SaveDenotes(v, t);
    forall j | j in Settled(Peer(o.conn, o.tail)) ensures Backed(q, j, Settled(Peer(o.conn, o.tail))[j]) {
      if j == k && Retained(v) {
      } else {
        assert j in o.conn.cache && j in c.cache && o.conn.cache[j] == c.cache[j];
        if InSync(p, c) {
          assert j in Settled(Peer(c, Nothing));
        } else {
          KeepsDenotes(c.cache[j], Find(q.table, j).value, t, live);
        }
      }
    }
  }

  // ---------------------------------------------------------------- sections that drop what they touch

  /**
    The common shape of delete, shift, pop, chunk and merge: outside the touched keys
    nothing changes, the touched keys leave the own cache, and if any of them might have
    been cached the modification count moves.
    */
  ghost predicate Rewrites(p: Props, c: Conn, q: Props, d: Conn, touched: set<Key>) {
    && (forall j | j !in touched :: Find(q.table, j) == Find(p.table, j))
    && (forall j | j in touched && Find(q.table, j).Some? :: !Find(q.table, j).value.STextPtr?)
    && d.cache == c.cache - touched && d.hasTable == c.hasTable
    && ( || (q.modcount == p.modcount && d.synced == c.synced && forall j | j in touched :: !CacheableAt(p, j))
         || (q.modcount == p.modcount + 1 && d.synced == BumpConn(p, c).synced))
  }

  lemma RewriteSound(s: Sys, t: Thread, q: Props, d: Conn, tail: Tail, touched: set<Key>)
    requires Shape(s) && NoDangling(s) && Idle(s, t) && Bounded(q)
    requires Rewrites(s.props, s.peers[t].conn, q, Finish(d, tail), touched) && d.synced == Finish(d, tail).synced
    requires d.hasTable == s.peers[t].conn.hasTable && (d.cache == map[] || d.hasTable)
    ensures var r := Update(s, t, q, d, tail); Shape(r) && NoDangling(r) && (Coherent(s) ==> Coherent(r))
  {
    var p, c, peer := s.props, s.peers[t].conn, Peer(d, tail);
    assert PeerHolds(p, t, Settled(s.peers[t])) && PeerShape(p, s.peers[t]);
    forall k | Points(q, k, t) ensures k in Settled(peer) && Settled(peer)[k] == Text(Find(q.table, k).value.z) {
      assert Points(p, k, t);
    }
    AssembleHolds(s, t, q, d, tail);
    if Coherent(s) {
      assert PeerCoherent(p, s.peers[t]);
      forall k | k in Settled(peer) && InSync(q, d) ensures Backed(q, k, Settled(peer)[k]) {
        assert k in Settled(s.peers[t]);
      }
      AssembleCoherent(s, t, q, d, tail);
    }
  }

  lemma DeleteSound(s: Sys, t: Thread, k: Key)
    requires Shape(s) && NoDangling(s) && Idle(s, t)
    ensures var r := Apply(s, DoDelete(t, k)); Shape(r) && NoDangling(r) && (Coherent(s) ==> Coherent(r))
  {
    var p, c := s.props, s.peers[t].conn;
    assert Bounded(p) && PeerShape(p, s.peers[t]);
    var touched := DeleteRewrites(p, c, k);
    ApplyDelete(s, t, k);
    hide Delete, Bounded, Shape, NoDangling, Coherent, Finish, Rewrites, Enabled, Apply;
    var o := Delete(p, c, k);
    RewriteSound(s, t, o.props, o.conn, o.tail, touched);
  }

  lemma DeleteRewrites(p: Props, c: Conn, k: Key) returns (touched: set<Key>)
    requires Bounded(p) && (c.hasTable || c.cache == map[])
    ensures var o := Delete(p, c, k);
            && Bounded(o.props) && Rewrites(p, c, o.props, Finish(o.conn, o.tail), touched)
            && o.conn.synced == Finish(o.conn, o.tail).synced
            && o.conn.hasTable == c.hasTable && (o.conn.cache == map[] || o.conn.hasTable)
  {
    DelValid(p.table, k);
    hide Find, Del, ZendHash.Valid;
    forall j ensures Find(Del(p.table, k), j) == if j == k then None else Find(p.table, j) {
      FindDel(p.table, k, j);
    }
    touched := if Find(p.table, k).Some? then {k} else {};
  }

  /** What taking one element does, whichever end it is taken from. */
  lemma TakeRewrites(p: Props, c: Conn, r: Removal)
    requires Valid(p.table) && Find(p.table, r.key) == Some(r.stored)
    requires r.props.table == Del(p.table, r.key) && r.props.modcount == p.modcount && r.conn == Drop(c, r.key)
    ensures var (q, d) := Bumped(r.props, r.conn, Cacheable(r.stored)); Rewrites(p, c, q, d, {r.key})
  {
    forall j ensures Find(r.props.table, j) == if j == r.key then None else Find(p.table, j) {
      FindDel(p.table, r.key, j);
    }
  }

  lemma ShiftRewrites(p: Props, c: Conn) returns (touched: set<Key>)
    requires Bounded(p)
    ensures Bounded(Shift(p, c).props) && Rewrites(p, c, Shift(p, c).props, Shift(p, c).conn, touched)
  {
    touched := {};
    if Shift(p, c).item.Some? {
      var m := RemoveFront(p, c, FrontPos(p));
      NonemptyItems(p.table.slots, ValidPos(p.table.slots, FrontPos(p)));
      LiveIndex(p.table, ValidPos(p.table.slots, FrontPos(p)));
      NextRound(p, c);
      TakeRewrites(p, c, m);
      hide RemoveFront, Rewrites, FirstOk, LastWeak, ZendHash.Valid;
      touched := {m.key};
    }
  }

  lemma PopRewrites(p: Props, c: Conn) returns (touched: set<Key>)
    requires Bounded(p)
    ensures Bounded(Pop(p, c).props) && Rewrites(p, c, Pop(p, c).props, Pop(p, c).conn, touched)
  {
    touched := {};
    PopKeepsBounds(p, c);
    if Pop(p, c).item.Some? {
      var m := RemoveBack(p, c, BackPos(p));
      LiveIndex(p.table, ValidPos(p.table.slots, BackPos(p)));
      TakeRewrites(p, c, m);
      hide RemoveBack, Rewrites, FirstOk, LastWeak, ZendHash.Valid;
      touched := {m.key};
    }
  }

  lemma ShiftSound(s: Sys, t: Thread)
    requires Shape(s) && NoDangling(s) && Idle(s, t)
    ensures var r := Apply(s, DoShift(t)); Shape(r) && NoDangling(r) && (Coherent(s) ==> Coherent(r))
  {
    var p, c := s.props, s.peers[t].conn;
    assert Bounded(p) && PeerShape(p, s.peers[t]);
    var touched := ShiftRewrites(p, c);
    hide Shift, Bounded, Shape, NoDangling, Coherent;
    RewriteSound(s, t, Shift(p, c).props, Shift(p, c).conn, Nothing, touched);
  }

  lemma PopSound(s: Sys, t: Thread)
    requires Shape(s) && NoDangling(s) && Idle(s, t)
    ensures var r := Apply(s, DoPop(t)); Shape(r) && NoDangling(r) && (Coherent(s) ==> Coherent(r))
  {
    var p, c := s.props, s.peers[t].conn;
    assert Bounded(p) && PeerShape(p, s.peers[t]);
    var touched := PopRewrites(p, c);
    ApplyPop(s, t);
    hide Pop, Bounded, Shape, NoDangling, Coherent, Enabled, Apply;
    RewriteSound(s, t, Pop(p, c).props, Pop(p, c).conn, Nothing, touched);
  }

  lemma FrontTaken(p: Props, c: Conn, pos: nat)
    requires Valid(p.table) && ValidPos(p.table.slots, pos) < |p.table.slots|
    ensures var r := RemoveFront(p, c, pos);
            && Valid(r.props.table) && r.props.modcount == p.modcount && r.conn == Drop(c, r.key)
            && Find(p.table, r.key) == Some(r.stored)
            && forall j :: Find(r.props.table, j) == if j == r.key then None else Find(p.table, j)
  {
    var r := RemoveFront(p, c, pos);
    LiveIndex(p.table, ValidPos(p.table.slots, pos));
    DelValid(p.table, r.key);
    forall j ensures Find(r.props.table, j) == if j == r.key then None else Find(p.table, j) {
      FindDel(p.table, r.key, j);
    }
  }

  /** The chunk loop before its one bump. */
  lemma {:induction false} ChunkRewrites(p: Props, c: Conn, pos: nat, n: int) returns (touched: set<Key>)
    requires Valid(p.table)
    ensures var a := ChunkLoop(p, c, pos, n);
            && (forall j :: Find(a.props.table, j) == if j in touched then None else Find(p.table, j))
            && a.conn.cache == c.cache - touched && a.conn.hasTable == c.hasTable && a.conn.synced == c.synced
            && a.props.modcount == p.modcount
            && (!a.stale ==> forall j | j in touched :: !CacheableAt(p, j))
    decreases n
  {
    hide RemoveFront, ChunkLoop, Find, ValidPos;
    touched := {};
    if n > 0 && ValidPos(p.table.slots, pos) < |p.table.slots| {
      var r := RemoveFront(p, c, pos);
      FrontTaken(p, c, pos);
      UnrollLoop(p, c, pos, n);
      var rest := ChunkRewrites(r.props, r.conn, r.pos, n - 1);
      touched := {r.key} + rest;
      assert c.cache - touched == c.cache - {r.key} - rest;
    } else {
      UnrollLoop(p, c, pos, n);
    }
  }

  lemma ChunkSound(s: Sys, t: Thread, n: int)
    requires Shape(s) && NoDangling(s) && Idle(s, t)
    ensures var r := Apply(s, DoChunk(t, n)); Shape(r) && NoDangling(r) && (Coherent(s) ==> Coherent(r))
  {
    var p, c := s.props, s.peers[t].conn;
    assert PeerShape(p, s.peers[t]);
    assert Bounded(p);
    var touched := WholeChunkRewrites(p, c, n);
    hide Chunk, Bounded, Shape, NoDangling, Coherent;
    RewriteSound(s, t, Chunk(p, c, n).props, Chunk(p, c, n).conn, Nothing, touched);
  }

  lemma WholeChunkRewrites(p: Props, c: Conn, n: int) returns (touched: set<Key>)
    requires Bounded(p)
    ensures Bounded(Chunk(p, c, n).props) && Rewrites(p, c, Chunk(p, c, n).props, Chunk(p, c, n).conn, touched)
  {
    hide ChunkLoop, Find, ValidPos, Items;
    ChunkLoopSound(p, c, n);
    touched := ChunkRewrites(p, c, FrontPos(p), n);
    BumpBounded(ChunkLoop(p, c, FrontPos(p), n).props);
  }

  lemma BumpBounded(p: Props)
    requires Bounded(p)
    ensures Bounded(BumpProps(p))
  {
  }

  lemma CopyOwns(s: Storage, id: nat)
    ensures !HardCopy(s, id).STextPtr?
  {
  }

  lemma {:induction false} MergeRewrites(p: Props, c: Conn, src: seq<(Key, Storage)>, gs: seq<Growth>,
      ids: nat -> nat, overwrite: bool)
    returns (touched: set<Key>)
    requires Valid(p.table) && |gs| == |src| && forall i :: 0 <= i < |src| ==> Storable(src[i].0)
    ensures var (q, d, stale) := MergeLoop(p, c, src, gs, ids, overwrite);
            && Valid(q.table)
            && (forall j | j !in touched :: Find(q.table, j) == Find(p.table, j))
            && (forall j | j in touched && Find(q.table, j).Some? :: !Find(q.table, j).value.STextPtr?)
            && d.cache == c.cache - touched && d.hasTable == c.hasTable && d.synced == c.synced
            && q.modcount == p.modcount
            && (!stale ==> forall j | j in touched :: !CacheableAt(p, j))
  {
    hide Find, Put, ZendHash.Valid, HardCopy;
    touched := {};
    if src != [] {
      var n := |src| - 1;
      var before := MergeRewrites(p, c, src[..n], gs[..n], ids, overwrite);
      var (q, d, stale) := MergeLoop(p, c, src[..n], gs[..n], ids, overwrite);
      var (k, st) := src[n];
      touched := before;
      if !Skips(q, k, overwrite) {
        touched := before + {k};
        PutValid(q.table, k, HardCopy(st, ids(n)), gs[n]);
        CopyOwns(st, ids(n));
        forall j ensures Find(Put(q.table, k, HardCopy(st, ids(n)), gs[n]), j)
                      == if j == k then Some(HardCopy(st, ids(n))) else Find(q.table, j) {
          FindPut(q.table, k, HardCopy(st, ids(n)), gs[n], j);
        }
        assert c.cache - touched == c.cache - before - {k};
      }
    }
  }

  lemma MergeSound(s: Sys, t: Thread, src: seq<(Key, Storage)>, gs: seq<Growth>, ids: nat -> nat, overwrite: bool)
    requires Shape(s) && NoDangling(s) && Enabled(s, DoMerge(t, src, gs, ids, overwrite))
    ensures var r := Apply(s, DoMerge(t, src, gs, ids, overwrite));
            Shape(r) && NoDangling(r) && (Coherent(s) ==> Coherent(r))
  {
    var p, c := s.props, s.peers[t].conn;
    assert PeerShape(p, s.peers[t]);
    var (q, d) := Merge(p, c, src, gs, ids, overwrite);
    var touched := MergeRewrites(p, c, src, gs, ids, overwrite);
    RewriteSound(s, t, q, d, Nothing, touched);
  }

  // ---------------------------------------------------------------- reads and the ways of filling a cache

  /** A section that leaves the table alone and only touches its own cache. */
  lemma CacheOnlySound(s: Sys, t: Thread, d: Conn, tail: Tail)
    requires Shape(s) && NoDangling(s) && t in s.peers
    requires PeerShape(s.props, Peer(d, tail)) && PeerHolds(s.props, t, Settled(Peer(d, tail)))
    requires Coherent(s) ==> PeerCoherent(s.props, Peer(d, tail))
    ensures var r := Update(s, t, s.props, d, tail); Shape(r) && NoDangling(r) && (Coherent(s) ==> Coherent(r))
  {
    AssembleHolds(s, t, s.props, d, tail);
    if Coherent(s) {
      forall k | CacheableAt(s.props, k) ensures SameMeaning(Find(s.props.table, k).value, Find(s.props.table,
        k).value) {}
      AssembleCoherent(s, t, s.props, d, tail);
    }
  }

  lemma SyncShape(p: Props, c: Conn, t: Thread, live: set<Addr>)
    requires PeerShape(p, Peer(c, Nothing))
    ensures PeerShape(p, Peer(Sync(p, c, t, live), Nothing)) && Sync(p, c, t, live).hasTable == c.hasTable
  {
  }

  lemma ReadSound(s: Sys, step: Step)
    requires Shape(s) && NoDangling(s) && step.DoRead? && Enabled(s, step)
    ensures var r := Apply(s, step); Shape(r) && NoDangling(r) && (Coherent(s) ==> Coherent(r))
  {
    var p, c, t, k := s.props, s.peers[step.t].conn, step.t, step.k;
    var o := Read(p, c, t, s.live, k, step.indirect, step.restored).0;
    var peer := Peer(o.conn, o.tail);
    assert PeerShape(p, s.peers[t]) && PeerHolds(p, t, Settled(s.peers[t])) && Settled(s.peers[t]) == c.cache;
    SyncHolds(p, c, t, s.live);
    SyncShape(p, c, t, s.live);
    forall j | Points(p, j, t) ensures j in Settled(peer) && Settled(peer)[j] == Text(Find(p.table, j).value.z) {
      assert j in c.cache && j in o.conn.cache;
    }
    if Coherent(s) {
      assert PeerCoherent(p, s.peers[t]);
      SyncCoherent(p, c, t, s.live);
      assert Settled(Peer(o.conn, Nothing)) == o.conn.cache;
      forall j | j in Settled(peer) && InSync(p, o.conn) ensures Backed(p, j, Settled(peer)[j]) {
        if o.tail.Remember? && j == k && Retained(step.restored) {
          RestoresDenotes(step.restored, Find(p.table, k).value, t, s.live);
        } else {
          assert j in o.conn.cache;
        }
      }
    }
    CacheOnlySound(s, t, o.conn, o.tail);
  }

  lemma ToHashSound(s: Sys, t: Thread, table: map<Key, Value>)
    requires Shape(s) && NoDangling(s) && Enabled(s, DoToHash(t, table))
    ensures var r := Apply(s, DoToHash(t, table)); Shape(r) && NoDangling(r) && (Coherent(s) ==> Coherent(r))
  {
    var p, c := s.props, s.peers[t].conn;
    var d, e := Sync(p, c, t, s.live), ToOwnTable(p, c, t, s.live, table);
    assert PeerShape(p, s.peers[t]) && PeerHolds(p, t, Settled(s.peers[t]));
    hide Find, Sync, Restores, Keeps, Bounded, LastWeak, FirstOk;
    SyncHolds(p, c, t, s.live);
    SyncShape(p, c, t, s.live);
    if Coherent(s) {
      assert PeerCoherent(p, s.peers[t]);
      SyncCoherent(p, c, t, s.live);
      if InSync(p, e) { assert e.cache == d.cache && Settled(Peer(d, Nothing)) == d.cache; }
    }
    CacheOnlySound(s, t, e, Nothing);
  }

  lemma FullSyncSound(s: Sys, t: Thread, table: map<Key, Value>)
    requires Shape(s) && NoDangling(s) && Enabled(s, DoFullSync(t, table))
    ensures var r := Apply(s, DoFullSync(t, table)); Shape(r) && NoDangling(r) && (Coherent(s) ==> Coherent(r))
  {
    var p, c := s.props, s.peers[t].conn;
    var d, e := Sync(p, c, t, s.live), FullSync(p, c, t, s.live, table);
    assert PeerShape(p, s.peers[t]) && PeerHolds(p, t, Settled(s.peers[t]));
    SyncHolds(p, c, t, s.live);
    SyncShape(p, c, t, s.live);
    if Coherent(s) {
      assert PeerCoherent(p, s.peers[t]);
      SyncCoherent(p, c, t, s.live);
      assert Settled(Peer(d, Nothing)) == d.cache;
      forall k | k in e.cache ensures Backed(p, k, e.cache[k]) {
        if k !in d.cache { RestoresDenotes(e.cache[k], Find(p.table, k).value, t, s.live); }
      }
    }
    CacheOnlySound(s, t, e, Nothing);
  }

  lemma SmallStepSound(s: Sys, step: Step)
    requires Shape(s) && NoDangling(s) && Enabled(s, step)
    requires step.Settle? || step.DoSync? || step.DoReset? || step.Attach? || step.Churn?
    ensures var r := Apply(s, step); Shape(r) && NoDangling(r) && (Coherent(s) ==> Coherent(r))
  {
    match step
    case Churn(_) =>
    case Settle(t) =>
      var peer := s.peers[t];
      assert PeerShape(s.props, peer) && PeerHolds(s.props, t, Settled(peer))
        && (Coherent(s) ==> PeerCoherent(s.props, peer));
      CacheOnlySound(s, t, Finish(peer.conn, peer.tail), Nothing);
    case DoSync(t) =>
      var c := s.peers[t].conn;
      assert PeerShape(s.props, s.peers[t]) && PeerHolds(s.props, t, Settled(s.peers[t]))
        && Settled(s.peers[t]) == c.cache;
      SyncHolds(s.props, c, t, s.live);
      SyncShape(s.props, c, t, s.live);
      if Coherent(s) { assert PeerCoherent(s.props, s.peers[t]); SyncCoherent(s.props, c, t, s.live); }
      CacheOnlySound(s, t, Sync(s.props, c, t, s.live), Nothing);
    case DoReset(t) =>
      var q := Reset(s.props).0;
      assert PeerShape(s.props, s.peers[t]) && PeerHolds(s.props, t, Settled(s.peers[t]));
      AssembleHolds(s, t, q, s.peers[t].conn, Nothing);
      if Coherent(s) {
        assert PeerCoherent(s.props, s.peers[t]);
        OthersStayCoherent(s.props, q, s.peers[t]);
        AssembleCoherent(s, t, q, s.peers[t].conn, Nothing);
      }
    case Attach(t) =>
      assert forall k :: !Points(s.props, k, t);
      AssembleHolds(s, t, s.props, FreshConn(s.props), Nothing);
      if Coherent(s) { AssembleCoherent(s, t, s.props, FreshConn(s.props), Nothing); }
  }

  // ---------------------------------------------------------------- freeing a connection

  ghost predicate SameKeys(s: seq<Slot<Storage>>, r: seq<Slot<Storage>>) {
    |s| == |r| && forall i :: 0 <= i < |s| ==> s[i].Live? == r[i].Live? && (s[i].Live? ==> s[i].key == r[i].key)
  }

  lemma {:induction false} SameIndex(s: seq<Slot<Storage>>, r: seq<Slot<Storage>>, k: Key)
    requires SameKeys(s, r)
    ensures IndexOf(s, k) == IndexOf(r, k)
  {
    if s != [] { SameIndex(s[1..], r[1..], k); }
  }

  lemma {:induction false} SameKeysOk(s: seq<Slot<Storage>>, r: seq<Slot<Storage>>, nextFree: int)
    requires SameKeys(s, r) && KeysOk(s, nextFree)
    ensures KeysOk(r, nextFree)
  {
    if s != [] {
      SameKeysOk(s[1..], r[1..], nextFree);
      if s[0].Live? { SameIndex(s[1..], r[1..], s[0].key); }
    }
  }

  lemma SamePos(s: seq<Slot<Storage>>, r: seq<Slot<Storage>>)
    requires SameKeys(s, r)
    ensures ValidPos(s, 0) == ValidPos(r, 0)
  {
    Skipped(s, 0);
    SkipTo(r, 0, ValidPos(s, 0));
  }

  /**
    Freeing thread `t`'s connection turns its string pointers, and nothing else, into
    persistent copies with the same bytes.
    */
  lemma PersistRescues(p: Props, t: Thread, ids: nat -> nat)
    requires Bounded(p)
    ensures var q := Persist(p, t, ids);
            && Bounded(q) && q.modcount == p.modcount
            && (forall k :: !Points(q, k, t))
            && (forall k | !Points(p, k, t) :: Find(q.table, k) == Find(p.table, k))
            && (forall k | Points(p, k, t) ::
                  && Find(q.table, k).Some? && Find(q.table, k).value.SText?
                  && Find(q.table, k).value.z.text == Find(p.table, k).value.z.text)
  {
    PersistBounded(p, t, ids);
    hide Persist, Find, Bounded, Points;
    var q := Persist(p, t, ids);
    forall k ensures !Points(q, k, t) { PersistOne(p, t, ids, k); }
    forall k | !Points(p, k, t) ensures Find(q.table, k) == Find(p.table, k) { PersistOne(p, t, ids, k); }
    forall k | Points(p, k, t)
      ensures Find(p.table, k).Some? && Find(p.table, k).value.STextPtr?
      ensures Find(q.table, k).Some? && Find(q.table, k).value.SText?
      ensures Find(q.table, k).value.z.text == Find(p.table, k).value.z.text
    {
      PersistOne(p, t, ids, k);
    }
  }

  lemma PersistBounded(p: Props, t: Thread, ids: nat -> nat)
    requires Bounded(p)
    ensures Bounded(Persist(p, t, ids)) && Persist(p, t, ids).modcount == p.modcount
  {
    var s, r := p.table.slots, Persist(p, t, ids).table.slots;
    assert SameKeys(s, r);
    SameKeysOk(s, r, p.table.nextFree);
    SamePos(s, r);
    hide SameKeys, KeysOk;
  }

  /** What becomes of one key. */
  predicate PersistedAt(p: Props, q: Props, t: Thread, k: Key) {
    && !Points(q, k, t)
    && (if Points(p, k, t) then Find(p.table, k).Some? && Find(p.table, k).value.STextPtr?
                                && Find(q.table, k).Some? && Find(q.table, k).value.SText?
                                && Find(q.table, k).value.z.text == Find(p.table, k).value.z.text
        else Find(q.table, k) == Find(p.table, k))
  }

  lemma PersistOne(p: Props, t: Thread, ids: nat -> nat, k: Key)
    ensures PersistedAt(p, Persist(p, t, ids), t, k)
  {
    SameIndex(p.table.slots, Persist(p, t, ids).table.slots, k);
  }

  lemma DetachSound(s: Sys, t: Thread, ids: nat -> nat)
    requires Shape(s) && NoDangling(s) && Enabled(s, Detach(t, ids))
    ensures var r := Apply(s, Detach(t, ids)); Shape(r) && NoDangling(r) && (Coherent(s) ==> Coherent(r))
  {
    var p, r := s.props, Apply(s, Detach(t, ids));
    assert r.peers == s.peers - {t} && (s.peers.Keys != {t} ==> r.props == Persist(p, t, ids));
    hide Persist, Find, Finish, NewIds, Allocated;
    if s.peers.Keys != {t} {
      var q := Persist(p, t, ids);
      PersistRescues(p, t, ids);
      forall o | o in r.peers
        ensures PeerShape(q, r.peers[o]) && PeerHolds(q, o, Settled(r.peers[o]))
                && (Coherent(s) ==> PeerCoherent(q, r.peers[o]))
      {
        assert PeerShape(p, s.peers[o]) && PeerHolds(p, o, Settled(s.peers[o]));
        forall k | Points(q, k, o) ensures Points(p, k, o) && Find(q.table, k) == Find(p.table, k) {
          assert !Points(p, k, t);
        }
        if Coherent(s) {
          assert PeerCoherent(p, s.peers[o]) && Evolves(p, q);
          OthersStayCoherent(p, q, s.peers[o]);
        }
      }
      forall k, o | Points(q, k, o) ensures o in r.peers {
        assert !Points(q, k, t) && !Points(p, k, t) && Points(p, k, o);
      }
    } else {
      assert r.peers == map[];
      assert forall k, o :: !Points(EmptyProps(), k, o);
    }
  }

  // ---------------------------------------------------------------- every step, every run

  lemma WriteSound(s: Sys, step: Step)
    requires Shape(s) && NoDangling(s) && step.DoWrite? && Enabled(s, step)
    ensures var r := Apply(s, step); Shape(r) && NoDangling(r)
  {
    var p, c, t := s.props, s.peers[step.t].conn, step.t;
    assert PeerShape(p, s.peers[t]) && PeerHolds(p, t, Settled(s.peers[t])) && Settled(s.peers[t]) == c.cache;
    if step.v == Unsafe {
      AssembleHolds(s, t, p, c, Nothing);
    } else {
      var o := Write(p, c, t, s.live, step.key, step.v, step.g);
      WriteEvolves(p, c, t, s.live, step.key, step.v, step.g);
      WriteHolds(p, c, t, s.live, step.key, step.v, step.g);
      AssembleHolds(s, t, o.props, o.conn, o.tail);
    }
  }

  /**
    One step of any thread.  Strings never dangle and `first` never lies, whatever happens;
    caches that were honest stay honest if and only if the step is not the hazard.
    */
  lemma StepSound(s: Sys, step: Step)
    requires Shape(s) && NoDangling(s) && Enabled(s, step)
    ensures Shape(Apply(s, step)) && NoDangling(Apply(s, step))
    ensures Coherent(s) ==> (Coherent(Apply(s, step)) <==> !Hazard(s, step))
  {
    hide *;
    match step
    case DoWrite(t, key, v, g) =>
      WriteSound(s, step);
      if Coherent(s) { WriteCoherentIff(s, t, key, v, g); }
    case DoRead(_, _, _, _) => ReadSound(s, step); OnlyWritesHazard(s, step);
    case DoDelete(t, k) => DeleteEnabled(s, step); DeleteSound(s, t, k); OnlyWritesHazard(s, step);
    case DoShift(t) => DeleteEnabled(s, step); ShiftSound(s, t); OnlyWritesHazard(s, step);
    case DoPop(t) => DeleteEnabled(s, step); PopSound(s, t); OnlyWritesHazard(s, step);
    case DoChunk(t, n) => DeleteEnabled(s, step); ChunkSound(s, t, n); OnlyWritesHazard(s, step);
    case DoMerge(t, src, gs, ids, overwrite) => MergeSound(s, t, src, gs, ids, overwrite); OnlyWritesHazard(s, step);
    case DoToHash(t, table) => ToHashSound(s, t, table); OnlyWritesHazard(s, step);
    case DoFullSync(t, table) => FullSyncSound(s, t, table); OnlyWritesHazard(s, step);
    case Detach(t, ids) => DeleteEnabled(s, step); DetachSound(s, t, ids); OnlyWritesHazard(s, step);
    case _ => SmallStepSound(s, step); OnlyWritesHazard(s, step);
  }

  lemma OnlyWritesHazard(s: Sys, step: Step)
    ensures !step.DoWrite? ==> !Hazard(s, step)
  {
  }

  lemma DeleteEnabled(s: Sys, step: Step)
    requires Enabled(s, step)
    requires step.DoDelete? || step.DoShift? || step.DoPop? || step.DoChunk? || step.Detach?
    ensures Idle(s, step.t)
  {
  }

  function Initial(live: set<Addr>): Sys { Sys(EmptyProps(), map[], live, {}) }

  /** The states a sequence of steps goes through, from the first to the last. */
  ghost predicate Run(states: seq<Sys>, steps: seq<Step>) {
    && |states| == |steps| + 1
    && forall i :: 0 <= i < |steps| ==> Enabled(states[i], steps[i]) && states[i + 1] == Apply(states[i], steps[i])
  }

  /** In every run, of any threads in any order, no string dangles and `first` is right. */
  lemma {:induction false} RunSafe(states: seq<Sys>, steps: seq<Step>, n: nat)
    requires Run(states, steps) && states[0] == Initial(states[0].live) && n <= |steps|
    ensures Shape(states[n]) && NoDangling(states[n])
  {
    if n == 0 {
      assert forall k, o :: !Points(EmptyProps(), k, o);
    } else {
      RunSafe(states, steps, n - 1);
      StepSound(states[n - 1], steps[n - 1]);
    }
  }

  /** In every run without the hazard every in-sync cache is honest; a run's first hazard breaks one. */
  lemma {:induction false} RunCoherent(states: seq<Sys>, steps: seq<Step>, n: nat)
    requires Run(states, steps) && states[0] == Initial(states[0].live) && n <= |steps|
    requires forall i :: 0 <= i < n - 1 ==> !Hazard(states[i], steps[i])
    ensures Coherent(states[n]) <==> n == 0 || !Hazard(states[n - 1], steps[n - 1])
  {
    if n > 0 {
      RunCoherent(states, steps, n - 1);
      RunSafe(states, steps, n - 1);
      StepSound(states[n - 1], steps[n - 1]);
    }
  }

  // ---------------------------------------------------------------- the back of the table

  /** The append that leaves `last` behind; see StoreBounds.Misplaces. */
  predicate MisplacingStep(s: Sys, step: Step) {
    step.DoWrite? && step.key.None? && step.v != Unsafe && Misplaces(s.props, step.g)
  }

  /** Every step keeps `last` right if and only if it is not a misplacing append. */
  lemma StepLast(s: Sys, step: Step)
    requires Shape(s) && LastOk(s.props) && Enabled(s, step)
    ensures LastOk(Apply(s, step).props) <==> !MisplacingStep(s, step)
  {
    var p := s.props;
    if step.DoWrite? {
      WriteLast(p, s.peers[step.t].conn, step.t, s.live, step.key, step.v, step.g);
      hide Write, LastOk, Misplaces, Shape;
    } else if step.DoShift? || step.DoPop? || step.DoChunk? {
      TakeLast(s, step);
    } else {
      hide Find, Sync;
    }
  }

  lemma WriteLast(p: Props, c: Conn, t: Thread, live: set<Addr>, key: Option<Key>, v: Value, g: Growth)
    requires Bounded(p) && LastOk(p)
    ensures LastOk(Write(p, c, t, live, key, v, g).props) <==> !(key.None? && v != Unsafe && Misplaces(p, g))
  {
    hide Misplaces, Sync, LastOk, Bounded, CacheableAt;
    if v == Unsafe {
    } else if key.None? {
      BoundedParts(p);
      AppendKeepsLastIff(p, Save(v, t).value, g);
      SameLast(WriteTable(p, key, Save(v, t).value, g), Write(p, c, t, live, key, v, g).props);
    } else {
      KeyedLast(p, key.value, Save(v, t).value, g);
      SameLast(WriteTable(p, key, Save(v, t).value, g), Write(p, c, t, live, key, v, g).props);
    }
  }

  lemma BoundedParts(p: Props)
    requires Bounded(p)
    ensures Valid(p.table) && FirstOk(p) && LastWeak(p)
  {
  }

  lemma KeyedLast(p: Props, k: Key, s: Storage, g: Growth)
    ensures LastOk(WriteTable(p, Some(k), s, g))
  {
  }

  lemma SameLast(p: Props, q: Props)
    requires q.table == p.table && q.last == p.last
    ensures LastOk(q) <==> LastOk(p)
  {
  }

  lemma TakeLast(s: Sys, step: Step)
    requires Shape(s) && LastOk(s.props) && Enabled(s, step) && (step.DoShift? || step.DoPop? || step.DoChunk?)
    ensures LastOk(Apply(s, step).props)
  {
    var p, c := s.props, s.peers[step.t].conn;
    hide Contents, Find;
    if step.DoShift? {
      ShiftRefines(p, c);
      hide Shift, FirstOk;
    } else if step.DoPop? {
      PopRefines(p, c);
      hide Pop, FirstOk;
    } else {
      ChunkLoopSound(p, c, step.n);
      hide ChunkLoop, FirstOk;
    }
  }

  /** In every run without a misplacing append `last` is right, so a pop takes the newest element. */
  lemma {:induction false} RunLast(states: seq<Sys>, steps: seq<Step>, n: nat)
    requires Run(states, steps) && states[0] == Initial(states[0].live) && n <= |steps|
    requires forall i :: 0 <= i < n ==> !MisplacingStep(states[i], steps[i])
    ensures LastOk(states[n].props)
  {
    if n > 0 {
      RunLast(states, steps, n - 1);
      RunSafe(states, steps, n - 1);
      StepLast(states[n - 1], steps[n - 1]);
    }
  }

  // ---------------------------------------------------------------- what a reader gets

  /** A read returns what the shared table holds, wherever the value comes from. */
  lemma ReadReturnsShared(s: Sys, step: Step)
    requires Shape(s) && Coherent(s) && step.DoRead? && Enabled(s, step)
    ensures var r := Read(s.props, s.peers[step.t].conn, step.t, s.live, step.k, step.indirect, step.restored).1;
            var held := Find(s.props.table, step.k);
            && (r.Some? ==> held.Some?)
            && (r.Some? ==>
                  Denotes(r.value, held.value) || (Broken(held.value, s.live) && r.value == Simple(Null)))
            && (r.None? ==> held.None? || (step.indirect && !held.value.SObject?))
  {
    var p, c, t, k := s.props, s.peers[step.t].conn, step.t, step.k;
    assert PeerShape(p, s.peers[t]) && PeerCoherent(p, s.peers[t]);
    SyncCoherent(p, c, t, s.live);
    var d := Sync(p, c, t, s.live);
    if Hit(p, c, t, s.live, k).Some? {
      assert k in Settled(Peer(d, Nothing));
    }
  }

  /** Converting to an array gives every key of the table its shared value, and no other key. */
  lemma SnapshotIsShared(s: Sys, t: Thread, table: map<Key, Value>)
    requires Shape(s) && Coherent(s) && Enabled(s, DoToHash(t, table))
    ensures var m := Snapshot(s.props, Sync(s.props, s.peers[t].conn, t, s.live), table);
            && (forall k :: k in m <==> Find(s.props.table, k).Some?)
            && (forall k | k in m ::
                  var held := Find(s.props.table, k).value;
                  Denotes(m[k], held) || (Broken(held, s.live) && m[k] == Simple(Null)))
  {
    var p, c := s.props, s.peers[t].conn;
    assert PeerShape(p, s.peers[t]) && PeerCoherent(p, s.peers[t]);
    SyncCoherent(p, c, t, s.live);
    var d := Sync(p, c, t, s.live);
    var m := Snapshot(p, d, table);
    forall k | k in m
      ensures var held := Find(p.table, k).value; Denotes(m[k], held) || (Broken(held, s.live) && m[k] == Simple(Null))
    {
      if k in d.cache { assert k in Settled(Peer(d, Nothing)); }
    }
  }

  // ---------------------------------------------------------------- what a full sync leaves

  /** Every cacheable key is cached, with a value that is what the table holds. */
  ghost predicate AllCached(p: Props, cache: map<Key, Value>) {
    forall k | CacheableAt(p, k) :: k in cache && Denotes(cache[k], Find(p.table, k).value)
  }

  /** A cache that is in sync holds, under the keys the table might be cached for, what the table holds. */
  ghost predicate TrustsRightly(p: Props, c: Conn) {
    InSync(p, c) ==> forall k | k in c.cache && CacheableAt(p, k) :: Denotes(c.cache[k], Find(p.table, k).value)
  }

  /** A full sync caches the whole table if and only if the cache it trusts was right. */
  lemma FullSyncCachesAllIff(p: Props, c: Conn, t: Thread, live: set<Addr>, table: map<Key, Value>)
    requires RestoresAll(p, t, live, table)
    requires forall k :: Find(p.table, k).Some? ==> !Broken(Find(p.table, k).value, live)
    ensures AllCached(p, FullSync(p, c, t, live, table).cache) <==> TrustsRightly(p, c)
  {
    hide Find, Restores;
    var d, e := Sync(p, c, t, live), FullSync(p, c, t, live, table);
    forall k | CacheableAt(p, k) ensures k in e.cache && (k in d.cache ==> e.cache[k] == d.cache[k]) {}
    if TrustsRightly(p, c) {
      forall k | CacheableAt(p, k) ensures Denotes(e.cache[k], Find(p.table, k).value) {
        if k !in d.cache { RestoresDenotes(e.cache[k], Find(p.table, k).value, t, live); }
        else { KeepsDenotes(d.cache[k], Find(p.table, k).value, t, live); }
      }
    }
    if AllCached(p, e.cache) && InSync(p, c) {
      forall k | k in c.cache && CacheableAt(p, k) ensures Denotes(c.cache[k], Find(p.table, k).value) {
        assert d == c && e.cache[k] == c.cache[k];
      }
    }
  }

  /** In a run without the hazard it is right, so the joining thread ends up with all of it. */
  lemma FullSyncCachesAll(s: Sys, t: Thread, table: map<Key, Value>)
    requires Shape(s) && Coherent(s) && Enabled(s, DoFullSync(t, table))
    ensures AllCached(s.props, Apply(s, DoFullSync(t, table)).peers[t].conn.cache)
  {
    var p, c := s.props, s.peers[t].conn;
    assert PeerCoherent(p, s.peers[t]) && Settled(s.peers[t]) == c.cache;
    assert TrustsRightly(p, c) by {
      forall k | InSync(p, c) && k in c.cache && CacheableAt(p, k) ensures Denotes(c.cache[k], Find(p.table, k).value) {
        assert k in Settled(s.peers[t]);
      }
    }
    hide Shape, Find, TrustsRightly, FullSync, Coherent;
    FullSyncCachesAllIff(p, c, t, s.live, table);
  }
}
