/**
  What each operation of the store does, to the last detail: to the ordered map the shared
  table stands for, to the acting thread's cache once it has finished, and to the counts by
  which the other threads find out.  Nothing here speaks of slots or of how it is done.
  */
module StoreEffects {
  import opened Options
  import opened ZendHash
  import opened Store
  import opened StoreBounds
  import opened StoreMachine
  import opened StoreMerge

  /** Null, booleans, numbers and enum cases are never cached; everything else may be. */
  predicate MayBeCached(s: Storage) { !s.SSimple? && !s.SEnum? }

  function KeysOf<V>(l: OrderedMap<V>): set<Key> { set i | 0 <= i < |l| :: l[i].0 }

  /** The shared count moves exactly if `moved`; the acting connection stays as much in sync as it was. */
  predicate Turned(p: Props, c: Conn, q: Props, d: Conn, moved: bool) {
    && q.modcount == p.modcount + (if moved then 1 else 0)
    && (InSync(q, d) <==> InSync(p, c)) && d.synced <= q.modcount && d.hasTable == c.hasTable
  }

  lemma CacheableIs(s: Storage)
    ensures Cacheable(s) <==> MayBeCached(s)
  {
  }

  lemma BumpTurns(p: Props, c: Conn, q: Props, d: Conn, moved: bool)
    requires q.modcount == p.modcount && d.synced == c.synced && d.hasTable == c.hasTable && c.synced <= p.modcount
    ensures var (r, e) := Bumped(q, d, moved);
            Turned(p, c, r, e, moved) && r == q.(modcount := r.modcount) && e == d.(synced := e.synced)
  {
  }

  // ---------------------------------------------------------------- delete

  /** A delete removes the key from the map, and from the own cache if the map had it. */
  lemma DeleteEffect(p: Props, c: Conn, k: Key)
    requires Valid(p.table) && c.synced <= p.modcount
    ensures var o := Delete(p, c, k); var d := Finish(o.conn, o.tail); var held := Get(Contents(p), k);
            && Valid(o.props.table) && Contents(o.props) == Unset(Contents(p), k)
            && d.cache == (if held.Some? then c.cache - {k} else c.cache)
            && Turned(p, c, o.props, d, held.Some? && MayBeCached(held.value))
            && o.props.first.None? && o.props.last.None?
  {
    DelItems(p.table, k);
    DelValid(p.table, k);
    FindIsGet(p.table, k);
    if Find(p.table, k).Some? { CacheableIs(Find(p.table, k).value); }
    hide Find, Del, Items, Unset, Get, ZendHash.Valid, Cacheable, MayBeCached;
  }

  // ---------------------------------------------------------------- shift, pop, chunk

  /** A shift takes the oldest pair, whose key leaves the own cache, and knows the new first one. */
  lemma ShiftEffect(p: Props, c: Conn)
    requires Valid(p.table) && FirstOk(p) && c.synced <= p.modcount && Contents(p) != []
    ensures var r := Shift(p, c); var (k, s) := Contents(p)[0];
            && r.item == Some((k, s)) && Contents(r.props) == Contents(p)[1..]
            && r.conn.cache == c.cache - {k} && Turned(p, c, r.props, r.conn, MayBeCached(s))
            && (|Contents(p)| > 1 ==> r.props.first.Some? && r.props.last == p.last)
  {
    ShiftRefines(p, c);
    NextRound(p, c);
    var m := RemoveFront(p, c, FrontPos(p));
    FrontShape(p, c, FrontPos(p));
    CacheableIs(m.stored);
    BumpTurns(p, c, m.props, m.conn, Cacheable(m.stored));
    assert Shift(p, c) == Taken(Bumped(m.props, m.conn, Cacheable(m.stored)).0,
                                Bumped(m.props, m.conn, Cacheable(m.stored)).1, Some((m.key, m.stored)));
    hide RemoveFront, Bumped, Items, ValidPos, FirstOk, LastOk, Cacheable, MayBeCached, Shift;
  }

  lemma FrontShape(p: Props, c: Conn, pos: nat)
    requires ValidPos(p.table.slots, pos) < |p.table.slots|
    ensures var m := RemoveFront(p, c, pos);
            && m.props.modcount == p.modcount && m.conn == Drop(c, m.key)
            && (Count(p) != 1 ==> m.props.first.Some? && m.props.last == p.last)
  {
    hide Items, Del;
  }

  /** A pop, while `last` is right, takes the newest pair, whose key leaves the own cache. */
  lemma PopEffect(p: Props, c: Conn)
    requires Valid(p.table) && FirstOk(p) && LastOk(p) && c.synced <= p.modcount && Contents(p) != []
    ensures var r := Pop(p, c); var n := |Contents(p)| - 1; var (k, s) := Contents(p)[n];
            && r.item == Some((k, s)) && Contents(r.props) == Contents(p)[..n]
            && r.conn.cache == c.cache - {k} && Turned(p, c, r.props, r.conn, MayBeCached(s))
            && (|Contents(p)| > 1 ==> r.props.last.Some? && r.props.first == p.first)
  {
    PopRefines(p, c);
    var m := RemoveBack(p, c, BackPos(p));
    CacheableIs(m.stored);
    BackShape(p, c, BackPos(p));
    BumpTurns(p, c, m.props, m.conn, Cacheable(m.stored));
    assert Pop(p, c) == Taken(Bumped(m.props, m.conn, Cacheable(m.stored)).0,
                              Bumped(m.props, m.conn, Cacheable(m.stored)).1, Some((m.key, m.stored)));
    hide RemoveBack, Bumped, Items, ValidPos, FirstOk, LastOk, Cacheable, MayBeCached, Pop;
  }

  lemma BackShape(p: Props, c: Conn, pos: nat)
    requires ValidPos(p.table.slots, pos) < |p.table.slots|
    ensures var m := RemoveBack(p, c, pos);
            && m.props.modcount == p.modcount && m.conn == Drop(c, m.key)
            && (Count(p) != 1 ==> m.props.last.Some? && m.props.first == p.first)
  {
    hide Items, Del, LastBefore;
  }

  predicate AnyMayBeCached(l: OrderedMap<Storage>) { exists i :: 0 <= i < |l| && MayBeCached(l[i].1) }

  lemma {:induction false} ChunkLoopEffect(p: Props, c: Conn, pos: nat, n: int)
    ensures var a := ChunkLoop(p, c, pos, n);
            && a.conn.cache == c.cache - KeysOf(a.items) && (a.stale <==> AnyMayBeCached(a.items))
            && a.props.modcount == p.modcount && a.conn.synced == c.synced && a.conn.hasTable == c.hasTable
    decreases n
  {
    hide ChunkLoop, RemoveFront, ValidPos, Cacheable, MayBeCached, KeysOf, AnyMayBeCached;
    UnrollLoop(p, c, pos, n);
    if n > 0 && ValidPos(p.table.slots, pos) < |p.table.slots| {
      var m := RemoveFront(p, c, pos);
      FrontShape(p, c, pos);
      ChunkLoopEffect(m.props, m.conn, m.pos, n - 1);
      CacheableIs(m.stored);
      var rest := ChunkLoop(m.props, m.conn, m.pos, n - 1);
      ConsKeys((m.key, m.stored), rest.items);
      DropMore(c.cache, m.key, KeysOf(rest.items));
    } else {
      NoKeys(c.cache);
    }
  }

  lemma NoKeys(cache: map<Key, Value>)
    ensures cache - KeysOf<Storage>([]) == cache && !AnyMayBeCached([])
  {
  }

  lemma DropMore(cache: map<Key, Value>, k: Key, more: set<Key>)
    ensures cache - {k} - more == cache - ({k} + more)
  {
  }

  lemma ConsKeys(x: (Key, Storage), l: OrderedMap<Storage>)
    ensures KeysOf([x] + l) == {x.0} + KeysOf(l)
    ensures AnyMayBeCached([x] + l) <==> MayBeCached(x.1) || AnyMayBeCached(l)
  {
    hide MayBeCached;
    var m := [x] + l;
    assert m[0] == x;
    assert forall i :: 0 <= i < |l| ==> m[i + 1] == l[i];
    forall k ensures k in KeysOf(m) <==> k == x.0 || k in KeysOf(l) {
      if k in KeysOf(l) { var i :| 0 <= i < |l| && l[i].0 == k; assert m[i + 1].0 == k; }
      if k in KeysOf(m) && k != x.0 { var i :| 0 <= i < |m| && m[i].0 == k; assert l[i - 1].0 == k; }
    }
    if AnyMayBeCached(l) { var i :| 0 <= i < |l| && MayBeCached(l[i].1); assert MayBeCached(m[i + 1].1); }
    if AnyMayBeCached(m) {
      var i :| 0 <= i < |m| && MayBeCached(m[i].1);
      if i > 0 { assert MayBeCached(l[i - 1].1); }
    }
  }

  /** The first `n` pairs, or as many as there are, and the others. */
  function Leading<V>(l: OrderedMap<V>, n: int): OrderedMap<V> {
    if n <= 0 then [] else if n < |l| then l[..n] else l
  }

  function Skipping<V>(l: OrderedMap<V>, n: int): OrderedMap<V> {
    if n <= 0 then l else if n < |l| then l[n..] else []
  }

  /** A chunk takes pairs off the front, whose keys leave the own cache. */
  lemma ChunkEffect(p: Props, c: Conn, n: int)
    requires Valid(p.table) && FirstOk(p) && c.synced <= p.modcount
    ensures var a := Chunk(p, c, n);
            && a.items == Leading(Contents(p), n) && Contents(a.props) == Skipping(Contents(p), n)
            && a.conn.cache == c.cache - KeysOf(a.items) && Turned(p, c, a.props, a.conn, AnyMayBeCached(a.items))
  {
    ChunkTakesFront(p, c, n);
    ChunkLoopEffect(p, c, FrontPos(p), n);
    hide ChunkLoop, Items, FirstOk, ZendHash.Valid, AnyMayBeCached;
    var a := ChunkLoop(p, c, FrontPos(p), n);
    BumpTurns(p, c, a.props, a.conn, a.stale);
  }

  // ---------------------------------------------------------------- write and read

  /** A write sets the key, and counts if it replaced something that may be cached. */
  lemma WriteEffect(p: Props, c: Conn, t: Thread, live: set<Addr>, key: Option<Key>, v: Value, g: Growth)
    requires Bounded(p) && (key.Some? ==> Storable(key.value)) && v != Unsafe
    ensures var o := Write(p, c, t, live, key, v, g); var k := WriteKey(p, key); var was := Get(Contents(p), k);
            && Contents(o.props) == Set(Contents(p), k, Save(v, t).value)
            && o.props.modcount == p.modcount + (if was.Some? && MayBeCached(was.value) then 1 else 0)
  {
    WriteKeepsFirst(p, key, Save(v, t).value, g);
    var k := WriteKey(p, key);
    FindIsGet(p.table, k);
    if Find(p.table, k).Some? { CacheableIs(Find(p.table, k).value); }
    hide Find, WriteTable, Bounded, Get, Set, Items, Cacheable, MayBeCached, Sync, WriteKey;
  }

  /** It leaves its connection in sync and caches strings, objects and closures under the key. */
  lemma WriteCaches(p: Props, c: Conn, t: Thread, live: set<Addr>, key: Option<Key>, v: Value, g: Growth)
    requires v != Unsafe
    ensures var o := Write(p, c, t, live, key, v, g); var d := Finish(o.conn, o.tail); var k := WriteKey(p, key);
            && InSync(o.props, d)
            && (v.Text? || v.Object? || v.Closure? ==> d.hasTable && k in d.cache && d.cache[k] == v)
  {
    hide Find, WriteTable, CacheableAt, Stays, WriteKey;
  }

  /** A connection that was in sync keeps everything else, and even the old value under the key if the new one
      is never cached; one that was not only loses entries. */
  lemma WriteKeepsCache(p: Props, c: Conn, t: Thread, live: set<Addr>, key: Option<Key>, v: Value, g: Growth, j: Key)
    requires Bounded(p) && (key.Some? ==> Storable(key.value))
    requires v != Unsafe && (j != WriteKey(p, key) || v.Simple? || v.EnumCase?)
    ensures var o := Write(p, c, t, live, key, v, g); var d := Finish(o.conn, o.tail);
            && (InSync(p, c) ==> (j in d.cache <==> j in c.cache))
            && (j in d.cache ==> j in c.cache && d.cache[j] == c.cache[j])
  {
    WriteKeepsFirst(p, key, Save(v, t).value, g);
    hide Find, WriteTable, CacheableAt, Stays, WriteKey, Bounded;
  }

  /** In the machine the value is cached as soon as the writing thread has finished. */
  lemma WriteStepCaches(s: Sys, t: Thread, key: Option<Key>, v: Value, g: Growth)
    requires Enabled(s, DoWrite(t, key, v, g)) && (v.Text? || v.Object? || v.Closure?)
    ensures var r, k := Apply(s, DoWrite(t, key, v, g)), WriteKey(s.props, key);
            k in Settled(r.peers[t]) && Settled(r.peers[t])[k] == v
  {
    WriteCaches(s.props, s.peers[t].conn, t, s.live, key, v, g);
    hide Write, WriteKey;
  }

  /** A value that cannot be stored changes nothing. */
  lemma RefusedWrite(p: Props, c: Conn, t: Thread, live: set<Addr>, key: Option<Key>, v: Value, g: Growth)
    ensures Save(v, t).None? <==> v == Unsafe
    ensures v == Unsafe ==> Write(p, c, t, live, key, v, g) == Outcome(p, c, Nothing)
  {
  }

  /** A read yields what the synced cache has, else what was restored, and remembers that; it yields nothing
      exactly if nothing is cached and the key is absent or an indirect access meets no object. */
  lemma ReadEffect(p: Props, c: Conn, t: Thread, live: set<Addr>, k: Key, indirect: bool, restored: Value)
    ensures var (o, r) := Read(p, c, t, live, k, indirect, restored);
            var cache := if c.hasTable then Sync(p, c, t, live).cache else map[];
            var held, d := Get(Contents(p), k), Finish(o.conn, o.tail);
            && o.props == p && (c.hasTable ==> InSync(p, d))
            && (r.None? <==> k !in cache && (held.None? || (indirect && !held.value.SObject?)))
            && (k in cache ==> r == Some(cache[k]) && d.cache == cache)
            && (k !in cache && r.Some? ==> r.value == restored)
            && (r.None? ==> d.cache == if c.hasTable then cache else c.cache)
            && (k !in cache && r.Some? ==>
                  var kept := if c.hasTable then cache else c.cache;
                  d.cache == if restored.Text? || restored.Object? || restored.Closure? then kept[k := restored]
                             else kept)
  {
    FindIsGet(p.table, k);
    hide Find, Get, Items, Stays;
  }

  /** A sync keeps what can still be used: the thread's own strings, the same closure, the very connection that
      is stored, and any connection to the object a live address leads to. */
  lemma SyncKeepsUsable(p: Props, c: Conn, t: Thread, live: set<Addr>, k: Key)
    requires k in c.cache && Find(p.table, k).Some?
    ensures var s, v := Find(p.table, k).value, c.cache[k];
            || (s.SObject? && v == Object(s.a))
            || (s.SObject? && v.Object? && s.a in live && v.a.ts == s.a.ts)
            || (s.STextPtr? && s.owner == t && v == Text(s.z))
            || (s.SClosure? && v == Closure(s.id, s.code))
            ==> k in Sync(p, c, t, live).cache && Sync(p, c, t, live).cache[k] == v
  {
  }

  /** An out-of-date cache loses what the table does not have, what it holds otherwise, foreign strings,
      and other connections to an object whose stored address is dead. */
  lemma SyncDropsOthers(p: Props, c: Conn, t: Thread, live: set<Addr>, k: Key)
    requires !InSync(p, c) && k in Sync(p, c, t, live).cache
    ensures Find(p.table, k).Some? && k in c.cache && Denotes(c.cache[k], Find(p.table, k).value)
    ensures Sync(p, c, t, live).cache[k] == c.cache[k]
    ensures c.cache[k].Text? ==> Find(p.table, k) == Some(STextPtr(c.cache[k].z, t))
    ensures c.cache[k].Object? ==> c.cache[k].a == Find(p.table, k).value.a || Find(p.table, k).value.a in live
  {
  }

  // ---------------------------------------------------------------- converting to an array, attaching

  /** The object's own table gets exactly the keys of the map, and the connection is out of sync if any was added. */
  lemma OwnTableEffect(p: Props, c: Conn, t: Thread, live: set<Addr>, table: map<Key, Value>)
    requires forall k :: Find(p.table, k).Some? ==> k in table
    ensures var d, e := Sync(p, c, t, live), ToOwnTable(p, c, t, live, table);
            && e.hasTable && (forall k :: k in e.cache <==> k in d.cache || Find(p.table, k).Some?)
            && (forall k | k in e.cache :: e.cache[k] == if k in d.cache then d.cache[k] else table[k])
            && (InSync(p, e) <==> forall k | Find(p.table, k).Some? :: k in d.cache)
  {
    hide Find, Stays;
    var d := Sync(p, c, t, live);
    var junk := map k | k in table && Find(p.table, k).Some? && k !in d.cache :: table[k];
    assert InSync(p, d);
    if k :| Find(p.table, k).Some? && k !in d.cache { assert k in junk; }
  }

  /** A full sync adds exactly the keys that may be cached, whose values it restores, and is in sync. */
  lemma FullSyncEffect(p: Props, c: Conn, t: Thread, live: set<Addr>, table: map<Key, Value>)
    requires forall k :: Find(p.table, k).Some? ==> k in table
    ensures var d, e := Sync(p, c, t, live), Store.FullSync(p, c, t, live, table);
            && e.hasTable && InSync(p, e)
            && (forall k :: k in e.cache <==>
                  k in d.cache || (Find(p.table, k).Some? && MayBeCached(Find(p.table, k).value)))
            && (forall k | k in e.cache :: e.cache[k] == if k in d.cache then d.cache[k] else table[k])
  {
    hide Find, Stays;
  }

  /** A new connection has nothing cached and is out of sync. */
  lemma FreshEffect(p: Props)
    ensures var c := FreshConn(p); c.cache == map[] && !c.hasTable && !InSync(p, c) && c.synced <= p.modcount
  {
  }

  // ---------------------------------------------------------------- merge and detach

  /** A merge folds the pairs into the map, drops the keys it wrote from the own cache, counts if it replaced
      something that may be cached, and forgets both positions. */
  lemma MergeEffect(p: Props, c: Conn, src: seq<(Key, Storage)>, gs: seq<Growth>, ids: nat -> nat, overwrite: bool)
    requires |gs| == |src| && Distinct(src) && c.synced <= p.modcount
    ensures var (q, d) := Merge(p, c, src, gs, ids, overwrite);
            && Contents(q) == Folded(Contents(p), src, ids, overwrite) && q.first.None? && q.last.None?
            && d.cache == c.cache - Written(p, src, overwrite) && Turned(p, c, q, d, Replaces(p, src, overwrite))
  {
    MergeFolds(p, c, src, gs, ids, overwrite);
    MergeDrops(p, c, src, gs, ids, overwrite);
    hide MergeLoop, Folded, Written, Replaces, Items;
    var (q, d, stale) := MergeLoop(p, c, src, gs, ids, overwrite);
    BumpTurns(p, c, q, d, stale);
  }

  ghost predicate SlotsAlike(s: seq<Slot<Storage>>, r: seq<Slot<Storage>>) {
    |s| == |r| && forall i :: 0 <= i < |s| ==> SlotAlike(s[i], r[i])
  }

  predicate SlotAlike(a: Slot<Storage>, b: Slot<Storage>) {
    a.Live? == b.Live? && (a.Live? ==> a.key == b.key && SameMeaning(a.val, b.val))
  }

  lemma {:induction false} AlikeItems(s: seq<Slot<Storage>>, r: seq<Slot<Storage>>)
    requires SlotsAlike(s, r)
    ensures SameOrdered(Items(s), Items(r))
  {
    if s != [] {
      assert SlotAlike(s[0], r[0]);
      AlikeItems(s[1..], r[1..]);
      hide SameOrdered, SameMeaning;
      if s[0].Live? { SameCons((s[0].key, s[0].val), (r[0].key, r[0].val), Items(s[1..]), Items(r[1..])); }
    }
  }

  lemma PersistAlike(p: Props, t: Thread, ids: nat -> nat)
    ensures SameOrdered(Contents(p), Contents(Persist(p, t, ids)))
  {
    var s, r := p.table.slots, Persist(p, t, ids).table.slots;
    forall i | 0 <= i < |s| ensures SlotAlike(s[i], r[i]) {
      if s[i].Live? { CopyMeaning(s[i].val, ids(i)); MeaningRefl(s[i].val); }
    }
    AlikeItems(s, r);
  }

  /** Freeing a connection leaves the map as it is, by key, order and meaning, while others are attached;
      the last one takes it away. */
  lemma DetachEffect(s: Sys, t: Thread, ids: nat -> nat)
    requires Enabled(s, Detach(t, ids))
    ensures var r := Apply(s, Detach(t, ids));
            && r.peers == s.peers - {t}
            && (if s.peers == map[t := s.peers[t]] then r.props == EmptyProps()
                else SameOrdered(Contents(s.props), Contents(r.props)) && r.props.modcount == s.props.modcount)
  {
    PersistAlike(s.props, t, ids);
    hide Contents, SameOrdered, NewIds, Allocated;
    if s.peers.Keys == {t} { assert s.peers == map[t := s.peers[t]]; }
  }

  // ---------------------------------------------------------------- every step, on the plain map

  function Behind<V>(l: OrderedMap<V>): OrderedMap<V> { if l == [] then [] else l[1..] }

  function Before<V>(l: OrderedMap<V>): OrderedMap<V> { if l == [] then [] else l[..|l| - 1] }

  /** What a step does to the ordered map. */
  ghost predicate Does(s: Sys, step: Step, l: OrderedMap<Storage>, m: OrderedMap<Storage>) {
    if step.DoWrite? then
      m == if step.v == Unsafe then l else Set(l, WriteKey(s.props, step.key), Save(step.v, step.t).value)
    else if step.DoDelete? then m == Unset(l, step.k)
    else if step.DoShift? then m == Behind(l)
    else if step.DoPop? then m == if LastOk(s.props) then Before(l) else l
    else if step.DoChunk? then m == Skipping(l, step.n)
    else if step.DoMerge? then m == Folded(l, step.src, step.ids, step.overwrite)
    else if step.Detach? then if s.peers.Keys == {step.t} then m == [] else SameOrdered(l, m)
    else m == l
  }

  lemma TakeDoes(s: Sys, step: Step)
    requires Shape(s) && Enabled(s, step) && (step.DoShift? || step.DoPop? || step.DoChunk?)
    ensures Does(s, step, Contents(s.props), Contents(Apply(s, step).props))
  {
    var p, c := s.props, s.peers[step.t].conn;
    hide Items;
    if step.DoShift? {
      ShiftRefines(p, c);
      hide Shift, FirstOk, LastOk;
    } else if step.DoChunk? {
      ChunkTakesFront(p, c, step.n);
      hide Chunk, FirstOk, LastOk;
    } else {
      if LastOk(p) { PopRefines(p, c); } else { MisplacedPopFindsNothing(p, c); }
      hide Pop, FirstOk, LastOk;
    }
  }

  /** Every step of any thread does to the ordered map what its name says, and nothing else. */
  lemma StepDoes(s: Sys, step: Step)
    requires Shape(s) && Enabled(s, step)
    ensures Does(s, step, Contents(s.props), Contents(Apply(s, step).props))
  {
    var p := s.props;
    if step.DoWrite? {
      var c := s.peers[step.t].conn;
      RefusedWrite(p, c, step.t, s.live, step.key, step.v, step.g);
      if step.v != Unsafe { WriteEffect(p, c, step.t, s.live, step.key, step.v, step.g); }
      hide Write, Contents, Set;
    } else if step.DoDelete? {
      DelItems(p.table, step.k);
      hide Items, Unset, Del;
    } else if step.DoShift? || step.DoPop? || step.DoChunk? {
      hide Does;
      TakeDoes(s, step);
    } else if step.DoMerge? {
      MergeFolds(p, s.peers[step.t].conn, step.src, step.gs, step.ids, step.overwrite);
      hide MergeLoop, Folded, Items;
    } else if step.Detach? {
      PersistAlike(p, step.t, step.ids);
      hide Persist, SameOrdered;
    } else {
      hide Items;
    }
  }

  /** What a step does to the cache of the thread that takes it, once that has finished: `was` becomes `now`. */
  ghost predicate CachesDo(s: Sys, step: Step, was: map<Key, Value>, now: map<Key, Value>)
    requires !step.Churn? && step.t in s.peers
  {
    var p, c, l := s.props, s.peers[step.t].conn, Contents(s.props);
    var clean := Sync(p, c, step.t, s.live).cache;
    match step
    case DoDelete(_, k) => now == if Get(l, k).Some? then was - {k} else was
    case DoShift(_) => now == if l == [] then was else was - {l[0].0}
    case DoPop(_) => now == if l == [] || !LastOk(p) then was else was - {l[|l| - 1].0}
    case DoChunk(_, n) => now == was - KeysOf(Leading(l, n))
    case DoMerge(_, src, _, _, overwrite) => Distinct(src) ==> now == was - Written(p, src, overwrite)
    case DoWrite(_, key, v, _) =>
      if v == Unsafe then now == was
      else if Retained(v) then WriteKey(p, key) in now && now[WriteKey(p, key)] == v
      else forall j | j in now :: j in was && now[j] == was[j]
    case DoRead(_, k, indirect, v) =>
      if c.hasTable && k in clean then now == clean
      else
        var kept, held := if c.hasTable then clean else was, Get(l, k);
        now == if held.None? || (indirect && !held.value.SObject?) || !Retained(v) then kept else kept[k := v]
    case DoSync(_) => now == clean
    case DoToHash(_, _) => forall k :: k in now <==> k in clean || Find(p.table, k).Some?
    case DoFullSync(_, _) => forall k :: k in now <==> k in clean || CacheableAt(p, k)
    case _ => now == was
  }

  lemma DeleteCaches(s: Sys, step: Step)
    requires Shape(s) && Enabled(s, step) && step.DoDelete?
    ensures CachesDo(s, step, Settled(s.peers[step.t]), Settled(Apply(s, step).peers[step.t]))
    ensures InSync(Apply(s, step).props, Apply(s, step).peers[step.t].conn) <==> InSync(s.props, s.peers[step.t].conn)
  {
    var p, c := s.props, s.peers[step.t].conn;
    assert PeerShape(p, s.peers[step.t]) && Bounded(p);
    hide Shape, Items, Get;
    DeleteEffect(p, c, step.k);
    hide Delete;
  }

  lemma ShiftCaches(s: Sys, step: Step)
    requires Shape(s) && Enabled(s, step) && step.DoShift?
    ensures CachesDo(s, step, Settled(s.peers[step.t]), Settled(Apply(s, step).peers[step.t]))
    ensures InSync(Apply(s, step).props, Apply(s, step).peers[step.t].conn) <==> InSync(s.props, s.peers[step.t].conn)
  {
    var p, c := s.props, s.peers[step.t].conn;
    assert PeerShape(p, s.peers[step.t]) && Bounded(p);
    hide Shape, Items, Get;
    if Contents(p) == [] { ShiftRefines(p, c); } else { ShiftEffect(p, c); }
    hide Shift;
  }

  lemma ChunkCaches(s: Sys, step: Step)
    requires Shape(s) && Enabled(s, step) && step.DoChunk?
    ensures CachesDo(s, step, Settled(s.peers[step.t]), Settled(Apply(s, step).peers[step.t]))
    ensures InSync(Apply(s, step).props, Apply(s, step).peers[step.t].conn) <==> InSync(s.props, s.peers[step.t].conn)
  {
    var p, c := s.props, s.peers[step.t].conn;
    assert PeerShape(p, s.peers[step.t]) && Bounded(p);
    hide Shape, Items, Get;
    ChunkEffect(p, c, step.n);
    hide Chunk, KeysOf, Leading, Skipping, AnyMayBeCached;
  }

  lemma PopCaches(s: Sys, step: Step)
    requires Shape(s) && Enabled(s, step) && step.DoPop?
    ensures CachesDo(s, step, Settled(s.peers[step.t]), Settled(Apply(s, step).peers[step.t]))
    ensures InSync(Apply(s, step).props, Apply(s, step).peers[step.t].conn) <==> InSync(s.props, s.peers[step.t].conn)
  {
    var p, c := s.props, s.peers[step.t].conn;
    assert PeerShape(p, s.peers[step.t]) && Bounded(p);
    hide Shape, Items, Get;
    if !LastOk(p) { MisplacedPopFindsNothing(p, c); }
    else if Contents(p) == [] { PopRefines(p, c); } else { PopEffect(p, c); }
    hide Pop;
  }

  lemma UseCaches(s: Sys, step: Step)
    requires Shape(s) && Enabled(s, step) && (step.DoRead? || step.DoWrite? || step.DoMerge?)
    ensures CachesDo(s, step, Settled(s.peers[step.t]), Settled(Apply(s, step).peers[step.t]))
  {
    var p, c, t := s.props, s.peers[step.t].conn, step.t;
    assert PeerShape(p, s.peers[t]) && Bounded(p);
    hide Shape, Items, Get;
    if step.DoRead? {
      ReadEffect(p, c, t, s.live, step.k, step.indirect, step.restored);
      hide Read;
    } else if step.DoMerge? {
      if Distinct(step.src) { MergeEffect(p, c, step.src, step.gs, step.ids, step.overwrite); }
      hide Merge;
    } else if step.v == Unsafe {
      RefusedWrite(p, c, t, s.live, step.key, step.v, step.g);
      hide Write;
    } else if Retained(step.v) {
      WriteStepCaches(s, t, step.key, step.v, step.g);
      hide Write;
    } else {
      var now := Settled(Apply(s, step).peers[t]);
      forall j | j in now ensures j in c.cache && now[j] == c.cache[j] {
        WriteKeepsCache(p, c, t, s.live, step.key, step.v, step.g, j);
        hide Write;
      }
    }
  }

  /** Every step does that to its own thread's cache. */
  lemma StepCaches(s: Sys, step: Step)
    requires Shape(s) && Enabled(s, step) && !step.Churn? && step.t in s.peers && !step.Detach?
    ensures CachesDo(s, step, Settled(s.peers[step.t]), Settled(Apply(s, step).peers[step.t]))
  {
    var p, c, t := s.props, s.peers[step.t].conn, step.t;
    if step.DoShift? || step.DoPop? || step.DoChunk? || step.DoDelete? {
      hide CachesDo;
      if step.DoShift? { ShiftCaches(s, step); } else if step.DoPop? { PopCaches(s, step); }
      else if step.DoChunk? { ChunkCaches(s, step); } else { DeleteCaches(s, step); }
    } else if step.DoRead? || step.DoWrite? || step.DoMerge? {
      hide CachesDo;
      UseCaches(s, step);
    } else if step.DoToHash? {
      OwnTableEffect(p, c, t, s.live, step.table);
      hide ToOwnTable, Sync, Find, Restores;
    } else if step.DoFullSync? {
      FullSyncEffect(p, c, t, s.live, step.table);
      hide Store.FullSync, Sync, Find, Restores;
    } else {
      hide Sync, Items, Find;
    }
  }

  /** After a sync, a full sync, a write, or a read through the object's own table the connection is in sync. */
  lemma StepSyncs(s: Sys, step: Step)
    requires Enabled(s, step)
    requires step.DoSync? || step.DoFullSync? || (step.DoWrite? && step.v != Unsafe)
             || (step.DoRead? && s.peers[step.t].conn.hasTable)
    ensures InSync(Apply(s, step).props, Apply(s, step).peers[step.t].conn)
  {
    hide Find, Stays, WriteTable, CacheableAt, WriteKey, Restores;
  }

  /** And it touches no other thread's connection. */
  lemma OthersUntouched(s: Sys, step: Step, o: Thread)
    requires Enabled(s, step) && o in s.peers && (step.Churn? || o != step.t)
    ensures o in Apply(s, step).peers && Apply(s, step).peers[o] == s.peers[o]
  {
    hide Write, Delete, Shift, Pop, Chunk, Merge, Read, Sync, FullSync, ToOwnTable, NewIds, RestoresAll;
  }

  /** So in every run the shared object is the plain ordered map its steps describe. */
  lemma RunDoes(states: seq<Sys>, steps: seq<Step>, i: nat)
    requires Run(states, steps) && states[0] == Initial(states[0].live) && i < |steps|
    ensures Does(states[i], steps[i], Contents(states[i].props), Contents(states[i + 1].props))
  {
    hide Does, Enabled, Apply;
    RunSafe(states, steps, i);
    hide Shape, NoDangling;
    StepDoes(states[i], steps[i]);
  }
}
