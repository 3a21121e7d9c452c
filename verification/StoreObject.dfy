/**
  The store's operations as the code performs them: on a shared object and a connection
  that are updated in place, with the loops of src/store.c.  Each method is the section
  the monitor protects; it is proved to be the function of the same name in Store.
  */
module StoreObject {
  import opened Options
  import opened ZendHash
  import Store
  import opened StoreBounds
  import StoreMerge

  type Storage = Store.Storage
  type Value = Store.Value

  class SharedObject {
    var table: Table<Storage>
    var first: Option<nat>
    var last: Option<nat>
    var modcount: int

    function Props(): Store.Props
      reads this
    {
      Store.Props(table, first, last, modcount)
    }

    constructor ()
      ensures Props() == Store.Props(Table([], LONG_MIN), None, None, 0)
    {
      table, first, last, modcount := Table([], LONG_MIN), None, None, 0;
    }

    method InvalidateBounds()
      modifies `first, `last
      ensures Props() == Store.Invalidate(old(Props()))
    {
      first, last := None, None;
    }

    /** Iteration starts at the first element, and remembers where that was. */
    method Reset() returns (position: Option<nat>)
      modifies `first
      ensures (Props(), position) == Store.Reset(old(Props()))
    {
      if first.None? {
        var i := ValidPos(table.slots, 0);
        if i == |table.slots| { return None; }
        first := Some(i);
      }
      position := first;
    }

    /** The strings `owner` lent to the table become copies the table owns. */
    method PersistLocalProperties(owner: Store.Thread, ids: nat -> nat)
      modifies `table
      ensures Props() == Store.Persist(old(Props()), owner, ids)
    {
      var n := |table.slots|;
      for i := 0 to n
        invariant |table.slots| == n && table.nextFree == old(table.nextFree)
        invariant forall j :: 0 <= j < i ==> table.slots[j] == Store.PersistSlot(old(table.slots)[j], owner, ids(j))
        invariant forall j :: i <= j < n ==> table.slots[j] == old(table.slots)[j]
      {
        var slot := table.slots[i];
        if slot.Live? && slot.val.STextPtr? && slot.val.owner == owner {
          table := table.(slots := table.slots[i := Live(slot.key, Store.HardCopy(slot.val, ids(i)))]);
        }
      }
      assert table.slots == Store.PersistSlots(old(table.slots), owner, ids);
    }
  }

  class Connection {
    const owner: Store.Thread
    const shared: SharedObject
    var hasTable: bool
    var cache: map<Key, Value>
    var synced: int

    function View(): Store.Conn
      reads this
    {
      Store.Conn(hasTable, cache, synced)
    }

    constructor (owner: Store.Thread, shared: SharedObject)
      ensures this.owner == owner && this.shared == shared && View() == Store.FreshConn(shared.Props())
    {
      this.owner, this.shared := owner, shared;
      hasTable, cache, synced := false, map[], shared.modcount - 1;
    }

    /** Drops every cached value the shared table no longer vouches for. */
    method SyncLocalProperties(live: set<Store.Addr>)
      modifies this
      ensures View() == Store.Sync(shared.Props(), old(View()), owner, live)
    {
      if synced == shared.modcount { return; }
      ghost var before := View();
      ghost var p := shared.Props();
      var todo := cache.Keys;
      while todo != {}
        invariant todo <= before.cache.Keys && hasTable == before.hasTable
        invariant forall k :: k in cache <==> k in before.cache && (k in todo || Store.Stays(p, before, k, owner, live))
        invariant forall k | k in cache :: cache[k] == before.cache[k]
        decreases todo
      {
        var k :| k in todo;
        todo := todo - {k};
        var stored := Find(shared.table, k);
        if stored.None? || !Store.Keeps(cache[k], stored.value, owner, live) {
          cache := cache - {k};
        }
      }
      synced := shared.modcount;
    }

    method BumpModcount()
      modifies this`synced, shared`modcount
      ensures shared.Props() == Store.BumpProps(old(shared.Props()))
      ensures View() == Store.BumpConn(old(shared.Props()), old(View()))
    {
      if synced == shared.modcount { synced := synced + 1; }
      shared.modcount := shared.modcount + 1;
    }

    /** What follows a read, a write or a delete once the monitor is free again. */
    method Finish(tail: Store.Tail)
      modifies this
      ensures View() == Store.Finish(old(View()), tail)
    {
      match tail
      case Nothing =>
      case Remember(k, v) =>
        if Store.Retained(v) { hasTable, cache := true, cache[k := v]; }
      case Forget(k) =>
        cache := cache - {k};
    }

    method ReadLocked(live: set<Store.Addr>, k: Key, indirect: bool, restored: Value)
      returns (tail: Store.Tail, result: Option<Value>)
      modifies this
      ensures var r := Store.Read(shared.Props(), old(View()), owner, live, k, indirect, restored);
              View() == r.0.conn && tail == r.0.tail && result == r.1
    {
      if hasTable {
        SyncLocalProperties(live);
        if k in cache { return Store.Nothing, Some(cache[k]); }
      }
      var stored := Find(shared.table, k);
      if stored.None? || (indirect && !stored.value.SObject?) { return Store.Nothing, None; }
      return Store.Remember(k, restored), Some(restored);
    }

    method WriteLocked(live: set<Store.Addr>, key: Option<Key>, v: Value, g: Growth) returns (tail: Store.Tail)
      modifies this, shared
      ensures var o := Store.Write(old(shared.Props()), old(View()), owner, live, key, v, g);
              shared.Props() == o.props && View() == o.conn && tail == o.tail
    {
      hide Put, Find, MoveForward, ValidPos, AppendKey, Store.Save, Store.Sync;
      var saved := Store.Save(v, owner);
      if saved.None? { return Store.Nothing; }
      var k := if key.Some? then key.value else AppendKey(shared.table);
      var was := Find(shared.table, k);
      shared.table := Put(shared.table, k, saved.value, g);
      if was.Some? && Store.Cacheable(was.value) { BumpModcount(); }
      if shared.first.Some? && shared.first.value != 0 && ValidPos(shared.table.slots, 0) < |shared.table.slots| {
        shared.InvalidateBounds();
      }
      if key.Some? {
        shared.InvalidateBounds();
      } else if shared.last.Some? {
        var moved := MoveForward(shared.table, shared.last.value);
        if moved.Some? { shared.last := moved; }
      }
      SyncLocalProperties(live);
      return Store.Remember(k, v);
    }

    method DeleteLocked(k: Key) returns (tail: Store.Tail)
      modifies this, shared
      ensures var o := Store.Delete(old(shared.Props()), old(View()), k);
              shared.Props() == o.props && View() == o.conn && tail == o.tail
    {
      var was := Find(shared.table, k);
      shared.table := Del(shared.table, k);
      if was.Some? && Store.Cacheable(was.value) { BumpModcount(); }
      shared.InvalidateBounds();
      tail := if was.Some? then Store.Forget(k) else Store.Nothing;
    }

    /** One element off the front, at `pos`; both shift and chunk are made of this. */
    method TakeFront(pos: nat) returns (item: (Key, Storage), pos': nat)
      requires ValidPos(shared.table.slots, pos) < |shared.table.slots|
      modifies this`cache, shared
      ensures var r := Store.RemoveFront(old(shared.Props()), old(View()), pos);
              shared.Props() == r.props && View() == r.conn && item == (r.key, r.stored) && pos' == r.pos
    {
      var slot := shared.table.slots[ValidPos(shared.table.slots, pos)];
      pos' := pos;
      if |Items(shared.table.slots)| == 1 {
        shared.InvalidateBounds();
      } else {
        pos' := MoveForward(shared.table, pos).value;
        shared.first := Some(pos');
      }
      shared.table := Del(shared.table, slot.key);
      cache := cache - {slot.key};
      item := (slot.key, slot.val);
    }

    method Shift() returns (item: Option<(Key, Storage)>)
      modifies this, shared
      ensures var r := Store.Shift(old(shared.Props()), old(View()));
              shared.Props() == r.props && View() == r.conn && item == r.item
    {
      var pos: nat := if shared.first.Some? then shared.first.value else ValidPos(shared.table.slots, 0);
      if ValidPos(shared.table.slots, pos) >= |shared.table.slots| { return None; }
      var taken, _ := TakeFront(pos);
      if Store.Cacheable(taken.1) { BumpModcount(); }
      item := Some(taken);
    }

    /** Takes up to `size` elements off the front, starting at `start`. */
    method TakeUpTo(start: nat, size: int) returns (items: seq<(Key, Storage)>, stale: bool)
      modifies this, shared
      ensures Store.Chunked(shared.Props(), View(), items, stale)
           == Store.ChunkLoop(old(shared.Props()), old(View()), start, size)
    {
      hide *;
      var pos := start;
      items, stale := [], false;
      while |items| < size && ValidPos(shared.table.slots, pos) < |shared.table.slots|
        invariant var rest := Store.ChunkLoop(shared.Props(), View(), pos, size - |items|);
                  Store.ChunkLoop(old(shared.Props()), old(View()), start, size)
                  == rest.(items := items + rest.items, stale := stale || rest.stale)
        decreases size - |items|
      {
        ghost var rest := Store.ChunkLoop(shared.Props(), View(), pos, size - |items|);
        Unroll(pos, size - |items|);
        var item, next := TakeFront(pos);
        assert items + rest.items == items + [item] + rest.items[1..];
        items, pos := items + [item], next;
        stale := stale || Store.Cacheable(item.1);
      }
      Unroll(pos, size - |items|);
    }

    lemma Unroll(pos: nat, n: int)
      ensures var p, c := shared.Props(), View();
              if n <= 0 || ValidPos(shared.table.slots, pos) >= |shared.table.slots|
              then Store.ChunkLoop(p, c, pos, n) == Store.Chunked(p, c, [], false)
              else var r := Store.RemoveFront(p, c, pos);
                   var rest := Store.ChunkLoop(r.props, r.conn, r.pos, n - 1);
                   Store.ChunkLoop(p, c, pos, n)
                   == rest.(items := [(r.key, r.stored)] + rest.items, stale := Store.Cacheable(r.stored) || rest.stale)
    {
      UnrollLoop(shared.Props(), View(), pos, n);
    }

    /** Takes up to `size` elements off the front and bumps at most once. */
    method Chunk(size: int) returns (items: seq<(Key, Storage)>)
      modifies this, shared
      ensures var r := Store.Chunk(old(shared.Props()), old(View()), size);
              shared.Props() == r.props && View() == r.conn && items == r.items
    {
      var stale;
      items, stale := TakeUpTo(if shared.first.Some? then shared.first.value else ValidPos(shared.table.slots, 0),
        size);
      if stale { BumpModcount(); }
    }

    method Pop() returns (item: Option<(Key, Storage)>)
      modifies this, shared
      ensures var r := Store.Pop(old(shared.Props()), old(View()));
              shared.Props() == r.props && View() == r.conn && item == r.item
    {
      var pos := if shared.last.Some? then shared.last.value else EndPos(shared.table);
      var i := ValidPos(shared.table.slots, pos);
      if i >= |shared.table.slots| { return None; }
      var slot := shared.table.slots[i];
      if |Items(shared.table.slots)| == 1 {
        shared.InvalidateBounds();
      } else {
        var back := MoveBackward(shared.table, pos);
        shared.last := Some(if back.Some? then back.value else pos);
      }
      shared.table := Del(shared.table, slot.key);
      cache := cache - {slot.key};
      if Store.Cacheable(slot.val) { BumpModcount(); }
      item := Some((slot.key, slot.val));
    }

    /** Copies the storages of another thread-safe array, one key at a time. */
    method MergeFrom(src: seq<(Key, Storage)>, gs: seq<Growth>, ids: nat -> nat, overwrite: bool)
      requires |gs| == |src|
      modifies this, shared
      ensures (shared.Props(), View()) == Store.Merge(old(shared.Props()), old(View()), src, gs, ids, overwrite)
    {
      ghost var p, c := shared.Props(), View();
      var stale := false;
      for n := 0 to |src|
        invariant (shared.Props(), View(), stale) == Store.MergeLoop(p, c, src[..n], gs[..n], ids, overwrite)
      {
        var (k, s) := src[n];
        assert src[..n + 1][..n] == src[..n] && gs[..n + 1][..n] == gs[..n];
        var was := Find(shared.table, k);
        if overwrite || was.None? {
          stale := stale || (was.Some? && Store.Cacheable(was.value));
          shared.table := Put(shared.table, k, Store.HardCopy(s, ids(n)), gs[n]);
          cache := cache - {k};
        }
      }
      assert src[..|src|] == src && gs[..|gs|] == gs;
      if stale { BumpModcount(); }
      shared.InvalidateBounds();
    }

    /** Writes the elements of a PHP array one by one, until one cannot be stored. */
    method MergeArray(live: set<Store.Addr>, src: seq<(Key, Value)>, gs: seq<Growth>,
        overwrite: bool) returns (ok: bool)
      requires |gs| == |src|
      modifies this, shared
      ensures (shared.Props(), View(), ok) == StoreMerge.ArrayMerge(old(shared.Props()), old(View()), owner, live,
              src, gs, overwrite)
    {
      hide Store.Write, Store.Finish, Find;
      ghost var p, c := shared.Props(), View();
      ok := true;
      var n := 0;
      while n < |src| && ok
        invariant 0 <= n <= |src|
        invariant (shared.Props(), View(), ok) == StoreMerge.ArrayMerge(p, c, owner, live, src[..n], gs[..n], overwrite)
        decreases |src| - n
      {
        var (k, v) := src[n];
        assert src[..n + 1][..n] == src[..n] && gs[..n + 1][..n] == gs[..n];
        var was := Find(shared.table, k);
        if overwrite || was.None? {
          var tail := WriteLocked(live, Some(k), v, gs[n]);
          Finish(tail);
          ok := v != Store.Unsafe;
        }
        n := n + 1;
      }
      if !ok { StoreMerge.StopsThere(p, c, owner, live, src, gs, overwrite, n); }
      assert src[..|src|] == src && gs[..|gs|] == gs;
    }

    /** Fills the object's own property table; what was added must not be taken for cached values. */
    method ToOwnTable(live: set<Store.Addr>, restored: map<Key, Value>)
      requires forall k :: Find(shared.table, k).Some? ==> k in restored
      modifies this
      ensures View() == Store.ToOwnTable(shared.Props(), old(View()), owner, live, restored)
    {
      SyncLocalProperties(live);
      ghost var d := View();
      hide Store.Sync;
      var slots := shared.table.slots;
      FilledIs(shared.table, d.cache, restored);
      hasTable := true;
      var changed := false;
      for i := 0 to |slots|
        invariant synced == d.synced && hasTable
        invariant cache == Filled(d.cache, slots, i, restored) && changed == (cache.Keys != d.cache.Keys)
      {
        var slot := slots[i];
        FilledGrows(shared.table, d.cache, restored, i);
        if slot.Live? && slot.key !in cache {
          cache := cache[slot.key := restored[slot.key]];
          changed := true;
        }
      }
      if changed { synced := shared.modcount - 1; }
    }
  }

  /** The table after the first `n` slots: keys it lacks get the restored value. */
  function Filled(cache: map<Key, Value>, slots: seq<Slot<Storage>>, n: nat, restored: map<Key, Value>): map<Key, Value>
    requires n <= |slots|
  {
    if n == 0 then cache
    else
      var m, slot := Filled(cache, slots, n - 1, restored), slots[n - 1];
      if slot.Live? && slot.key !in m && slot.key in restored then m[slot.key := restored[slot.key]] else m
  }

  lemma {:induction false} FilledFacts(cache: map<Key, Value>, slots: seq<Slot<Storage>>, n: nat, restored: map<Key,
      Value>)
    requires n <= |slots|
    ensures var m := Filled(cache, slots, n, restored);
            && (forall k :: k in m <==> k in cache || (Among(slots, n, k) && k in restored))
            && (forall k | k in m :: if k in cache then m[k] == cache[k] else k in restored && m[k] == restored[k])
  {
    if n > 0 { FilledFacts(cache, slots, n - 1, restored); }
  }

  lemma FilledGrows(t: Table<Storage>, cache: map<Key, Value>, restored: map<Key, Value>, i: nat)
    requires i < |t.slots| && forall k :: Find(t, k).Some? ==> k in restored
    ensures t.slots[i].Live? ==> t.slots[i].key in restored
    ensures cache.Keys <= Filled(cache, t.slots, i, restored).Keys
  {
    FilledFacts(cache, t.slots, i, restored);
    if t.slots[i].Live? {
      FoundIff(t, t.slots[i].key);
      assert Holds(t.slots[i], t.slots[i].key);
    }
  }

  lemma FilledIs(t: Table<Storage>, cache: map<Key, Value>, restored: map<Key, Value>)
    requires forall k :: Find(t, k).Some? ==> k in restored
    ensures var junk := map k | k in restored && Find(t, k).Some? && k !in cache :: restored[k];
            var m := Filled(cache, t.slots, |t.slots|, restored);
            m == cache + junk && (m.Keys == cache.Keys <==> junk == map[])
  {
    var junk := map k | k in restored && Find(t, k).Some? && k !in cache :: restored[k];
    var m := Filled(cache, t.slots, |t.slots|, restored);
    FilledFacts(cache, t.slots, |t.slots|, restored);
    forall k ensures Among(t.slots, |t.slots|, k) <==> Find(t, k).Some? { FoundIff(t, k); }
    hide Filled, Among, Find;
    assert m.Keys == cache.Keys + junk.Keys;
    assert m == cache + junk;
    if m.Keys == cache.Keys { assert junk.Keys == {}; }
  }

  /** One of the first `n` slots holds `k`. */
  predicate Among(slots: seq<Slot<Storage>>, n: nat, k: Key)
    requires n <= |slots|
  {
    exists j :: 0 <= j < n && Holds(slots[j], k)
  }

  lemma FoundIff(t: Table<Storage>, k: Key)
    ensures Among(t.slots, |t.slots|, k) <==> Find(t, k).Some?
  {
    IndexOfFirst(t.slots, k);
  }
}
