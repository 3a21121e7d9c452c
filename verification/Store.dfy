/**
  The shared property store (src/store.c): what a thread-safe object holds, what one
  thread's connection caches, and what each monitor-protected section does to both.
  Work that the code does after it has released the monitor (caching the value that
  was read or written, dropping a deleted key) is kept apart as a `Tail`.
  */
module Store {
  import opened Options
  import opened ZendHash

  type Thread = nat

  /** The address of one connection; a connection never changes its shared object `ts`. */
  datatype Addr = Addr(id: nat, ts: nat)

  /** Where a string lives: for ever, in the heap of one thread, or as an allocation some table owns. */
  datatype Home = Permanent | Heap(t: Thread) | Persistent

  /** A string: its identity, its bytes, and where it lives. */
  datatype ZStr = ZStr(id: nat, text: string, home: Home)

  datatype Scalar = Null | Bool(b: bool) | Long(n: int) | Double(d: real)

  /** A value as a thread sees it. */
  datatype Value =
    | Simple(x: Scalar)
    | Text(z: ZStr)
    | Object(a: Addr)
    | Closure(id: nat, code: nat)
    | EnumCase(cls: string, name: string)
    | Unsafe                                  // resources, arrays, objects that are not thread-safe

  /** A value as the shared table holds it. */
  datatype Storage =
    | SSimple(x: Scalar)
    | SText(z: ZStr)                          // permanent string, or persistent copy
    | STextPtr(z: ZStr, owner: Thread)        // raw pointer into the owner's heap
    | SObject(a: Addr)
    | SClosure(id: nat, code: nat)
    | SEnum(cls: string, name: string)

  datatype Props = Props(table: Table<Storage>, first: Option<nat>, last: Option<nat>, modcount: int)

  /** `hasTable` is false until the engine has built the object's own property table. */
  datatype Conn = Conn(hasTable: bool, cache: map<Key, Value>, synced: int)

  datatype Tail = Nothing | Remember(key: Key, value: Value) | Forget(key: Key)

  // ---------------------------------------------------------------- values and storages

  function Save(v: Value, t: Thread): Option<Storage> {
    match v
    case Simple(x) => Some(SSimple(x))
    case Text(z) => Some(if z.home.Permanent? then SText(z) else STextPtr(z, t))
    case Object(a) => Some(SObject(a))
    case Closure(id, code) => Some(SClosure(id, code))
    case EnumCase(c, n) => Some(SEnum(c, n))
    case Unsafe => None
  }

  predicate Retained(v: Value) { v.Text? || v.Object? || v.Closure? }

  predicate Cacheable(s: Storage) { s.SText? || s.STextPtr? || s.SObject? || s.SClosure? }

  /** The value a storage stands for, by content and not by address. */
  predicate Denotes(v: Value, s: Storage) {
    match s
    case SSimple(x) => v == Simple(x)
    case SText(z) => v.Text? && v.z.text == z.text
    case STextPtr(z, _) => v.Text? && v.z.text == z.text
    case SObject(a) => v.Object? && v.a.ts == a.ts
    case SClosure(_, code) => v.Closure? && v.code == code
    case SEnum(c, n) => v == EnumCase(c, n)
  }

  predicate SameMeaning(s: Storage, r: Storage) {
    match s
    case SText(z) => (r.SText? || r.STextPtr?) && r.z.text == z.text
    case STextPtr(z, _) => (r.SText? || r.STextPtr?) && r.z.text == z.text
    case SObject(a) => r.SObject? && r.a.ts == a.ts
    case SClosure(_, code) => r.SClosure? && r.code == code
    case _ => r == s
  }

  /** A reference to an object whose connection is gone cannot be followed. */
  predicate Broken(s: Storage, live: set<Addr>) { s.SObject? && s.a !in live }

  /** What restoring a storage on thread `t` may yield. */
  predicate Restores(v: Value, s: Storage, t: Thread, live: set<Addr>) {
    if Broken(s, live) then v == Simple(Null)
    else if s.STextPtr? && s.owner == t then v == Text(s.z)
    else Denotes(v, s) && (v.Text? && (s.SText? || s.STextPtr?) ==> RestoredString(v.z, s.z, t))
  }

  /** pmmpthread_store_save_string: a new allocation at `id`, unless the string is permanent. */
  function SavedString(z: ZStr, id: nat): ZStr { if z.home.Permanent? then z else ZStr(id, z.text, Persistent) }

  /** pmmpthread_store_restore_string: what thread `t` may use for a string that is not its own. */
  predicate RestoredString(y: ZStr, z: ZStr, t: Thread) {
    if z.home.Permanent? then y == z else y.text == z.text && y.home == Heap(t)
  }

  /** The copy a merge makes of another object's storage. */
  function HardCopy(s: Storage, id: nat): Storage {
    match s
    case STextPtr(z, _) => SText(SavedString(z, id))
    case SText(z) => SText(SavedString(z, id))
    case _ => s
  }

  // ---------------------------------------------------------------- the cache

  predicate InSync(p: Props, c: Conn) { c.synced == p.modcount }

  /** Whether a sync that meets cached value `v` under storage `s` lets it stay. */
  predicate Keeps(v: Value, s: Storage, t: Thread, live: set<Addr>) {
    match s
    case SObject(a) => v.Object? && (v.a == a || (a in live && v.a.ts == a.ts))
    case SClosure(id, code) => v == Closure(id, code)
    case STextPtr(z, owner) => v.Text? && owner == t && v.z == z
    case _ => false
  }

  predicate Stays(p: Props, c: Conn, k: Key, t: Thread, live: set<Addr>)
    requires k in c.cache
  {
    var s := Find(p.table, k);
    s.Some? && Keeps(c.cache[k], s.value, t, live)
  }

  function Sync(p: Props, c: Conn, t: Thread, live: set<Addr>): Conn {
    if InSync(p, c) then c
    else c.(cache := map k | k in c.cache && Stays(p, c, k, t, live) :: c.cache[k], synced := p.modcount)
  }

  function BumpConn(p: Props, c: Conn): Conn {
    if InSync(p, c) then c.(synced := c.synced + 1) else c
  }

  function BumpProps(p: Props): Props { p.(modcount := p.modcount + 1) }

  function Drop(c: Conn, k: Key): Conn { c.(cache := c.cache - {k}) }

  /** What the thread does once it has released the monitor. */
  function Finish(c: Conn, tail: Tail): Conn {
    match tail
    case Nothing => c
    case Remember(k, v) => if Retained(v) then Conn(true, c.cache[k := v], c.synced) else c
    case Forget(k) => Drop(c, k)
  }

  // ---------------------------------------------------------------- the shared table and its bounds

  function Invalidate(p: Props): Props { p.(first := None, last := None) }

  function Count(p: Props): nat { |Items(p.table.slots)| }

  predicate CacheableAt(p: Props, k: Key) {
    var s := Find(p.table, k);
    s.Some? && Cacheable(s.value)
  }

  function WriteKey(p: Props, key: Option<Key>): Key {
    if key.Some? then key.value else AppendKey(p.table)
  }

  /** The bounds after the table has grown: the rehash guard, then the append or keyed rule. */
  function WriteBounds(p: Props, appended: bool): Props {
    var q := if p.first.Some? && p.first.value != 0 && ValidPos(p.table.slots, 0) < |p.table.slots|
             then Invalidate(p) else p;
    if !appended then Invalidate(q)
    else if q.last.None? then q
    else
      var moved := MoveForward(q.table, q.last.value);
      if moved.Some? then q.(last := moved) else q
  }

  function WriteTable(p: Props, key: Option<Key>, s: Storage, g: Growth): Props {
    WriteBounds(p.(table := Put(p.table, WriteKey(p, key), s, g)), key.None?)
  }

  /** One element taken off at position `pos`, before the modification count is touched. */
  datatype Removal = Removal(props: Props, conn: Conn, pos: nat, key: Key, stored: Storage)

  function RemoveFront(p: Props, c: Conn, pos: nat): Removal
    requires ValidPos(p.table.slots, pos) < |p.table.slots|
  {
    var slot := p.table.slots[ValidPos(p.table.slots, pos)];
    var (q, pos') :=
      if Count(p) == 1 then (Invalidate(p), pos)
      else var next := MoveForward(p.table, pos).value; (p.(first := Some(next)), next);
    Removal(q.(table := Del(p.table, slot.key)), Drop(c, slot.key), pos', slot.key, slot.val)
  }

  function FrontPos(p: Props): nat {
    if p.first.Some? then p.first.value else ValidPos(p.table.slots, 0)
  }

  function RemoveBack(p: Props, c: Conn, pos: nat): Removal
    requires ValidPos(p.table.slots, pos) < |p.table.slots|
  {
    var slot := p.table.slots[ValidPos(p.table.slots, pos)];
    var back := MoveBackward(p.table, pos);
    var q := if Count(p) == 1 then Invalidate(p)
             else p.(last := Some(if back.Some? then back.value else pos));
    Removal(q.(table := Del(p.table, slot.key)), Drop(c, slot.key), pos, slot.key, slot.val)
  }

  function BackPos(p: Props): nat {
    if p.last.Some? then p.last.value else EndPos(p.table)
  }

  // ---------------------------------------------------------------- the monitor-protected sections

  datatype Outcome = Outcome(props: Props, conn: Conn, tail: Tail)
  datatype Taken = Taken(props: Props, conn: Conn, item: Option<(Key, Storage)>)

  function Bumped(p: Props, c: Conn, changed: bool): (Props, Conn) {
    if changed then (BumpProps(p), BumpConn(p, c)) else (p, c)
  }

  /** pmmpthread_store_write; `key` is None for an append. */
  function Write(p: Props, c: Conn, t: Thread, live: set<Addr>, key: Option<Key>, v: Value, g: Growth): Outcome {
    match Save(v, t)
    case None => Outcome(p, c, Nothing)
    case Some(s) =>
      var k := WriteKey(p, key);
      var (q, d) := Bumped(WriteTable(p, key, s, g), c, CacheableAt(p, k));
      Outcome(q, Sync(q, d, t, live), Remember(k, v))
  }

  /** pmmpthread_store_delete. */
  function Delete(p: Props, c: Conn, k: Key): Outcome {
    var (q, d) := Bumped(Invalidate(p.(table := Del(p.table, k))), c, CacheableAt(p, k));
    Outcome(q, d, if Find(p.table, k).Some? then Forget(k) else Nothing)
  }

  /** The value a read finds in the cache, if it finds one. */
  function Hit(p: Props, c: Conn, t: Thread, live: set<Addr>, k: Key): Option<Value> {
    var d := Sync(p, c, t, live);
    if c.hasTable && k in d.cache then Some(d.cache[k]) else None
  }

  /** pmmpthread_store_read, given the value `restored` the engine would rebuild from the table. */
  function Read(p: Props, c: Conn, t: Thread, live: set<Addr>, k: Key, indirect: bool, restored: Value)
    : (Outcome, Option<Value>)
  {
    var d := if c.hasTable then Sync(p, c, t, live) else c;
    var hit, s := Hit(p, c, t, live, k), Find(p.table, k);
    if hit.Some? then (Outcome(p, d, Nothing), hit)
    else if s.None? || (indirect && !s.value.SObject?) then (Outcome(p, d, Nothing), None)
    else (Outcome(p, d, Remember(k, restored)), Some(restored))
  }

  /** pmmpthread_store_shift. */
  function Shift(p: Props, c: Conn): Taken {
    if ValidPos(p.table.slots, FrontPos(p)) < |p.table.slots| then
      var r := RemoveFront(p, c, FrontPos(p));
      var (q, d) := Bumped(r.props, r.conn, Cacheable(r.stored));
      Taken(q, d, Some((r.key, r.stored)))
    else Taken(p, c, None)
  }

  /** pmmpthread_store_pop. */
  function Pop(p: Props, c: Conn): Taken {
    if ValidPos(p.table.slots, BackPos(p)) < |p.table.slots| then
      var r := RemoveBack(p, c, BackPos(p));
      var (q, d) := Bumped(r.props, r.conn, Cacheable(r.stored));
      Taken(q, d, Some((r.key, r.stored)))
    else Taken(p, c, None)
  }

  /** The loop of pmmpthread_store_chunk, with the flag it accumulates. */
  datatype Chunked = Chunked(props: Props, conn: Conn, items: seq<(Key, Storage)>, stale: bool)

  function ChunkLoop(p: Props, c: Conn, pos: nat, n: int): Chunked
    decreases n
  {
    if n <= 0 || ValidPos(p.table.slots, pos) >= |p.table.slots| then Chunked(p, c, [], false)
    else
      var r := RemoveFront(p, c, pos);
      var rest := ChunkLoop(r.props, r.conn, r.pos, n - 1);
      rest.(items := [(r.key, r.stored)] + rest.items, stale := Cacheable(r.stored) || rest.stale)
  }

  /** pmmpthread_store_chunk; a size of zero or less takes nothing. */
  function Chunk(p: Props, c: Conn, n: int): Chunked {
    var r := ChunkLoop(p, c, FrontPos(p), n);
    var (q, d) := Bumped(r.props, r.conn, r.stale);
    r.(props := q, conn := d)
  }

  /** The string pointers thread `t` owns become persistent copies; everything else stays. */
  function PersistSlot(slot: Slot<Storage>, t: Thread, id: nat): Slot<Storage> {
    if slot.Live? && slot.val.STextPtr? && slot.val.owner == t
    then Live(slot.key, HardCopy(slot.val, id)) else slot
  }

  function PersistSlots(s: seq<Slot<Storage>>, t: Thread, ids: nat -> nat): (r: seq<Slot<Storage>>)
    ensures |r| == |s| && forall i :: 0 <= i < |s| ==> r[i] == PersistSlot(s[i], t, ids(i))
  {
    seq(|s|, i requires 0 <= i < |s| => PersistSlot(s[i], t, ids(i)))
  }

  /** pmmpthread_store_persist_local_properties; `ids` are the addresses of the copies. */
  function Persist(p: Props, t: Thread, ids: nat -> nat): Props {
    p.(table := Table(PersistSlots(p.table.slots, t, ids), p.table.nextFree))
  }

  /** Whether a merge leaves an existing key alone. */
  predicate Skips(p: Props, k: Key, overwrite: bool) { !overwrite && Find(p.table, k).Some? }

  /** The loop of a merge from another thread-safe array, with the flag it accumulates. */
  function MergeLoop(p: Props, c: Conn, src: seq<(Key, Storage)>, gs: seq<Growth>, ids: nat -> nat, overwrite: bool)
    : (Props, Conn, bool)
    requires |gs| == |src|
  {
    if src == [] then (p, c, false)
    else
      var n := |src| - 1;
      var (q, d, stale) := MergeLoop(p, c, src[..n], gs[..n], ids, overwrite);
      var (k, s) := src[n];
      if Skips(q, k, overwrite) then (q, d, stale)
      else (q.(table := Put(q.table, k, HardCopy(s, ids(n)), gs[n])), Drop(d, k), stale || CacheableAt(q, k))
  }

  function Merge(p: Props, c: Conn, src: seq<(Key, Storage)>, gs: seq<Growth>, ids: nat -> nat, overwrite: bool)
    : (Props, Conn)
    requires |gs| == |src|
  {
    var (q, d, stale) := MergeLoop(p, c, src, gs, ids, overwrite);
    var (r, e) := Bumped(q, d, stale);
    (Invalidate(r), e)
  }

  /** pmmpthread_store_tohash into another table: the cached value where there is one, else the restored one. */
  function Snapshot(p: Props, d: Conn, restored: map<Key, Value>): map<Key, Value>
    requires forall k :: Find(p.table, k).Some? ==> k in restored
  {
    map k | k in restored && Find(p.table, k).Some? :: if k in d.cache then d.cache[k] else restored[k]
  }

  /** pmmpthread_store_tohash into the object's own property table. */
  function ToOwnTable(p: Props, c: Conn, t: Thread, live: set<Addr>, restored: map<Key, Value>): Conn
    requires forall k :: Find(p.table, k).Some? ==> k in restored
  {
    var d := Sync(p, c, t, live);
    var junk := map k | k in restored && Find(p.table, k).Some? && k !in d.cache :: restored[k];
    Conn(true, d.cache + junk, if junk == map[] then d.synced else p.modcount - 1)
  }

  /** The caching part of pmmpthread_store_full_sync_local_properties for one object. */
  function FullSync(p: Props, c: Conn, t: Thread, live: set<Addr>, restored: map<Key, Value>): Conn
    requires forall k :: Find(p.table, k).Some? ==> k in restored
  {
    var d := Sync(p, c, t, live);
    var missing := map k | k in restored && CacheableAt(p, k) && k !in d.cache :: restored[k];
    Conn(true, d.cache + missing, d.synced)
  }

  /** pmmpthread_store_reset remembers the first position it had to look for. */
  function Reset(p: Props): (Props, Option<nat>) {
    var i := ValidPos(p.table.slots, 0);
    if p.first.Some? then (p, p.first)
    else if i < |p.table.slots| then (p.(first := Some(i)), Some(i))
    else (p, None)
  }

  /** base_ctor leaves a new connection one behind, with an empty cache. */
  function FreshConn(p: Props): Conn { Conn(false, map[], p.modcount - 1) }
}
