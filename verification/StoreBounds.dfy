/**
  The cached positions `first` and `last` of the shared table (src/store.c).  `first`
  never lies, whatever the engine does when it grows the table, so taking elements off
  the front is taking them off a plain ordered map.  `last` can lie; the lemmas say
  exactly which append makes it do so.
  */
module StoreBounds {
  import opened Options
  import opened ZendHash
  import opened Store

  predicate FirstOk(p: Props) {
    p.first.Some? ==> p.first.value < |p.table.slots| && p.first.value == ValidPos(p.table.slots, 0)
  }

  predicate LastOk(p: Props) {
    p.last.Some? ==> p.table.slots != [] && p.last.value == |p.table.slots| - 1
  }

  function Contents(p: Props): OrderedMap<Storage> { Items(p.table.slots) }

  // ---------------------------------------------------------------- positions and items

  /** The first live slot holds the first item, and everything after it the rest. */
  lemma FirstLive(s: seq<Slot<Storage>>)
    ensures var i := ValidPos(s, 0);
            if i < |s| then Items(s) == [(s[i].key, s[i].val)] + Items(s[i + 1..]) else Items(s) == []
  {
    hide ValidPos, Items;
    var i := ValidPos(s, 0);
    Skipped(s, 0);
    ItemsDead(s[..i]);
    if i < |s| {
      ItemsSplit(s, i);
      NothingBefore(Items(s[..i]), [(s[i].key, s[i].val)], Items(s[i + 1..]));
    } else {
      assert s[..i] == s;
    }
  }

  lemma NothingBefore(none: OrderedMap<Storage>, one: OrderedMap<Storage>, rest: OrderedMap<Storage>)
    requires none == []
    ensures none + one + rest == one + rest
  {
    assert none + one == one;
  }

  lemma NonemptyItems(s: seq<Slot<Storage>>, i: nat)
    requires i < |s| && s[i].Live?
    ensures Items(s) != []
  {
    ItemsSplit(s, i);
  }

  lemma EmptyItems(s: seq<Slot<Storage>>)
    requires Items(s) == []
    ensures forall i :: 0 <= i < |s| ==> s[i].Dead?
  {
    forall i | 0 <= i < |s| ensures s[i].Dead? {
      if s[i].Live? { NonemptyItems(s, i); }
    }
  }

  // ---------------------------------------------------------------- shift

  lemma RemoveFrontSound(p: Props, c: Conn)
    requires Valid(p.table) && Contents(p) != []
    ensures ValidPos(p.table.slots, 0) < |p.table.slots|
    ensures var r := RemoveFront(p, c, ValidPos(p.table.slots, 0));
            && (r.key, r.stored) == Contents(p)[0]
            && Contents(r.props) == Contents(p)[1..]
            && Valid(r.props.table)
            && FirstOk(r.props)
            && (Contents(r.props) != [] ==> r.props.first == Some(r.pos) && r.pos == ValidPos(r.props.table.slots, 0))
            && (LastOk(p) ==> LastOk(r.props))
            && r.props.modcount == p.modcount
            && (Contents(r.props) == [] ==> r.props.table.slots == [])
  {
    var s, i := p.table.slots, ValidPos(p.table.slots, 0);
    FirstLive(s);
    if i < |s| {
      assert ValidPos(s, i) == i;
      LiveIndex(p.table, i);
      var r := RemoveFront(p, c, i);
      var s' := r.props.table.slots;
      assert r.props.table == DelAt(p.table, i);
      Skipped(s, 0);
      ItemsDead(s[..i]);
      DelAtItems(p.table, i);
      DelAtValid(p.table, i);
      if Count(p) == 1 {
        EmptyItems(s');
      } else {
        NextLive(s, i);
        FirstLive(s[i := Dead]);
        assert s' == s[i := Dead];
      }
    }
  }

  /** After the first live slot is deleted, the next live slot is the first. */
  lemma NextLive(s: seq<Slot<Storage>>, i: nat)
    requires i == ValidPos(s, 0) < |s|
    ensures ValidPos(s[i := Dead], 0) == ValidPos(s, i + 1)
  {
    Skipped(s, 0);
    Skipped(s, i + 1);
    SkipTo(s[i := Dead], 0, ValidPos(s, i + 1));
  }

  /** `first` is right: a shift removes exactly the oldest element of the ordered map. */
  lemma ShiftRefines(p: Props, c: Conn)
    requires Valid(p.table) && FirstOk(p)
    ensures var r := Shift(p, c);
            && Valid(r.props.table) && FirstOk(r.props) && (LastOk(p) ==> LastOk(r.props))
            && (if Contents(p) == [] then r == Taken(p, c, None)
                else r.item == Some(Contents(p)[0]) && Contents(r.props) == Contents(p)[1..])
  {
    FirstLive(p.table.slots);
    if Contents(p) != [] {
      RemoveFrontSound(p, c);
    }
  }

  /** Iteration starts at the first element, or nowhere if there is none, and `first` stays right. */
  lemma ResetRefines(p: Props)
    requires Valid(p.table) && FirstOk(p)
    ensures var (q, at) := Reset(p);
            && q == p.(first := at) && FirstOk(q) && (at.None? <==> Contents(p) == [])
            && (at.Some? ==> at.value < |p.table.slots| && p.table.slots[at.value].Live?
                             && (p.table.slots[at.value].key, p.table.slots[at.value].val) == Contents(p)[0])
  {
    FirstLive(p.table.slots);
  }

  // ---------------------------------------------------------------- pop

  lemma LastLive(t: Table<Storage>)
    requires Valid(t) && t.slots != []
    ensures EndPos(t) == |t.slots| - 1 && ValidPos(t.slots, |t.slots| - 1) == |t.slots| - 1
    ensures var n := |t.slots| - 1;
            Items(t.slots) == Items(t.slots[..n]) + [(t.slots[n].key, t.slots[n].val)]
  {
    var n := |t.slots| - 1;
    ItemsSplit(t.slots, n);
    assert Items(t.slots[n + 1..]) == [];
  }

  lemma TrimLength(s: seq<Slot<Storage>>, b: nat)
    requires b < |s| && s[b].Live? && forall i :: b < i < |s| ==> s[i].Dead?
    ensures Trim(s) == s[..b + 1]
  {
    TrimPrefix(s);
  }

  lemma FirstInPrefix(s: seq<Slot<Storage>>, n: nat)
    requires 0 < n <= |s| && s[n - 1].Live?
    ensures ValidPos(s, 0) < n && ValidPos(s[..n], 0) == ValidPos(s, 0)
  {
    Skipped(s, 0);
    SkipTo(s[..n], 0, ValidPos(s, 0));
  }

  /** Deleting the last slot of several leaves the table ending at the live slot before it. */
  lemma DeleteLast(t: Table<Storage>)
    requires Valid(t) && |Items(t.slots)| > 1
    ensures var n := |t.slots| - 1; var b := LastBefore(t.slots, n);
            && b.Some? && DelAt(t, n).slots == t.slots[..b.value + 1]
            && ValidPos(t.slots, 0) <= b.value
            && ValidPos(DelAt(t, n).slots, 0) == ValidPos(t.slots, 0)
  {
    var s, n := t.slots, |t.slots| - 1;
    LastLive(t);
    var b := LastBefore(s, n);
    DeadBefore(s, n);
    if b.None? { ItemsDead(s[..n]); assert false; }
    TrimLength(s[n := Dead], b.value);
    FirstInPrefix(s, b.value + 1);
    assert s[n := Dead][..b.value + 1] == s[..b.value + 1];
  }

  /** What a pop does, slot by slot, while `last` is right. */
  lemma PopSlots(p: Props, c: Conn)
    requires Valid(p.table) && LastOk(p) && p.table.slots != []
    ensures var r := Pop(p, c); var s, n := p.table.slots, |p.table.slots| - 1;
            && r.item == Some((s[n].key, s[n].val))
            && r.props.table == DelAt(p.table, n)
            && (if Count(p) == 1 then r.props.first.None? && r.props.last.None?
                else r.props.first == p.first && r.props.last == MoveBackward(p.table, n))
  {
    LastLive(p.table);
    LiveIndex(p.table, |p.table.slots| - 1);
  }

  lemma PopItems(p: Props, c: Conn)
    requires Valid(p.table) && LastOk(p) && p.table.slots != []
    ensures Contents(p) != []
    ensures var r := Pop(p, c); var n := |Contents(p)| - 1;
            Valid(r.props.table) && r.item == Some(Contents(p)[n]) && Contents(r.props) == Contents(p)[..n]
  {
    var s, n := p.table.slots, |p.table.slots| - 1;
    PopSlots(p, c);
    LastLive(p.table);
    DelAtItems(p.table, n);
    DelAtValid(p.table, n);
    assert Items(s[n + 1..]) == [];
  }

  lemma PopBounds(p: Props, c: Conn)
    requires Valid(p.table) && FirstOk(p) && LastOk(p) && p.table.slots != []
    ensures FirstOk(Pop(p, c).props) && LastOk(Pop(p, c).props)
  {
    hide Pop, Items, ValidPos, LastBefore, DelAt, Trim, KeysOk;
    PopSlots(p, c);
    NonemptyItems(p.table.slots, |p.table.slots| - 1);
    var q := Pop(p, c).props;
    if Count(p) > 1 {
      DeleteLast(p.table);
      assert q.table.slots == p.table.slots[..q.last.value + 1];
    }
  }

  /** While `last` is right, a pop removes exactly the newest element of the ordered map. */
  lemma PopRefines(p: Props, c: Conn)
    requires Valid(p.table) && FirstOk(p) && LastOk(p)
    ensures var r := Pop(p, c);
            && Valid(r.props.table) && FirstOk(r.props) && LastOk(r.props)
            && (if Contents(p) == [] then r == Taken(p, c, None)
                else var n := |Contents(p)| - 1;
                     r.item == Some(Contents(p)[n]) && Contents(r.props) == Contents(p)[..n])
  {
    if p.table.slots != [] {
      PopItems(p, c);
      PopBounds(p, c);
    }
  }

  // ---------------------------------------------------------------- writes

  /** `first` survives every write: keyed or appended, compacting, padding or neither. */
  lemma WriteKeepsFirst(p: Props, key: Option<Key>, s: Storage, g: Growth)
    requires Valid(p.table) && FirstOk(p) && (key.Some? ==> Storable(key.value))
    ensures var q := WriteTable(p, key, s, g);
            && Valid(q.table) && FirstOk(q)
            && Contents(q) == Set(Contents(p), WriteKey(p, key), s)
            && q.modcount == p.modcount
  {
    var k := WriteKey(p, key);
    AppendKeyStorable(p.table);
    PutValid(p.table, k, s, g);
    PutItems(p.table, k, s, g);
    var t := Put(p.table, k, s, g);
    if p.first.Some? && p.first.value == 0 {
      assert p.table.slots[0].Live?;
      if IndexOf(p.table.slots, k) == |p.table.slots| {
        assert Compact(p.table.slots)[0] == p.table.slots[0];
      }
      assert t.slots[0].Live?;
    } else if p.first.Some? {
      var i := IndexOf(t.slots, k);
      FindPut(p.table, k, s, g, k);
      assert i < |t.slots| && t.slots[i].Live?;
      Skipped(t.slots, 0);
      assert ValidPos(t.slots, 0) <= i;
    }
  }

  /** The one kind of append that makes `last` point at the wrong place. */
  predicate Misplaces(p: Props, g: Growth) {
    && p.last.Some?
    && !(p.first.Some? && p.first.value != 0)
    && (Find(p.table, AppendKey(p.table)).Some? || (g.compact && Compact(p.table.slots) != p.table.slots))
  }

  lemma {:induction false} CompactShrinks(s: seq<Slot<Storage>>)
    ensures Compact(s) != s <==> exists i :: 0 <= i < |s| && s[i].Dead?
    ensures Compact(s) != s <==> |Compact(s)| < |s|
  {
    if s != [] {
      CompactShrinks(s[1..]);
      if s[0].Live? {
        assert s == [s[0]] + s[1..];
        if i :| 0 <= i < |s[1..]| && s[1..][i].Dead? { assert s[i + 1].Dead?; }
        if i :| 0 <= i < |s| && s[i].Dead? { assert s[1..][i - 1].Dead?; }
      }
    }
  }

  /** Where the old last position leads once the new element is in: to it, unless slots moved. */
  lemma ForwardAfterInsert(t: Table<Storage>, k: Key, s: Storage, g: Growth)
    requires Valid(t) && t.slots != []
    ensures var u := Insert(t, k, s, g); var l, n := |t.slots| - 1, |u.slots|;
            if g.compact && Compact(t.slots) != t.slots
            then MoveForward(u, l) == Some(n) || (MoveForward(u, l) == None && l >= n)
            else MoveForward(u, l) == Some(n - 1)
  {
    var u := Insert(t, k, s, g);
    var l, n := |t.slots| - 1, |u.slots|;
    CompactShrinks(t.slots);
    if g.compact && Compact(t.slots) != t.slots {
      if l < n { SkipTo(u.slots, l, n - 1); }
    } else {
      assert u.slots[l] == t.slots[l];
      SkipTo(u.slots, l + 1, n - 1);
    }
  }

  /** The guard looks and finds the new element at the latest. */
  lemma GuardedAppend(p: Props, s: Storage, g: Growth)
    requires p.first.Some? && p.first.value != 0
    ensures WriteTable(p, None, s, g).last.None?
  {
    var k := AppendKey(p.table);
    var t := Put(p.table, k, s, g);
    FindPut(p.table, k, s, g, k);
    assert IndexOf(t.slots, k) < |t.slots|;
    Skipped(t.slots, 0);
    assert ValidPos(t.slots, 0) <= IndexOf(t.slots, k);
    hide Put, IndexOf, ValidPos;
  }

  /** With no fresh index an element is overwritten in place, and the position runs off the end. */
  lemma ExhaustedAppend(p: Props, s: Storage, g: Growth)
    requires Valid(p.table) && p.table.slots != [] && Find(p.table, AppendKey(p.table)).Some?
    ensures var t := Put(p.table, AppendKey(p.table), s, g);
            |t.slots| == |p.table.slots| && MoveForward(t, |p.table.slots| - 1) == Some(|t.slots|)
  {
    var t := Put(p.table, AppendKey(p.table), s, g);
    var l := |p.table.slots| - 1;
    assert |t.slots| == l + 1 && t.slots[l].Live?;
    hide Put, IndexOf, KeysOk, Find;
    assert ValidPos(t.slots, l) == l;
  }

  /** Otherwise the new slot is inserted. */
  lemma FreshAppend(p: Props, s: Storage, g: Growth)
    requires Find(p.table, AppendKey(p.table)).None?
    ensures Put(p.table, AppendKey(p.table), s, g) == Insert(p.table, AppendKey(p.table), s, g)
    ensures Insert(p.table, AppendKey(p.table), s, g).slots != []
  {
  }

  /** The bounds of an unguarded append in terms of the new table. */
  lemma UnguardedAppend(p: Props, s: Storage, g: Growth)
    requires p.last.Some? && !(p.first.Some? && p.first.value != 0)
    ensures var t := Put(p.table, AppendKey(p.table), s, g); var m := MoveForward(t, p.last.value);
            var q := WriteTable(p, None, s, g);
            q.table == t && q.last == if m.Some? then m else p.last
  {
    hide Put, MoveForward, ValidPos;
  }

  /**
    An append keeps `last` right if and only if it does not meet the one bad case: `last`
    is cached, the rehash guard does not look (`first` is unknown or at slot 0), and the
    engine either moved elements down over dead slots or had no fresh index to give.
    */
  lemma AppendKeepsLastIff(p: Props, s: Storage, g: Growth)
    requires Valid(p.table) && FirstOk(p) && LastOk(p)
    ensures LastOk(WriteTable(p, None, s, g)) <==> !Misplaces(p, g)
  {
    if p.last.None? {
      hide Put, ValidPos, MoveForward;
    } else if p.first.Some? && p.first.value != 0 {
      GuardedAppend(p, s, g);
      hide WriteTable;
    } else {
      hide WriteTable, Put, Insert, MoveForward, ValidPos, Find, Compact, IndexOf, KeysOk;
      UnguardedAppend(p, s, g);
      if Find(p.table, AppendKey(p.table)).Some? {
        ExhaustedAppend(p, s, g);
      } else {
        FreshAppend(p, s, g);
        ForwardAfterInsert(p.table, AppendKey(p.table), s, g);
      }
    }
  }

  // ---------------------------------------------------------------- a misplaced `last`

  /** Right or not, `last` never points before the last slot. */
  predicate LastWeak(p: Props) { p.last.Some? ==> |p.table.slots| <= p.last.value + 1 }

  /** So a pop with a misplaced `last` finds nothing and changes nothing, however full the table is. */
  lemma MisplacedPopFindsNothing(p: Props, c: Conn)
    requires LastWeak(p) && !LastOk(p)
    ensures Pop(p, c) == Taken(p, c, None)
  {
  }

  /** A keyed write puts things right: whatever `last` was, the next pop takes the newest element. */
  lemma KeyedWriteRecovers(p: Props, k: Key, s: Storage, g: Growth, c: Conn)
    requires Valid(p.table) && FirstOk(p) && Storable(k)
    ensures var q := WriteTable(p, Some(k), s, g); var all := Set(Contents(p), k, s); var n := |all| - 1;
            n >= 0 && Pop(q, c).item == Some(all[n]) && Contents(Pop(q, c).props) == all[..n]
  {
    var q := WriteTable(p, Some(k), s, g);
    WriteKeepsFirst(p, Some(k), s, g);
    SetNonempty(Contents(p), k, s);
    assert LastOk(q);
    hide Pop, WriteTable, Set, Contents;
    PopRefines(q, c);
  }

  lemma SetNonempty(l: OrderedMap<Storage>, k: Key, s: Storage)
    ensures Set(l, k, s) != []
  {
  }

  lemma WriteKeepsLastWeak(p: Props, key: Option<Key>, s: Storage, g: Growth)
    requires Valid(p.table) && FirstOk(p) && LastWeak(p)
    ensures LastWeak(WriteTable(p, key, s, g))
  {
    var k := WriteKey(p, key);
    var t := Put(p.table, k, s, g);
    if key.None? && p.last.Some? {
      if Find(p.table, k).None? {
        assert t == Insert(p.table, k, s, g);
        assert forall i :: p.last.value < i < |t.slots| - 1 ==> t.slots[i].Dead?;
      } else {
        assert |t.slots| == |p.table.slots| <= p.last.value + 1;
        assert t.slots[|t.slots| - 1].Live?;
      }
      hide Put, Find, IndexOf, Compact, ValidPos, Tombstones, KeysOk, FirstOk, AppendKey;
      ForwardReaches(t, p.last.value);
    }
  }

  /** From a position with nothing but dead slots between it and the last, the way forward leads to the last. */
  lemma ForwardReaches(t: Table<Storage>, l: nat)
    requires forall i :: l < i < |t.slots| - 1 ==> t.slots[i].Dead?
    requires t.slots != [] && t.slots[|t.slots| - 1].Live?
    ensures var m := MoveForward(t, l); if m.Some? then |t.slots| <= m.value + 1 else |t.slots| <= l
  {
    hide ValidPos;
    Skipped(t.slots, l);
    Skipped(t.slots, ValidPos(t.slots, l) + 1);
  }

  lemma PopKeepsBounds(p: Props, c: Conn)
    requires Valid(p.table) && FirstOk(p) && LastWeak(p)
    ensures var q := Pop(p, c).props; Valid(q.table) && FirstOk(q) && LastWeak(q)
  {
    if LastOk(p) { PopRefines(p, c); } else { MisplacedPopFindsNothing(p, c); }
  }

  lemma RemoveFrontKeepsWeak(p: Props, c: Conn)
    requires Valid(p.table) && FirstOk(p) && LastWeak(p) && Contents(p) != []
    ensures ValidPos(p.table.slots, 0) < |p.table.slots|
    ensures LastWeak(RemoveFront(p, c, ValidPos(p.table.slots, 0)).props)
  {
    RemoveFrontSound(p, c);
  }

  // ---------------------------------------------------------------- chunk is repeated shift

  /** `n` shifts by one connection, and what they took. */
  function Shifts(p: Props, c: Conn, n: int): Chunked
    decreases n
  {
    if n <= 0 || Shift(p, c).item.None? then Chunked(p, c, [], false)
    else
      var r := Shift(p, c);
      var rest := Shifts(r.props, r.conn, n - 1);
      rest.(items := [r.item.value] + rest.items, stale := Cacheable(r.item.value.1) || rest.stale)
  }

  /** Equal except for how far the two modification counts have moved. */
  predicate SameBut(p: Props, q: Props) { q == p.(modcount := q.modcount) }

  predicate SameCache(c: Conn, d: Conn) { c.cache == d.cache && c.hasTable == d.hasTable }

  /** One round of the chunk loop against one shift. */
  lemma OneShift(p: Props, c: Conn, q: Props, d: Conn)
    requires Valid(p.table) && FirstOk(p) && SameBut(p, q) && SameCache(c, d) && Contents(p) != []
    requires d.synced <= q.modcount
    ensures ValidPos(p.table.slots, FrontPos(p)) < |p.table.slots|
    ensures var r, s := RemoveFront(p, c, FrontPos(p)), Shift(q, d);
            && s.item == Some((r.key, r.stored))
            && SameBut(r.props, s.props) && SameCache(r.conn, s.conn)
            && r.props.modcount == p.modcount && r.conn.synced == c.synced
            && s.props.modcount == q.modcount + (if Cacheable(r.stored) then 1 else 0)
            && (InSync(s.props, s.conn) <==> InSync(q, d)) && s.conn.synced <= s.props.modcount
  {
    FirstLive(p.table.slots);
    assert FrontPos(q) == FrontPos(p);
  }

  /** After a round the loop stands where a fresh shift would start, or the table is empty. */
  lemma NextRound(p: Props, c: Conn)
    requires Valid(p.table) && FirstOk(p) && Contents(p) != []
    ensures ValidPos(p.table.slots, FrontPos(p)) < |p.table.slots|
    ensures var r := RemoveFront(p, c, FrontPos(p));
            && Valid(r.props.table) && FirstOk(r.props)
            && (LastWeak(p) ==> LastWeak(r.props)) && (LastOk(p) ==> LastOk(r.props))
            && Contents(p) == [(r.key, r.stored)] + Contents(r.props)
            && (Contents(r.props) == [] ==> r.props.table.slots == [] && r.props.first.None?)
            && (Contents(r.props) != [] ==> FrontPos(r.props) == r.pos)
  {
    RemoveFrontSound(p, c);
    if LastWeak(p) { RemoveFrontKeepsWeak(p, c); }
  }

  /** One round of the chunk loop from any position. */
  lemma UnrollLoop(p: Props, c: Conn, pos: nat, n: int)
    ensures ChunkLoop(p, c, pos, n)
         == if n <= 0 || ValidPos(p.table.slots, pos) >= |p.table.slots| then Chunked(p, c, [], false)
            else var r := RemoveFront(p, c, pos);
                 var rest := ChunkLoop(r.props, r.conn, r.pos, n - 1);
                 rest.(items := [(r.key, r.stored)] + rest.items, stale := Cacheable(r.stored) || rest.stale)
  {
  }

  lemma UnrollChunk(p: Props, c: Conn, n: int)
    requires Valid(p.table) && FirstOk(p) && Contents(p) != [] && n > 0
    ensures ValidPos(p.table.slots, FrontPos(p)) < |p.table.slots|
    ensures var r := RemoveFront(p, c, FrontPos(p));
            var rest := ChunkLoop(r.props, r.conn, FrontPos(r.props), n - 1);
            ChunkLoop(p, c, FrontPos(p), n)
              == rest.(items := [(r.key, r.stored)] + rest.items, stale := Cacheable(r.stored) || rest.stale)
  {
    NextRound(p, c);
  }

  lemma ChunkDone(p: Props, c: Conn, n: int)
    requires FirstOk(p) && (n <= 0 || Contents(p) == [])
    ensures ChunkLoop(p, c, FrontPos(p), n) == Chunked(p, c, [], false)
  {
    FirstLive(p.table.slots);
  }

  lemma UnrollShifts(q: Props, d: Conn, n: int)
    requires Shift(q, d).item.Some? && n > 0
    ensures var r := Shift(q, d);
            var rest := Shifts(r.props, r.conn, n - 1);
            Shifts(q, d, n)
              == rest.(items := [r.item.value] + rest.items, stale := Cacheable(r.item.value.1) || rest.stale)
  {
  }

  lemma ShiftsDone(p: Props, q: Props, d: Conn, n: int)
    requires FirstOk(p) && SameBut(p, q) && (n <= 0 || Contents(p) == [])
    ensures Shifts(q, d, n) == Chunked(q, d, [], false)
  {
    FirstLive(p.table.slots);
  }

  /** The loop of chunk against as many shifts, started from tables that differ in their counts only. */
  lemma {:induction false} LoopIsShifts(p: Props, c: Conn, q: Props, d: Conn, n: int)
    requires Valid(p.table) && FirstOk(p) && SameBut(p, q) && SameCache(c, d) && d.synced <= q.modcount
    ensures var a, b := ChunkLoop(p, c, FrontPos(p), n), Shifts(q, d, n);
            && SameBut(a.props, b.props) && SameCache(a.conn, b.conn) && a.items == b.items && a.stale == b.stale
            && a.props.modcount == p.modcount && a.conn.synced == c.synced
            && b.props.modcount >= q.modcount && (b.props.modcount > q.modcount <==> b.stale)
            && (InSync(b.props, b.conn) <==> InSync(q, d))
    decreases n
  {
    hide *;
    if n <= 0 || Contents(p) == [] {
      ChunkDone(p, c, n);
      ShiftsDone(p, q, d, n);
    } else {
      NextRound(p, c);
      OneShift(p, c, q, d);
      UnrollChunk(p, c, n);
      UnrollShifts(q, d, n);
      var r, s := RemoveFront(p, c, FrontPos(p)), Shift(q, d);
      LoopIsShifts(r.props, r.conn, s.props, s.conn, n - 1);
    }
  }

  lemma {:induction false} ChunkLoopSound(p: Props, c: Conn, n: int)
    requires Valid(p.table) && FirstOk(p)
    ensures var a := ChunkLoop(p, c, FrontPos(p), n);
            && Valid(a.props.table) && FirstOk(a.props)
            && (LastWeak(p) ==> LastWeak(a.props)) && (LastOk(p) ==> LastOk(a.props))
            && Contents(p) == a.items + Contents(a.props)
            && |a.items| == (if n < 0 then 0 else if n < |Contents(p)| then n else |Contents(p)|)
    decreases n
  {
    hide *;
    if n <= 0 || Contents(p) == [] {
      ChunkDone(p, c, n);
    } else {
      NextRound(p, c);
      var r := RemoveFront(p, c, FrontPos(p));
      UnrollChunk(p, c, n);
      ChunkLoopSound(r.props, r.conn, n - 1);
    }
  }

  /**
    chunk(n) is n shifts: the same elements in the same order, the same table and cached
    positions, the same own cache in the same state, and the same other connections made
    stale, although the modification count moves at most once.
    */
  lemma ChunkIsShifts(p: Props, c: Conn, n: int, other: Conn)
    requires Valid(p.table) && FirstOk(p) && c.synced <= p.modcount && other.synced <= p.modcount
    ensures var a, b := Chunk(p, c, n), Shifts(p, c, n);
            && a.items == b.items
            && SameBut(a.props, b.props)
            && SameCache(a.conn, b.conn)
            && (InSync(a.props, a.conn) <==> InSync(b.props, b.conn))
            && (InSync(a.props, other) <==> InSync(b.props, other))
  {
    LoopIsShifts(p, c, p, c, n);
  }

  /** And what it takes is the front of the ordered map, all of it if there is not enough. */
  lemma ChunkTakesFront(p: Props, c: Conn, n: int)
    requires Valid(p.table) && FirstOk(p)
    ensures var a := Chunk(p, c, n); var m := if n < 0 then 0 else if n < |Contents(p)| then n else |Contents(p)|;
            a.items == Contents(p)[..m] && Contents(a.props) == Contents(p)[m..]
  {
    ChunkLoopSound(p, c, n);
  }
}
