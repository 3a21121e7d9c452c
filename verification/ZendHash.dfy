/**
  The engine's ordered hash table, as far as the store relies on it: an array of
  slots where deletion leaves a tombstone, trailing tombstones are trimmed, and an
  insertion goes to the end, possibly after compacting the array (a rehash) or
  leaving a gap (a packed table).  `Items` is the ordered map the table stands for.
  */
module ZendHash {
  import opened Options

  const LONG_MIN: int := -0x8000_0000_0000_0000
  const LONG_MAX: int := 0x7fff_ffff_ffff_ffff

  datatype Key = Index(i: int) | Name(s: string)
  datatype Slot<+V> = Dead | Live(key: Key, val: V)

  /** `nextFree` is the engine's next free integer key, LONG_MIN when none was used yet. */
  datatype Table<+V> = Table(slots: seq<Slot<V>>, nextFree: int)

  /** What the engine is free to do when it adds a slot. */
  datatype Growth = Growth(compact: bool, pad: nat)

  // ---------------------------------------------------------------- plain ordered maps

  type OrderedMap<V> = seq<(Key, V)>

  function Get<V>(l: OrderedMap<V>, k: Key): Option<V> {
    if l == [] then None else if l[0].0 == k then Some(l[0].1) else Get(l[1..], k)
  }

  function Set<V>(l: OrderedMap<V>, k: Key, v: V): OrderedMap<V> {
    if l == [] then [(k, v)]
    else if l[0].0 == k then [(k, v)] + l[1..]
    else [l[0]] + Set(l[1..], k, v)
  }

  function Unset<V>(l: OrderedMap<V>, k: Key): OrderedMap<V> {
    if l == [] then [] else if l[0].0 == k then l[1..] else [l[0]] + Unset(l[1..], k)
  }

  predicate Distinct<V>(l: OrderedMap<V>) {
    forall i, j :: 0 <= i < j < |l| ==> l[i].0 != l[j].0
  }

  lemma {:induction false} GetSplit<V>(a: OrderedMap<V>, b: OrderedMap<V>, k: Key)
    ensures Get(a + b, k) == if Get(a, k).Some? then Get(a, k) else Get(b, k)
  {
    if a == [] { assert a + b == b; } else { assert (a + b)[1..] == a[1..] + b; GetSplit(a[1..], b, k); }
  }

  lemma {:induction false} GetNone<V>(l: OrderedMap<V>, k: Key)
    ensures Get(l, k).None? <==> forall i :: 0 <= i < |l| ==> l[i].0 != k
  {
    if l != [] {
      GetNone(l[1..], k);
      assert forall i :: 0 < i < |l| ==> l[i] == l[1..][i - 1];
      assert forall i :: 0 <= i < |l| - 1 ==> l[1..][i] == l[i + 1];
    }
  }

  /** The three laws of Set and Unset at a known position. */
  lemma {:induction false} SetAt<V>(a: OrderedMap<V>, k: Key, w: V, b: OrderedMap<V>, v: V)
    requires Get(a, k).None?
    ensures Set(a + [(k, w)] + b, k, v) == a + [(k, v)] + b
  {
    var l := a + [(k, w)] + b;
    if a == [] {
      assert l[1..] == b;
    } else {
      assert l[0] == a[0] && l[1..] == a[1..] + [(k, w)] + b;
      SetAt(a[1..], k, w, b, v);
    }
  }

  lemma {:induction false} SetAbsent<V>(l: OrderedMap<V>, k: Key, v: V)
    requires Get(l, k).None?
    ensures Set(l, k, v) == l + [(k, v)]
  {
    if l != [] { SetAbsent(l[1..], k, v); }
  }

  lemma {:induction false} UnsetAt<V>(a: OrderedMap<V>, k: Key, w: V, b: OrderedMap<V>)
    requires Get(a, k).None?
    ensures Unset(a + [(k, w)] + b, k) == a + b
  {
    var l := a + [(k, w)] + b;
    if a == [] {
      assert l[1..] == b && a + b == b;
    } else {
      assert l[0] == a[0] && l[1..] == a[1..] + [(k, w)] + b;
      UnsetAt(a[1..], k, w, b);
    }
  }

  lemma {:induction false} UnsetAbsent<V>(l: OrderedMap<V>, k: Key)
    requires Get(l, k).None?
    ensures Unset(l, k) == l
  {
    if l != [] { UnsetAbsent(l[1..], k); }
  }

  lemma {:induction false} GetSet<V>(l: OrderedMap<V>, k: Key, v: V, j: Key)
    ensures Get(Set(l, k, v), j) == if j == k then Some(v) else Get(l, j)
  {
    if l != [] && l[0].0 != k { GetSet(l[1..], k, v, j); assert Set(l, k, v)[1..] == Set(l[1..], k, v); }
  }

  lemma {:induction false} GetUnset<V>(l: OrderedMap<V>, k: Key, j: Key)
    requires Distinct(l)
    ensures Get(Unset(l, k), j) == if j == k then None else Get(l, j)
  {
    if l != [] {
      if l[0].0 == k {
        GetNone(l[1..], k);
      } else {
        GetUnset(l[1..], k, j);
        assert Unset(l, k)[1..] == Unset(l[1..], k);
      }
    }
  }

  // ---------------------------------------------------------------- slots

  predicate Holds<V>(slot: Slot<V>, k: Key) { slot.Live? && slot.key == k }

  /** The live slots, in table order. */
  function Items<V>(s: seq<Slot<V>>): OrderedMap<V> {
    if s == [] then []
    else if s[0].Dead? then Items(s[1..])
    else [(s[0].key, s[0].val)] + Items(s[1..])
  }

  /** The slot that holds `k`, or the length of the array. */
  function IndexOf<V>(s: seq<Slot<V>>, k: Key): (r: nat)
    ensures r <= |s| && (r < |s| ==> Holds(s[r], k))
  {
    if s == [] then 0 else if Holds(s[0], k) then 0 else 1 + IndexOf(s[1..], k)
  }

  lemma {:induction false} IndexOfFirst<V>(s: seq<Slot<V>>, k: Key)
    ensures forall i :: 0 <= i < IndexOf(s, k) ==> !Holds(s[i], k)
  {
    if s != [] && !Holds(s[0], k) {
      IndexOfFirst(s[1..], k);
      assert forall i :: 0 < i < |s| ==> s[i] == s[1..][i - 1];
    }
  }

  function Compact<V>(s: seq<Slot<V>>): (r: seq<Slot<V>>)
    ensures |r| <= |s|
  {
    if s == [] then [] else if s[0].Dead? then Compact(s[1..]) else [s[0]] + Compact(s[1..])
  }

  function Tombstones<V>(n: nat): (r: seq<Slot<V>>)
    ensures |r| == n && forall i :: 0 <= i < n ==> r[i].Dead?
  {
    if n == 0 then [] else [Dead] + Tombstones(n - 1)
  }

  function Trim<V>(s: seq<Slot<V>>): (r: seq<Slot<V>>)
    ensures |r| <= |s| && (r == [] || r[|r| - 1].Live?)
  {
    if s == [] then [] else if s[|s| - 1].Live? then s else Trim(s[..|s| - 1])
  }

  lemma {:induction false} TrimPrefix<V>(s: seq<Slot<V>>)
    ensures Trim(s) == s[..|Trim(s)|]
    ensures forall i :: |Trim(s)| <= i < |s| ==> s[i].Dead?
  {
    if s != [] && s[|s| - 1].Dead? { TrimPrefix(s[..|s| - 1]); }
  }

  /** Skips forward over tombstones; a position past the end stays where it is. */
  function ValidPos<V>(s: seq<Slot<V>>, p: nat): (r: nat)
    ensures p <= r && (p <= |s| ==> r <= |s|) && (r < |s| ==> s[r].Live?)
    decreases |s| - p
  {
    if p >= |s| || s[p].Live? then p else ValidPos(s, p + 1)
  }

  lemma {:induction false} Skipped<V>(s: seq<Slot<V>>, p: nat)
    ensures forall i :: p <= i < ValidPos(s, p) && i < |s| ==> s[i].Dead?
    decreases |s| - p
  {
    if p < |s| && s[p].Dead? { Skipped(s, p + 1); }
  }

  /** A position skips to the first live slot at or after it, or to the end. */
  lemma {:induction false} SkipTo<V>(s: seq<Slot<V>>, a: nat, b: nat)
    requires a <= b <= |s| && (b < |s| ==> s[b].Live?) && forall i :: a <= i < b ==> s[i].Dead?
    ensures ValidPos(s, a) == b
    decreases b - a
  {
    if a < b { SkipTo(s, a + 1, b); }
  }

  /** The last live slot strictly before `p`, or None. */
  function LastBefore<V>(s: seq<Slot<V>>, p: nat): (r: Option<nat>)
    requires p <= |s|
    ensures r.Some? ==> r.value < p && s[r.value].Live?
  {
    if p == 0 then None else if s[p - 1].Live? then Some(p - 1) else LastBefore(s, p - 1)
  }

  lemma {:induction false} DeadBefore<V>(s: seq<Slot<V>>, p: nat)
    requires p <= |s|
    ensures var r := LastBefore(s, p);
            forall i :: (if r.Some? then r.value + 1 else 0) <= i < p ==> s[i].Dead?
  {
    if p > 0 && s[p - 1].Dead? { DeadBefore(s, p - 1); }
  }

  // ---------------------------------------------------------------- the engine's operations

  function Find<V>(t: Table<V>, k: Key): Option<V> {
    var i := IndexOf(t.slots, k);
    if i < |t.slots| then Some(t.slots[i].val) else None
  }

  function NextFree(nextFree: int, k: Key): int {
    if k.Index? && k.i >= nextFree then (if k.i < LONG_MAX then k.i + 1 else LONG_MAX) else nextFree
  }

  function Insert<V>(t: Table<V>, k: Key, v: V, g: Growth): Table<V> {
    Table((if g.compact then Compact(t.slots) else t.slots) + Tombstones(g.pad) + [Live(k, v)],
          NextFree(t.nextFree, k))
  }

  function Put<V>(t: Table<V>, k: Key, v: V, g: Growth): Table<V> {
    var i := IndexOf(t.slots, k);
    if i < |t.slots| then Table(t.slots[i := Live(k, v)], t.nextFree) else Insert(t, k, v, g)
  }

  function DelAt<V>(t: Table<V>, i: nat): Table<V>
    requires i < |t.slots|
  {
    var s := t.slots[i := Dead];
    Table(if i == |s| - 1 then Trim(s) else s, t.nextFree)
  }

  function Del<V>(t: Table<V>, k: Key): Table<V> {
    var i := IndexOf(t.slots, k);
    if i < |t.slots| then DelAt(t, i) else t
  }

  /** The key an append uses. */
  function AppendKey<V>(t: Table<V>): Key {
    Index(if t.nextFree == LONG_MIN then 0 else t.nextFree)
  }

  function MoveForward<V>(t: Table<V>, p: nat): Option<nat> {
    var i := ValidPos(t.slots, p);
    if i < |t.slots| then Some(ValidPos(t.slots, i + 1)) else None
  }

  function MoveBackward<V>(t: Table<V>, p: nat): Option<nat> {
    if p < |t.slots| then
      var r := LastBefore(t.slots, p);
      Some(if r.Some? then r.value else |t.slots|)
    else None
  }

  function EndPos<V>(t: Table<V>): nat {
    var r := LastBefore(t.slots, |t.slots|);
    if r.Some? then r.value else |t.slots|
  }

  predicate KeyInRange(k: Key, nextFree: int) {
    k.Index? ==> LONG_MIN <= k.i && (k.i < nextFree || k.i == nextFree == LONG_MAX)
  }

  /** Every live slot has a key of its own that the engine could have given it. */
  predicate KeysOk<V>(s: seq<Slot<V>>, nextFree: int) {
    s == [] ||
    ( && KeysOk(s[1..], nextFree)
      && (s[0].Live? ==> KeyInRange(s[0].key, nextFree) && IndexOf(s[1..], s[0].key) == |s| - 1))
  }

  predicate Valid<V>(t: Table<V>) {
    && KeysOk(t.slots, t.nextFree)
    && (t.slots == [] || t.slots[|t.slots| - 1].Live?)
    && LONG_MIN <= t.nextFree <= LONG_MAX
  }

  predicate KeysSpread<V>(s: seq<Slot<V>>, nextFree: int) {
    && (forall i, j :: 0 <= i < j < |s| && s[i].Live? && s[j].Live? ==> s[i].key != s[j].key)
    && (forall i :: 0 <= i < |s| && s[i].Live? ==> KeyInRange(s[i].key, nextFree))
  }

  lemma {:induction false} KeysOkIff<V>(s: seq<Slot<V>>, nextFree: int)
    ensures KeysOk(s, nextFree) <==> KeysSpread(s, nextFree)
  {
    if s != [] {
      KeysOkIff(s[1..], nextFree);
      if s[0].Live? { IndexOfFirst(s[1..], s[0].key); }
      assert forall i :: 0 < i < |s| ==> s[i] == s[1..][i - 1];
      if KeysSpread(s, nextFree) {
        assert forall i :: 0 <= i < |s| - 1 ==> s[1..][i] == s[i + 1];
      }
    }
  }

  /** With distinct keys a live slot is the one its key finds. */
  lemma LiveIndex<V>(t: Table<V>, i: nat)
    requires Valid(t) && i < |t.slots| && t.slots[i].Live?
    ensures IndexOf(t.slots, t.slots[i].key) == i
  {
    KeysOkIff(t.slots, t.nextFree);
    IndexOfFirst(t.slots, t.slots[i].key);
  }

  predicate Storable(k: Key) { k.Index? ==> LONG_MIN <= k.i <= LONG_MAX }

  // ---------------------------------------------------------------- the table is an ordered map

  lemma {:induction false} ItemsConcat<V>(a: seq<Slot<V>>, b: seq<Slot<V>>)
    ensures Items(a + b) == Items(a) + Items(b)
  {
    if a == [] { assert a + b == b; } else { assert (a + b)[1..] == a[1..] + b; ItemsConcat(a[1..], b); }
  }

  lemma {:induction false} ItemsDead<V>(s: seq<Slot<V>>)
    requires forall i :: 0 <= i < |s| ==> s[i].Dead?
    ensures Items(s) == []
  {
    if s != [] { ItemsDead(s[1..]); }
  }

  lemma ItemsHead<V>(s: seq<Slot<V>>)
    requires s != []
    ensures Items(s) == (if s[0].Dead? then [] else [(s[0].key, s[0].val)]) + Items(s[1..])
  {
  }

  lemma ItemsSplit<V>(s: seq<Slot<V>>, i: nat)
    requires i < |s|
    ensures Items(s) == Items(s[..i]) + (if s[i].Dead? then [] else [(s[i].key, s[i].val)]) + Items(s[i + 1..])
  {
    hide Items;
    assert s == s[..i] + s[i..];
    assert s[i..][1..] == s[i + 1..];
    ItemsConcat(s[..i], s[i..]);
    ItemsHead(s[i..]);
  }

  lemma {:induction false} ItemsCompact<V>(s: seq<Slot<V>>)
    ensures Items(Compact(s)) == Items(s)
  {
    if s != [] {
      ItemsCompact(s[1..]);
      if s[0].Live? { assert Compact(s)[1..] == Compact(s[1..]); }
    }
  }

  lemma ItemsTrim<V>(s: seq<Slot<V>>)
    ensures Items(Trim(s)) == Items(s)
  {
    var r := Trim(s);
    TrimPrefix(s);
    assert s == r + s[|r|..];
    ItemsConcat(r, s[|r|..]);
    ItemsDead(s[|r|..]);
  }

  /** Every item sits in a live slot, and before slot `IndexOf` none has the key. */
  lemma {:induction false} ItemsMember<V>(s: seq<Slot<V>>, k: Key)
    requires forall i :: 0 <= i < |s| ==> !Holds(s[i], k)
    ensures Get(Items(s), k).None?
  {
    if s != [] {
      ItemsMember(s[1..], k);
      if s[0].Live? { assert Items(s)[1..] == Items(s[1..]); }
    }
  }

  lemma FindIsGet<V>(t: Table<V>, k: Key)
    ensures Find(t, k) == Get(Items(t.slots), k)
  {
    var s, i := t.slots, IndexOf(t.slots, k);
    IndexOfFirst(s, k);
    if i < |s| {
      ItemsSplit(s, i);
      ItemsMember(s[..i], k);
      GetSplit(Items(s[..i]) + [(k, s[i].val)], Items(s[i + 1..]), k);
      GetSplit(Items(s[..i]), [(k, s[i].val)], k);
    } else {
      ItemsMember(s, k);
    }
  }

  lemma {:induction false} ItemsDistinct<V>(s: seq<Slot<V>>, nextFree: int)
    requires KeysOk(s, nextFree)
    ensures Distinct(Items(s))
  {
    if s != [] {
      ItemsDistinct(s[1..], nextFree);
      if s[0].Live? {
        IndexOfFirst(s[1..], s[0].key);
        ItemsMember(s[1..], s[0].key);
        GetNone(Items(s[1..]), s[0].key);
      }
    }
  }

  lemma InsertItems<V>(t: Table<V>, k: Key, v: V, g: Growth)
    ensures Items(Insert(t, k, v, g).slots) == Items(t.slots) + [(k, v)]
  {
    var base := if g.compact then Compact(t.slots) else t.slots;
    ItemsCompact(t.slots);
    ItemsConcat(base + Tombstones(g.pad), [Live(k, v)]);
    ItemsConcat(base, Tombstones(g.pad));
    ItemsDead<V>(Tombstones(g.pad));
    assert Items([Live(k, v)]) == [(k, v)] + Items<V>([]);
  }

  /** A put on the table, compacting or not, is a set on the ordered map. */
  lemma PutItems<V>(t: Table<V>, k: Key, v: V, g: Growth)
    ensures Items(Put(t, k, v, g).slots) == Set(Items(t.slots), k, v)
  {
    var s, i := t.slots, IndexOf(t.slots, k);
    IndexOfFirst(s, k);
    if i < |s| {
      var s' := s[i := Live(k, v)];
      ItemsSplit(s, i);
      ItemsSplit(s', i);
      assert s'[..i] == s[..i] && s'[i + 1..] == s[i + 1..];
      ItemsMember(s[..i], k);
      SetAt(Items(s[..i]), k, s[i].val, Items(s[i + 1..]), v);
    } else {
      ItemsMember(s, k);
      SetAbsent(Items(s), k, v);
      InsertItems(t, k, v, g);
    }
  }

  /** Deleting a live slot removes exactly its item. */
  lemma DelAtItems<V>(t: Table<V>, i: nat)
    requires i < |t.slots| && t.slots[i].Live?
    ensures Items(DelAt(t, i).slots) == Items(t.slots[..i]) + Items(t.slots[i + 1..])
  {
    hide Items, Trim;
    var s := t.slots[i := Dead];
    ItemsSplit(s, i);
    assert s[..i] == t.slots[..i] && s[i + 1..] == t.slots[i + 1..];
    ItemsTrim(s);
  }

  lemma DelItems<V>(t: Table<V>, k: Key)
    ensures Items(Del(t, k).slots) == Unset(Items(t.slots), k)
  {
    var s, i := t.slots, IndexOf(t.slots, k);
    IndexOfFirst(s, k);
    if i < |s| {
      ItemsSplit(s, i);
      ItemsMember(s[..i], k);
      UnsetAt(Items(s[..i]), k, s[i].val, Items(s[i + 1..]));
      DelAtItems(t, i);
    } else {
      ItemsMember(s, k);
      UnsetAbsent(Items(s), k);
    }
  }

  lemma FindPut<V>(t: Table<V>, k: Key, v: V, g: Growth, j: Key)
    ensures Find(Put(t, k, v, g), j) == if j == k then Some(v) else Find(t, j)
  {
    PutItems(t, k, v, g);
    FindIsGet(Put(t, k, v, g), j);
    FindIsGet(t, j);
    GetSet(Items(t.slots), k, v, j);
  }

  lemma FindDel<V>(t: Table<V>, k: Key, j: Key)
    requires Valid(t)
    ensures Find(Del(t, k), j) == if j == k then None else Find(t, j)
  {
    DelItems(t, k);
    FindIsGet(Del(t, k), j);
    FindIsGet(t, j);
    ItemsDistinct(t.slots, t.nextFree);
    GetUnset(Items(t.slots), k, j);
  }

  // ---------------------------------------------------------------- validity is kept

  lemma {:induction false} CompactSpread<V>(s: seq<Slot<V>>, nextFree: int)
    requires KeysOk(s, nextFree)
    ensures KeysOk(Compact(s), nextFree)
  {
    if s != [] {
      CompactSpread(s[1..], nextFree);
      if s[0].Live? {
        assert Compact(s)[1..] == Compact(s[1..]);
        CompactAbsent(s[1..], s[0].key);
      }
    }
  }

  lemma {:induction false} CompactAbsent<V>(s: seq<Slot<V>>, k: Key)
    ensures IndexOf(s, k) == |s| ==> IndexOf(Compact(s), k) == |Compact(s)|
  {
    if s != [] {
      CompactAbsent(s[1..], k);
      if s[0].Live? { assert Compact(s)[1..] == Compact(s[1..]); }
    }
  }

  /** A larger next free index, a gap and a fresh key at the end keep the keys apart. */
  lemma ExtendKeys<V>(s: seq<Slot<V>>, nextFree: int, k: Key, v: V, pad: nat)
    requires KeysOk(s, nextFree) && IndexOf(s, k) == |s| && Storable(k) && LONG_MIN <= nextFree <= LONG_MAX
    ensures KeysOk(s + Tombstones(pad) + [Live(k, v)], NextFree(nextFree, k))
  {
    hide KeysOk, IndexOf, Tombstones;
    var r := s + Tombstones(pad) + [Live(k, v)];
    KeysOkIff(s, nextFree);
    IndexOfFirst(s, k);
    KeysOkIff(r, NextFree(nextFree, k));
  }

  lemma InsertValid<V>(t: Table<V>, k: Key, v: V, g: Growth)
    requires Valid(t) && Storable(k) && IndexOf(t.slots, k) == |t.slots|
    ensures Valid(Insert(t, k, v, g))
  {
    CompactSpread(t.slots, t.nextFree);
    CompactAbsent(t.slots, k);
    ExtendKeys(if g.compact then Compact(t.slots) else t.slots, t.nextFree, k, v, g.pad);
  }

  lemma PutValid<V>(t: Table<V>, k: Key, v: V, g: Growth)
    requires Valid(t) && Storable(k)
    ensures Valid(Put(t, k, v, g))
  {
    if IndexOf(t.slots, k) == |t.slots| {
      InsertValid(t, k, v, g);
    } else {
      KeysOkIff(t.slots, t.nextFree);
      KeysOkIff(Put(t, k, v, g).slots, t.nextFree);
    }
  }

  lemma DelAtValid<V>(t: Table<V>, i: nat)
    requires Valid(t) && i < |t.slots|
    ensures Valid(DelAt(t, i))
  {
    DelAtPrefix(t, i);
    hide KeysOk, KeysSpread, DelAt;
    var s, r := t.slots, DelAt(t, i).slots;
    KeysOkIff(s, t.nextFree);
    FewerSpread(s, r, i, t.nextFree);
    KeysOkIff(r, t.nextFree);
  }

  /** What a deletion leaves is a prefix of the slots with one of them dead, ending in a live one. */
  lemma DelAtPrefix<V>(t: Table<V>, i: nat)
    requires i < |t.slots| && t.slots[|t.slots| - 1].Live?
    ensures var r := DelAt(t, i).slots;
            && |r| <= |t.slots| && r == t.slots[i := Dead][..|r|] && (r == [] || r[|r| - 1].Live?)
            && DelAt(t, i).nextFree == t.nextFree
  {
    hide Trim;
    TrimPrefix(t.slots[i := Dead]);
  }

  lemma FewerSpread<V>(s: seq<Slot<V>>, r: seq<Slot<V>>, i: nat, nextFree: int)
    requires KeysSpread(s, nextFree) && |r| <= |s| && i < |s| && r == s[i := Dead][..|r|]
    ensures KeysSpread(r, nextFree)
  {
    assert forall j :: 0 <= j < |r| && r[j].Live? ==> r[j] == s[j];
  }

  lemma DelValid<V>(t: Table<V>, k: Key)
    requires Valid(t)
    ensures Valid(Del(t, k))
  {
    if IndexOf(t.slots, k) < |t.slots| { DelAtValid(t, IndexOf(t.slots, k)); }
  }

  lemma AppendKeyStorable<V>(t: Table<V>)
    requires Valid(t)
    ensures Storable(AppendKey(t))
    ensures Find(t, AppendKey(t)).Some? ==> t.nextFree == LONG_MAX
  {
    KeysOkIff(t.slots, t.nextFree);
  }
}
