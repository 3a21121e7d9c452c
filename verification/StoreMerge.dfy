/**
  The two ways pmmpthread_store_merge fills a thread-safe array (src/store.c): from a
  PHP array by repeated writes, and from another thread-safe array by copying storages.
  */
module StoreMerge {
  import opened Options
  import opened ZendHash
  import opened Store
  import opened StoreBounds

  /** The array path: one keyed write per element; a value that cannot be stored ends it. */
  function ArrayMerge(p: Props, c: Conn, t: Thread, live: set<Addr>, src: seq<(Key, Value)>, gs: seq<Growth>,
      overwrite: bool)
    : (Props, Conn, bool)
    requires |gs| == |src|
  {
    if src == [] then (p, c, true)
    else
      var n := |src| - 1;
      var (q, d, ok) := ArrayMerge(p, c, t, live, src[..n], gs[..n], overwrite);
      var (k, v) := src[n];
      if !ok || Skips(q, k, overwrite) then (q, d, ok)
      else
        var o := Write(q, d, t, live, Some(k), v, gs[n]);
        (o.props, Finish(o.conn, o.tail), v != Unsafe)
  }

  /** Once a value could not be stored nothing after it is written. */
  lemma {:induction false} StopsThere(p: Props, c: Conn, t: Thread, live: set<Addr>, src: seq<(Key, Value)>,
      gs: seq<Growth>, overwrite: bool, n: nat)
    requires |gs| == |src| && n <= |src|
    requires !ArrayMerge(p, c, t, live, src[..n], gs[..n], overwrite).2
    ensures ArrayMerge(p, c, t, live, src, gs, overwrite) == ArrayMerge(p, c, t, live, src[..n], gs[..n], overwrite)
    decreases |src| - n
  {
    if n == |src| {
      assert src[..n] == src && gs[..n] == gs;
    } else {
      assert src[..n + 1][..n] == src[..n] && gs[..n + 1][..n] == gs[..n];
      StopsThere(p, c, t, live, src, gs, overwrite, n + 1);
    }
  }

  /** The same keys in the same order, holding storages that mean the same. */
  predicate SameOrdered(l: OrderedMap<Storage>, m: OrderedMap<Storage>) {
    |l| == |m| && forall i :: 0 <= i < |l| ==> l[i].0 == m[i].0 && SameMeaning(l[i].1, m[i].1)
  }

  /** A PHP array and a thread-safe array with the same keys, order and values. */
  predicate SameSource(a: seq<(Key, Value)>, b: seq<(Key, Storage)>) {
    |a| == |b| && forall i :: 0 <= i < |a| ==> a[i].0 == b[i].0 && Storable(a[i].0) && Denotes(a[i].1, b[i].1)
  }

  lemma MeaningRefl(s: Storage)
    ensures SameMeaning(s, s)
  {
  }

  lemma CopyMeaning(s: Storage, id: nat)
    ensures SameMeaning(s, HardCopy(s, id))
  {
  }

  /** What a write stores and what a merge copies mean the same when their sources do. */
  lemma SavedMeaning(v: Value, s: Storage, t: Thread, id: nat)
    requires Denotes(v, s)
    ensures Save(v, t).Some? && SameMeaning(Save(v, t).value, HardCopy(s, id))
  {
  }

  lemma {:induction false} SetSame(l: OrderedMap<Storage>, m: OrderedMap<Storage>, k: Key, s: Storage, r: Storage)
    requires SameOrdered(l, m) && SameMeaning(s, r)
    ensures SameOrdered(Set(l, k, s), Set(m, k, r))
  {
    if l != [] && l[0].0 != k {
      SetSame(l[1..], m[1..], k, s, r);
      SameCons(l[0], m[0], Set(l[1..], k, s), Set(m[1..], k, r));
    } else if l != [] {
      SameCons((k, s), (k, r), l[1..], m[1..]);
    }
  }

  lemma SameCons(x: (Key, Storage), y: (Key, Storage), l: OrderedMap<Storage>, m: OrderedMap<Storage>)
    requires SameOrdered(l, m) && x.0 == y.0 && SameMeaning(x.1, y.1)
    ensures SameOrdered([x] + l, [y] + m)
  {
    hide SameMeaning;
  }

  lemma {:induction false} GetSame(l: OrderedMap<Storage>, m: OrderedMap<Storage>, k: Key)
    requires SameOrdered(l, m)
    ensures Get(l, k).Some? <==> Get(m, k).Some?
  {
    if l != [] { GetSame(l[1..], m[1..], k); }
  }

  lemma WriteItems(p: Props, c: Conn, t: Thread, live: set<Addr>, k: Key, v: Value, g: Growth)
    requires Save(v, t).Some?
    ensures Contents(Write(p, c, t, live, Some(k), v, g).props) == Set(Contents(p), k, Save(v, t).value)
  {
    PutItems(p.table, k, Save(v, t).value, g);
  }

  /** The two paths agree: the same ordered map, whatever the engine does when the tables grow. */
  lemma {:induction false} MergesAgree(p: Props, c: Conn, t: Thread, live: set<Addr>, a: seq<(Key, Value)>,
                                       b: seq<(Key, Storage)>, ga: seq<Growth>, gb: seq<Growth>, ids: nat -> nat,
                                         overwrite: bool)
    requires SameSource(a, b) && |ga| == |a| && |gb| == |b|
    ensures var x, y := ArrayMerge(p, c, t, live, a, ga, overwrite), Merge(p, c, b, gb, ids, overwrite);
            x.2 && SameOrdered(Contents(x.0), Contents(y.0))
    ensures SameOrdered(Contents(ArrayMerge(p, c, t, live, a, ga, overwrite).0), Contents(MergeLoop(p, c, b, gb, ids,
            overwrite).0))
  {
    if a == [] {
      forall i | 0 <= i < |Contents(p)| ensures SameMeaning(Contents(p)[i].1,
        Contents(p)[i].1) { MeaningRefl(Contents(p)[i].1); }
    } else {
      var n := |a| - 1;
      MergesAgree(p, c, t, live, a[..n], b[..n], ga[..n], gb[..n], ids, overwrite);
      var (q, d, ok) := ArrayMerge(p, c, t, live, a[..n], ga[..n], overwrite);
      var (r, e, stale) := MergeLoop(p, c, b[..n], gb[..n], ids, overwrite);
      var k, v, s := a[n].0, a[n].1, b[n].1;
      FindIsGet(q.table, k);
      FindIsGet(r.table, k);
      GetSame(Contents(q), Contents(r), k);
      if !Skips(q, k, overwrite) {
        SavedMeaning(v, s, t, ids(n));
        WriteItems(q, d, t, live, k, v, ga[n]);
        PutItems(r.table, k, HardCopy(s, ids(n)), gb[n]);
        SetSame(Contents(q), Contents(r), k, Save(v, t).value, HardCopy(s, ids(n)));
      }
    }
  }

  /**
    The merged map is right-biased with overwrite and left-biased without: a key gets the
    source's value exactly if the source has it and overwriting is allowed or needed.
    */
  lemma {:induction false} MergeBias(p: Props, c: Conn, src: seq<(Key, Storage)>, gs: seq<Growth>, ids: nat -> nat,
      overwrite: bool, k: Key)
    requires |gs| == |src| && Distinct(src)
    ensures var held, given := Find(Merge(p, c, src, gs, ids, overwrite).0.table, k), Get(src, k);
            if given.Some? && (overwrite || Find(p.table, k).None?)
            then held.Some? && SameMeaning(given.value, held.value)
            else held == Find(p.table, k)
  {
    if src != [] {
      var n := |src| - 1;
      MergeBias(p, c, src[..n], gs[..n], ids, overwrite, k);
      var (q, d, stale) := MergeLoop(p, c, src[..n], gs[..n], ids, overwrite);
      var (j, s) := src[n];
      assert src == src[..n] + [src[n]];
      GetSplit(src[..n], [src[n]], k);
      GetNone(src[..n], j);
      assert Get([src[n]][1..], k).None?;
      FindPut(q.table, j, HardCopy(s, ids(n)), gs[n], k);
      CopyMeaning(s, ids(n));
    }
  }

  // ---------------------------------------------------------------- where the array path stops

  /** One of the first `i` elements has the key. */
  predicate Earlier<T>(src: seq<(Key, T)>, i: nat, k: Key)
    requires i <= |src|
  {
    exists j :: 0 <= j < i && src[j].0 == k
  }

  /** The element is passed over: without overwriting, the key was there or came earlier. */
  predicate Passed<T>(p: Props, src: seq<(Key, T)>, i: nat, overwrite: bool)
    requires i < |src|
  {
    !overwrite && (Find(p.table, src[i].0).Some? || Earlier(src, i, src[i].0))
  }

  /** The element cannot be stored and is not passed over. */
  predicate Blocks(p: Props, src: seq<(Key, Value)>, i: nat, overwrite: bool)
    requires i < |src|
  {
    !Passed(p, src, i, overwrite) && src[i].1 == Unsafe
  }

  lemma EarlierInPrefix<T>(src: seq<(Key, T)>, n: nat, i: nat, k: Key)
    requires i <= n <= |src|
    ensures Earlier(src[..n], i, k) <==> Earlier(src, i, k)
  {
    if Earlier(src, i, k) { var j :| 0 <= j < i && src[j].0 == k; assert src[..n][j].0 == k; }
  }

  lemma EarlierNext<T>(src: seq<(Key, T)>, i: nat, k: Key)
    requires i < |src|
    ensures Earlier(src, i + 1, k) <==> Earlier(src, i, k) || src[i].0 == k
  {
  }

  /** While nothing has blocked, the keys are those of the object and of the elements so far. */
  lemma {:induction false} KeysAfter(p: Props, c: Conn, t: Thread, live: set<Addr>, src: seq<(Key, Value)>,
                                     gs: seq<Growth>, overwrite: bool, k: Key)
    requires |gs| == |src| && ArrayMerge(p, c, t, live, src, gs, overwrite).2
    ensures Find(ArrayMerge(p, c, t, live, src, gs, overwrite).0.table, k).Some? <==>
              Find(p.table, k).Some? || Earlier(src, |src|, k)
  {
    if src != [] {
      var n := |src| - 1;
      var (q, d, ok) := ArrayMerge(p, c, t, live, src[..n], gs[..n], overwrite);
      var (j, v) := src[n];
      assert ok;
      KeysAfter(p, c, t, live, src[..n], gs[..n], overwrite, k);
      EarlierInPrefix(src, n, n, k);
      EarlierNext(src, n, k);
      hide Find, Earlier;
      if !Skips(q, j, overwrite) { WriteFinds(q, d, t, live, j, v, gs[n], k); }
    }
  }

  lemma WriteFinds(p: Props, c: Conn, t: Thread, live: set<Addr>, j: Key, v: Value, g: Growth, k: Key)
    ensures v != Unsafe ==>
              (Find(Write(p, c, t, live, Some(j), v, g).props.table, k).Some? <==> Find(p.table, k).Some? || k == j)
  {
    if v != Unsafe { FindPut(p.table, j, Save(v, t).value, g, k); }
  }

  /** So the loop skips exactly the elements that are to be passed over. */
  lemma SkipsIsPassed(p: Props, c: Conn, t: Thread, live: set<Addr>, src: seq<(Key, Value)>,
                      gs: seq<Growth>, overwrite: bool, n: nat)
    requires |gs| == |src| && n < |src| && ArrayMerge(p, c, t, live, src[..n], gs[..n], overwrite).2
    ensures Skips(ArrayMerge(p, c, t, live, src[..n], gs[..n], overwrite).0, src[n].0, overwrite)
       <==> Passed(p, src, n, overwrite)
  {
    KeysAfter(p, c, t, live, src[..n], gs[..n], overwrite, src[n].0);
    EarlierInPrefix(src, n, n, src[n].0);
  }

  /** The array path succeeds if and only if no element blocks it. */
  lemma {:induction false} ArrayMergeSucceedsIff(p: Props, c: Conn, t: Thread, live: set<Addr>,
                                                 src: seq<(Key, Value)>, gs: seq<Growth>, overwrite: bool)
    requires |gs| == |src|
    ensures ArrayMerge(p, c, t, live, src, gs, overwrite).2 <==>
              forall i :: 0 <= i < |src| ==> !Blocks(p, src, i, overwrite)
  {
    if src != [] {
      var n := |src| - 1;
      ArrayMergeSucceedsIff(p, c, t, live, src[..n], gs[..n], overwrite);
      forall i | 0 <= i < n ensures Blocks(p, src[..n], i, overwrite) <==> Blocks(p, src, i, overwrite) {
        EarlierInPrefix(src, n, i, src[i].0);
      }
      var ok := ArrayMerge(p, c, t, live, src[..n], gs[..n], overwrite).2;
      assert ok <==> forall i :: 0 <= i < n ==> !Blocks(p, src, i, overwrite);
      if ok { SkipsIsPassed(p, c, t, live, src, gs, overwrite, n); }
      assert Blocks(p, src, n, overwrite) <==> !Passed(p, src, n, overwrite) && src[n].1 == Unsafe;
      hide Write, Finish, Skips, Passed, Blocks;
      assert (forall i :: 0 <= i < |src| ==> !Blocks(p, src, i, overwrite)) <==> ok && !Blocks(p, src, n, overwrite);
    }
  }

  /** Otherwise it does what the elements before the first blocking one do, and fails. */
  lemma ArrayMergeStopsAt(p: Props, c: Conn, t: Thread, live: set<Addr>, src: seq<(Key, Value)>,
                          gs: seq<Growth>, overwrite: bool, m: nat)
    requires |gs| == |src| && m < |src| && Blocks(p, src, m, overwrite)
    requires forall i :: 0 <= i < m ==> !Blocks(p, src, i, overwrite)
    ensures var (q, d, ok) := ArrayMerge(p, c, t, live, src[..m], gs[..m], overwrite);
            ok && ArrayMerge(p, c, t, live, src, gs, overwrite) == (q, d, false)
  {
    forall i | 0 <= i < m ensures Blocks(p, src[..m], i, overwrite) <==> Blocks(p, src, i, overwrite) {
      EarlierInPrefix(src, m, i, src[i].0);
    }
    ArrayMergeSucceedsIff(p, c, t, live, src[..m], gs[..m], overwrite);
    SkipsIsPassed(p, c, t, live, src, gs, overwrite, m);
    assert src[..m + 1][..m] == src[..m] && gs[..m + 1][..m] == gs[..m];
    var (q, d, ok) := ArrayMerge(p, c, t, live, src[..m], gs[..m], overwrite);
    assert ArrayMerge(p, c, t, live, src[..m + 1], gs[..m + 1], overwrite) == (q, d, false);
    StopsThere(p, c, t, live, src, gs, overwrite, m + 1);
  }

  // ---------------------------------------------------------------- merging as a fold over plain maps

  /** The merge of another array's pairs into a plain ordered map, each copied to its own allocation. */
  function Folded(l: OrderedMap<Storage>, src: seq<(Key, Storage)>, ids: nat -> nat, overwrite: bool)
    : OrderedMap<Storage>
  {
    if src == [] then l
    else
      var n := |src| - 1;
      var m := Folded(l, src[..n], ids, overwrite);
      if !overwrite && Get(m, src[n].0).Some? then m else Set(m, src[n].0, HardCopy(src[n].1, ids(n)))
  }

  lemma {:induction false} MergeFolds(p: Props, c: Conn, src: seq<(Key, Storage)>, gs: seq<Growth>, ids: nat -> nat,
                                      overwrite: bool)
    requires |gs| == |src|
    ensures Contents(MergeLoop(p, c, src, gs, ids, overwrite).0) == Folded(Contents(p), src, ids, overwrite)
  {
    if src != [] {
      var n := |src| - 1;
      MergeFolds(p, c, src[..n], gs[..n], ids, overwrite);
      var q := MergeLoop(p, c, src[..n], gs[..n], ids, overwrite).0;
      FindIsGet(q.table, src[n].0);
      PutItems(q.table, src[n].0, HardCopy(src[n].1, ids(n)), gs[n]);
      hide Find, Put, Get, Set, Items, HardCopy;
    }
  }

  /** The keys a merge writes. */
  function Written(p: Props, src: seq<(Key, Storage)>, overwrite: bool): set<Key> {
    set i | 0 <= i < |src| && (overwrite || Find(p.table, src[i].0).None?) :: src[i].0
  }

  /** It replaces something cacheable. */
  predicate Replaces(p: Props, src: seq<(Key, Storage)>, overwrite: bool) {
    overwrite && exists i :: 0 <= i < |src| && CacheableAt(p, src[i].0)
  }

  lemma DistinctPrefix(src: seq<(Key, Storage)>, n: nat)
    requires Distinct(src) && n < |src|
    ensures Distinct(src[..n]) && Get(src[..n], src[n].0).None?
  {
    GetNone(src[..n], src[n].0);
  }

  lemma WrittenNext(p: Props, src: seq<(Key, Storage)>, overwrite: bool)
    requires src != []
    ensures var n := |src| - 1; var k := src[n].0;
            && Written(p, src, overwrite)
            == Written(p, src[..n], overwrite) + (if overwrite || Find(p.table, k).None? then {k} else {})
            && (Replaces(p, src, overwrite) <==> Replaces(p, src[..n], overwrite) || (overwrite && CacheableAt(p, k)))
  {
    var n := |src| - 1;
    hide Find, CacheableAt;
    assert forall i :: 0 <= i < n ==> src[..n][i] == src[i];
    if Replaces(p, src, overwrite) {
      var i :| 0 <= i < |src| && CacheableAt(p, src[i].0);
      if i < n { assert CacheableAt(p, src[..n][i].0); }
    }
    if Replaces(p, src[..n], overwrite) {
      var i :| 0 <= i < n && CacheableAt(p, src[..n][i].0);
      assert CacheableAt(p, src[i].0);
    }
  }

  /** A merge drops from the own cache exactly the keys it writes. */
  lemma {:induction false} MergeDrops(p: Props, c: Conn, src: seq<(Key, Storage)>, gs: seq<Growth>, ids: nat -> nat,
                                      overwrite: bool)
    requires |gs| == |src| && Distinct(src)
    ensures var (q, d, stale) := MergeLoop(p, c, src, gs, ids, overwrite);
            && d == c.(cache := c.cache - Written(p, src, overwrite))
            && (stale <==> Replaces(p, src, overwrite)) && q.modcount == p.modcount
  {
    if src == [] {
      assert c.cache - Written(p, src, overwrite) == c.cache;
    } else {
      var n := |src| - 1;
      DistinctPrefix(src, n);
      MergeDrops(p, c, src[..n], gs[..n], ids, overwrite);
      MergeBias(p, c, src[..n], gs[..n], ids, overwrite, src[n].0);
      WrittenNext(p, src, overwrite);
      var (q, d, stale) := MergeLoop(p, c, src[..n], gs[..n], ids, overwrite);
      assert Find(q.table, src[n].0) == Find(p.table, src[n].0);
      var w := Written(p, src[..n], overwrite);
      hide Find, Written, Replaces, HardCopy, Put;
      assert c.cache - w - {src[n].0} == c.cache - (w + {src[n].0});
      assert w + {} == w;
    }
  }
}
