/**
  Who owns the strings of a shared table (src/store.c): in every run each of them is
  permanent, or a persistent copy that was allocated for this table and that no other
  entry shares, or a string in the heap of an attached thread that keeps it alive.
  */
module StoreOwnership {
  import opened Options
  import opened ZendHash
  import opened Store
  import opened StoreBounds
  import opened StoreMachine

  predicate HomeOk(s: Storage, mine: set<nat>) {
    match s
    case SText(z) => z.home.Permanent? || (z.home.Persistent? && z.id in mine)
    case STextPtr(z, owner) => z.home == Heap(owner)
    case _ => true
  }

  predicate HomeAt(p: Props, k: Key, mine: set<nat>) {
    var s := Find(p.table, k);
    s.Some? ==> HomeOk(s.value, mine)
  }

  /** The entry is a copy the table has to free. */
  predicate OwnCopy(p: Props, k: Key) {
    var s := Find(p.table, k);
    s.Some? && s.value.SText? && s.value.z.home.Persistent?
  }

  predicate Apart(p: Props, j: Key, k: Key) {
    j != k && OwnCopy(p, j) && OwnCopy(p, k) ==> Find(p.table, j).value.z.id != Find(p.table, k).value.z.id
  }

  ghost predicate Owned(p: Props, mine: set<nat>) {
    (forall k :: HomeAt(p, k, mine)) && (forall j, k :: Apart(p, j, k))
  }

  // ---------------------------------------------------------------- copies

  /** A copy of a string is a new allocation with the same bytes, unless the string is permanent. */
  lemma CopyIs(s: Storage, id: nat)
    ensures var r := HardCopy(s, id);
            if (s.SText? || s.STextPtr?) && s.z.home.Permanent? then r == SText(s.z)
            else if s.SText? || s.STextPtr? then r == SText(ZStr(id, s.z.text, Persistent))
            else r == s
  {
  }

  /** Persisting gives every string the thread lent an allocation of its own. */
  lemma PersistCopies(p: Props, t: Thread, ids: nat -> nat, k: Key)
    requires Points(p, k, t)
    ensures var z := Find(p.table, k).value.z;
            Find(Persist(p, t, ids).table, k) ==
            Some(SText(if z.home.Permanent? then z else ZStr(ids(IndexOf(p.table.slots, k)), z.text, Persistent)))
  {
    SameIndex(p.table.slots, Persist(p, t, ids).table.slots, k);
  }

  // ---------------------------------------------------------------- the sections

  lemma FewerOwned(p: Props, q: Props, mine: set<nat>)
    requires Owned(p, mine) && forall k :: Find(q.table, k) == None || Find(q.table, k) == Find(p.table, k)
    ensures Owned(q, mine)
  {
    hide Find, HomeOk;
    forall k ensures HomeAt(q, k, mine) { assert HomeAt(p, k, mine); }
    forall j, k ensures Apart(q, j, k) { assert Apart(p, j, k); }
  }

  lemma MoreOwned(p: Props, mine: set<nat>, more: set<nat>)
    requires Owned(p, mine) && mine <= more
    ensures Owned(p, more)
  {
    hide Find;
    forall k ensures HomeAt(p, k, more) { assert HomeAt(p, k, mine); }
  }

  /** Putting in something that is no copy, or a copy nobody has yet. */
  lemma PutOwned(p: Props, q: Props, k: Key, s: Storage, mine: set<nat>)
    requires Owned(p, mine) && forall j :: Find(q.table, j) == if j == k then Some(s) else Find(p.table, j)
    requires (s.STextPtr? ==> s.z.home == Heap(s.owner)) && (s.SText? ==> !s.z.home.Heap?)
    requires s.SText? && s.z.home.Persistent? ==> s.z.id !in mine
    ensures Owned(q, if s.SText? && s.z.home.Persistent? then mine + {s.z.id} else mine)
  {
    var more := if s.SText? && s.z.home.Persistent? then mine + {s.z.id} else mine;
    hide Find;
    forall j ensures HomeAt(q, j, more) { assert HomeAt(p, j, mine); }
    forall i, j ensures Apart(q, i, j) {
      assert Apart(p, i, j) && HomeAt(p, i, mine) && HomeAt(p, j, mine);
    }
  }

  lemma WriteOwned(p: Props, c: Conn, t: Thread, live: set<Addr>, key: Option<Key>, v: Value, g: Growth, mine: set<nat>)
    requires Bounded(p) && (key.Some? ==> Storable(key.value)) && v != Unsafe && Local(v, t) && Owned(p, mine)
    ensures Owned(Write(p, c, t, live, key, v, g).props, mine)
  {
    WriteEvolves(p, c, t, live, key, v, g);
    var s := Save(v, t).value;
    hide Find, Write, Bounded, Owned;
    PutOwned(p, Write(p, c, t, live, key, v, g).props, WriteKey(p, key), s, mine);
  }

  /** What a merge has written after `n` elements belongs to the table, under allocations of its own. */
  lemma {:induction false} MergeOwned(p: Props, c: Conn, src: seq<(Key, Storage)>, gs: seq<Growth>, ids: nat -> nat,
                                      overwrite: bool, mine: set<nat>)
    requires |gs| == |src| && NewIds(ids, |src|, mine) && Owned(p, mine)
    ensures Owned(MergeLoop(p, c, src, gs, ids, overwrite).0, mine + Allocated(ids, |src|))
  {
    hide Owned, Find, HardCopy, Put;
    if src == [] {
      assert mine + Allocated(ids, 0) == mine;
    } else {
      var n := |src| - 1;
      MergeOwned(p, c, src[..n], gs[..n], ids, overwrite, mine);
      var (q, d, stale) := MergeLoop(p, c, src[..n], gs[..n], ids, overwrite);
      var (k, s) := src[n];
      var so := mine + Allocated(ids, n);
      AllocatedNext(ids, n, mine);
      if Skips(q, k, overwrite) {
        MoreOwned(q, so, so + {ids(n)});
      } else {
        var r := HardCopy(s, ids(n));
        var q' := q.(table := Put(q.table, k, r, gs[n]));
        CopyIs(s, ids(n));
        forall j ensures Find(q'.table, j) == if j == k then Some(r) else Find(q.table, j) {
          FindPut(q.table, k, r, gs[n], j);
        }
        PutOwned(q, q', k, r, so);
        MoreOwned(q', if r.SText? && r.z.home.Persistent? then so + {r.z.id} else so, so + {ids(n)});
      }
    }
  }

  lemma AllocatedNext(ids: nat -> nat, n: nat, mine: set<nat>)
    requires NewIds(ids, n + 1, mine)
    ensures mine + Allocated(ids, n + 1) == mine + Allocated(ids, n) + {ids(n)}
    ensures ids(n) !in mine + Allocated(ids, n)
  {
  }

  lemma PersistHome(p: Props, t: Thread, ids: nat -> nat, mine: set<nat>, k: Key)
    requires HomeAt(p, k, mine)
    ensures HomeAt(Persist(p, t, ids), k, mine + Allocated(ids, |p.table.slots|))
    ensures OwnCopy(Persist(p, t, ids), k) ==>
              var i, id := IndexOf(p.table.slots, k), Find(Persist(p, t, ids).table, k).value.z.id;
              && i < |p.table.slots|
              && (if Points(p, k, t) then id == ids(i) else OwnCopy(p, k) && id == Find(p.table, k).value.z.id)
  {
    SameIndex(p.table.slots, Persist(p, t, ids).table.slots, k);
    var i := IndexOf(p.table.slots, k);
    if i < |p.table.slots| { assert ids(i) in Allocated(ids, |p.table.slots|); }
  }

  lemma PersistApart(p: Props, t: Thread, ids: nat -> nat, mine: set<nat>, j: Key, k: Key)
    requires NewIds(ids, |p.table.slots|, mine) && HomeAt(p, j, mine) && HomeAt(p, k, mine) && Apart(p, j, k)
    ensures Apart(Persist(p, t, ids), j, k)
  {
    PersistHome(p, t, ids, mine, j);
    PersistHome(p, t, ids, mine, k);
    if j != k { KeysApart(p.table.slots, j, k); }
    hide Persist, IndexOf;
  }

  lemma KeysApart(s: seq<Slot<Storage>>, j: Key, k: Key)
    requires j != k
    ensures IndexOf(s, j) < |s| ==> IndexOf(s, j) != IndexOf(s, k)
  {
  }

  lemma PersistOwned(p: Props, t: Thread, ids: nat -> nat, mine: set<nat>)
    requires NewIds(ids, |p.table.slots|, mine) && Owned(p, mine)
    ensures Owned(Persist(p, t, ids), mine + Allocated(ids, |p.table.slots|))
  {
    hide Persist, HomeAt, Apart, NewIds, Allocated;
    forall k ensures HomeAt(Persist(p, t, ids), k, mine + Allocated(ids, |p.table.slots|)) {
      PersistHome(p, t, ids, mine, k);
    }
    forall j, k ensures Apart(Persist(p, t, ids), j, k) { PersistApart(p, t, ids, mine, j, k); }
  }

  // ---------------------------------------------------------------- every step, every run

  lemma TakeOwned(p: Props, c: Conn, mine: set<nat>, step: Step)
    requires Bounded(p) && Owned(p, mine) && (step.DoShift? || step.DoPop? || step.DoChunk? || step.DoDelete?)
    ensures var q := if step.DoShift? then Shift(p, c).props else if step.DoPop? then Pop(p, c).props
                     else if step.DoChunk? then Chunk(p, c, step.n).props else Delete(p, c, step.k).props;
            Owned(q, mine)
  {
    hide Owned;
    if step.DoShift? { ShiftFewer(p, c); FewerOwned(p, Shift(p, c).props, mine); }
    else if step.DoPop? { PopFewer(p, c); FewerOwned(p, Pop(p, c).props, mine); }
    else if step.DoChunk? { ChunkFewer(p, c, step.n); FewerOwned(p, Chunk(p, c, step.n).props, mine); }
    else { DeleteFewer(p, c, step.k); FewerOwned(p, Delete(p, c, step.k).props, mine); }
  }

  lemma ShiftFewer(p: Props, c: Conn)
    requires Valid(p.table)
    ensures forall k :: Find(Shift(p, c).props.table, k) == None || Find(Shift(p, c).props.table, k) == Find(p.table, k)
  {
    if Shift(p, c).item.Some? {
      FrontTaken(p, c, FrontPos(p));
      hide Find, RemoveFront;
    }
  }

  lemma PopFewer(p: Props, c: Conn)
    requires Valid(p.table)
    ensures forall k :: Find(Pop(p, c).props.table, k) == None || Find(Pop(p, c).props.table, k) == Find(p.table, k)
  {
    if Pop(p, c).item.Some? {
      var m := RemoveBack(p, c, BackPos(p));
      forall k ensures Find(Del(p.table, m.key), k) == None || Find(Del(p.table, m.key), k) == Find(p.table, k) {
        FindDel(p.table, m.key, k);
      }
      hide Find, Del;
    }
  }

  lemma ChunkFewer(p: Props, c: Conn, n: int)
    requires Valid(p.table)
    ensures var q := Chunk(p, c, n).props;
            forall k :: Find(q.table, k) == None || Find(q.table, k) == Find(p.table, k)
  {
    var touched := ChunkRewrites(p, c, FrontPos(p), n);
    hide Find, ChunkLoop;
  }

  lemma DeleteFewer(p: Props, c: Conn, k: Key)
    requires Valid(p.table)
    ensures var q := Delete(p, c, k).props;
            forall j :: Find(q.table, j) == None || Find(q.table, j) == Find(p.table, j)
  {
    forall j ensures Find(Del(p.table, k), j) == None || Find(Del(p.table, k), j) == Find(p.table, j) {
      FindDel(p.table, k, j);
    }
    hide Find, Del;
  }

  lemma SameTableOwned(p: Props, q: Props, mine: set<nat>)
    requires Owned(p, mine) && q.table == p.table
    ensures Owned(q, mine)
  {
    hide Find, HomeOk;
    FewerOwned(p, q, mine);
  }

  lemma EmptyOwned(mine: set<nat>)
    ensures Owned(EmptyProps(), mine)
  {
  }

  /** Every step of every thread keeps every string of the table owned. */
  lemma StepOwned(s: Sys, step: Step)
    requires Shape(s) && Enabled(s, step) && Owned(s.props, s.mine)
    ensures Owned(Apply(s, step).props, Apply(s, step).mine)
  {
    var p, r := s.props, Apply(s, step);
    assert Bounded(p);
    hide Owned, Bounded, Shape;
    if step.DoWrite? {
      var c := s.peers[step.t].conn;
      hide Write;
      if step.v == Unsafe { UnsafeWrite(p, c, step); SameTableOwned(p, r.props, s.mine); }
      else { WriteOwned(p, c, step.t, s.live, step.key, step.v, step.g, s.mine); }
    } else if step.DoMerge? {
      var c := s.peers[step.t].conn;
      MergeOwned(p, c, step.src, step.gs, step.ids, step.overwrite, s.mine);
      SameTableOwned(MergeLoop(p, c, step.src, step.gs, step.ids, step.overwrite).0, r.props, r.mine);
    } else if step.Detach? {
      if s.peers.Keys == {step.t} { EmptyOwned(r.mine); } else { PersistOwned(p, step.t, step.ids, s.mine); }
    } else if step.DoShift? || step.DoPop? || step.DoChunk? || step.DoDelete? {
      TakeOwned(p, s.peers[step.t].conn, s.mine, step);
      hide Shift, Pop, Chunk, Delete;
    } else {
      SameTableOwned(p, r.props, s.mine);
    }
  }

  lemma UnsafeWrite(p: Props, c: Conn, step: Step)
    requires step.DoWrite? && step.v == Unsafe
    ensures forall t, live :: Write(p, c, t, live, step.key, step.v, step.g) == Outcome(p, c, Nothing)
  {
  }

  lemma {:induction false} RunOwned(states: seq<Sys>, steps: seq<Step>, n: nat)
    requires Run(states, steps) && states[0] == Initial(states[0].live) && n <= |steps|
    ensures Owned(states[n].props, states[n].mine)
  {
    hide Owned, Apply, Enabled;
    if n == 0 {
      EmptyOwned({});
    } else {
      RunSafe(states, steps, n - 1);
      hide Shape, NoDangling;
      RunOwned(states, steps, n - 1);
      StepOwned(states[n - 1], steps[n - 1]);
    }
  }

  /** The thread has the string in its cache, or is about to put it there. */
  predicate KeepsAlive(s: Sys, t: Thread, k: Key, z: ZStr) {
    t in s.peers && k in Settled(s.peers[t]) && Settled(s.peers[t])[k] == Text(z)
  }

  /**
    In every run every string in the table is permanent, or a persistent copy made for this table
    that no other entry shares, or in the heap of an attached thread which keeps it alive under that key.
    */
  lemma EveryStringLives(states: seq<Sys>, steps: seq<Step>, n: nat, k: Key)
    requires Run(states, steps) && states[0] == Initial(states[0].live) && n <= |steps|
    requires var s := Find(states[n].props.table, k); s.Some? && (s.value.SText? || s.value.STextPtr?)
    ensures var s := states[n]; var stored := Find(s.props.table, k).value; var z := stored.z;
            || (stored.SText? && z.home.Permanent?)
            || (stored.SText? && z.home.Persistent? && z.id in s.mine && forall j :: Apart(s.props, j, k))
            || (stored.STextPtr? && z.home == Heap(stored.owner) && KeepsAlive(s, stored.owner, k, z))
  {
    RunSafe(states, steps, n);
    RunOwned(states, steps, n);
    var s := states[n];
    assert HomeAt(s.props, k, s.mine);
    hide Run, Shape, Find;
    if Find(s.props.table, k).value.STextPtr? {
      var t := Find(s.props.table, k).value.owner;
      assert Points(s.props, k, t);
      assert PeerHolds(s.props, t, Settled(s.peers[t]));
    } else {
      forall j ensures Apart(s.props, j, k) {}
    }
  }
}
