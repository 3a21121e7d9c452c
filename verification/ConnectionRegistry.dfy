/**
  The tables of src/object.c and src/globals.c, updated in place.  Each method is a
  section under the global lock, or what a thread does before it takes the lock, and is
  proved to be the step of Connections it stands for; all of them keep its invariant.
  */
module ConnectionRegistry {
  import opened Connections

  class Registry {
    var objects: set<Addr>
    var conns: Conns
    var embryos: map<Addr, Thread>
    var act: map<Thread, Act>
    var resolve: Resolve
    var refs: map<Shared, nat>
    var nextAddr: Addr
    var nextShared: Shared

    function View(): State
      reads this
    {
      State(objects, conns, embryos, act, resolve, refs, nextAddr, nextShared)
    }

    constructor ()
      ensures View() == Initial() && Inv(View())
    {
      objects, conns, embryos, act, resolve, refs, nextAddr, nextShared := {}, map[], map[], map[], map[], map[], 0, 0;
      new;
      InitialInv();
    }

    /** An address is listed before its object has been constructed. */
    method ObjectAlloc(t: Thread) returns (a: Addr)
      requires Inv(View()) && Enabled(View(), Alloc(t))
      modifies this
      ensures Inv(View()) && View() == Apply(old(View()), Alloc(t)) && a == old(nextAddr) && a !in old(objects)
    {
      assert nextAddr !in objects;
      hide Inv;
      StepInv(View(), Alloc(t));
      a := nextAddr;
      nextAddr := nextAddr + 1;
      objects := objects + {a};
      embryos, act := embryos[a := t], act[t := Building(a)];
    }

    method ObjectValid(a: Addr) returns (valid: bool)
      ensures valid <==> a in objects
    {
      valid := a in objects;
    }

    method ObjectDelete(a: Addr) returns (deleted: bool)
      modifies this`objects
      ensures objects == old(objects) - {a} && deleted == (a in old(objects))
    {
      deleted := a in objects;
      objects := objects - {a};
    }

    /** The thread's map gets the connection unless it has one for that shared part. */
    method AddResolve(t: Thread, ts: Shared, a: Addr)
      modifies this`resolve
      ensures resolve == Listed(old(resolve), t, ts, a)
    {
      if (t, ts) !in resolve { resolve := resolve[(t, ts) := a]; }
    }

    /** base_ctor of a new object: a shared part of its own, with one reference. */
    method BaseCtor(t: Thread)
      requires Inv(View()) && Enabled(View(), Construct(t))
      modifies this
      ensures Inv(View()) && View() == Apply(old(View()), Construct(t))
    {
      hide Inv;
      StepInv(View(), Construct(t));
      var a, ts := act[t].a, nextShared;
      nextShared := nextShared + 1;
      refs := refs[ts := 1];
      conns, embryos, act := conns[a := Conn(t, ts)], embryos - {a}, act - {t};
      AddResolve(t, ts, a);
    }

    /** base_ctor of a connection to an existing shared part, whose count goes up. */
    method NewConnection(t: Thread, ts: Shared) returns (a: Addr)
      modifies this
      ensures a == old(nextAddr) && nextAddr == a + 1 && objects == old(objects) + {a}
      ensures conns == old(conns)[a := Conn(t, ts)] && refs == More(old(refs), ts)
      ensures resolve == Listed(old(resolve), t, ts, a)
      ensures embryos == old(embryos) && act == old(act) && nextShared == old(nextShared)
    {
      a := nextAddr;
      nextAddr, objects := nextAddr + 1, objects + {a};
      conns := conns[a := Conn(t, ts)];
      refs := refs[ts := (if ts in refs then refs[ts] else 0) + 1];
      AddResolve(t, ts, a);
    }

    /** object_connect: valid exactly if the address is listed; then the caller's one connection. */
    method ObjectConnect(t: Thread, address: Addr) returns (valid: bool, a: Addr)
      requires Inv(View()) && Enabled(View(), Connect(t, address))
      modifies this
      ensures Inv(View()) && View() == Apply(old(View()), Connect(t, address))
      ensures valid <==> address in old(conns)
      ensures valid ==> a in conns && conns[a] == Conn(t, old(conns)[address].ts)
    {
      ghost var before := View();
      hide Inv, More, Listed, Apply, Lookup;
      StepInv(before, Connect(t, address));
      ConnectReaches(before, t, address);
      ListedIsConnected(before, address);
      ConnectFields(before, t, address);
      valid := ObjectValid(address);
      a := address;
      if valid {
        var ts := conns[address].ts;
        if conns[address].owner == t {
        } else if (t, ts) in resolve {
          a := resolve[(t, ts)];
        } else {
          a := NewConnection(t, ts);
        }
      }
    }

    /** base_free before it takes the lock: only the primary connection leaves the thread's map. */
    method BaseFreeBegin(t: Thread, a: Addr)
      requires Inv(View()) && Enabled(View(), FreeBegin(t, a))
      modifies this
      ensures Inv(View()) && View() == Apply(old(View()), FreeBegin(t, a))
    {
      hide Inv;
      StepInv(View(), FreeBegin(t, a));
      var key := (t, conns[a].ts);
      if key in resolve && resolve[key] == a { resolve := resolve - {key}; }
      act := act[t := Retiring(a)];
    }

    /** base_free under the lock: the shared part is freed if and only if this was its last connection. */
    method BaseFreeEnd(t: Thread) returns (freed: bool)
      requires Inv(View()) && Enabled(View(), FreeEnd(t))
      modifies this
      ensures Inv(View()) && View() == Apply(old(View()), FreeEnd(t))
      ensures freed <==> Users(old(conns), old(conns[act[t].a].ts)) == {old(act[t].a)}
    {
      hide Inv, Users, Fewer, Apply;
      ghost var before := View();
      StepInv(before, FreeEnd(t));
      FreedWithTheLast(before, t);
      PositiveCount(before, act[t].a);
      var a := act[t].a;
      freed := Release(conns[a].ts);
      var _ := ObjectDelete(a);
      conns, act := conns - {a}, act - {t};
      FreeEndFields(before, t, View());
    }

    /** One reference less; the shared part goes when none is left. */
    method Release(ts: Shared) returns (freed: bool)
      requires ts in refs && refs[ts] >= 1
      modifies this`refs
      ensures refs == Fewer(old(refs), ts) && freed == (ts !in refs)
    {
      freed := refs[ts] - 1 == 0;
      refs := if freed then refs - {ts} else refs[ts := refs[ts] - 1];
    }
  }

  lemma FreeEndFields(s: State, t: Thread, r: State)
    requires Enabled(s, FreeEnd(t))
    requires var a := s.act[t].a;
             r == s.(objects := s.objects - {a}, conns := s.conns - {a}, act := s.act - {t}, refs := Fewer(s.refs,
               s.conns[a].ts))
    ensures r == Apply(s, FreeEnd(t))
  {
  }

  /** The step, field by field, for each of the four ways it can go. */
  lemma ConnectFields(s: State, t: Thread, address: Addr)
    requires Enabled(s, Connect(t, address)) && (address in s.objects <==> address in s.conns)
    ensures var r, f := Apply(s, Connect(t, address)), Lookup(s, t, address);
            if address !in s.conns then r == s
            else var ts := s.conns[address].ts;
                 if s.conns[address].owner == t then r == s && f == At(address, false)
                 else if (t, ts) in s.resolve then r == s && f == At(s.resolve[(t, ts)], false)
                 else
                   && f == At(s.nextAddr, true)
                   && r == s.(objects := s.objects + {s.nextAddr}, conns := s.conns[s.nextAddr := Conn(t, ts)],
                              resolve := Listed(s.resolve, t, ts, s.nextAddr), refs := More(s.refs, ts),
                                nextAddr := s.nextAddr + 1)
  {
  }

  lemma ListedIsConnected(s: State, a: Addr)
    requires Inv(s) && a !in s.embryos
    ensures a in s.objects <==> a in s.conns
  {
    hide CountsExact, Resolved;
  }

  lemma PositiveCount(s: State, a: Addr)
    requires Inv(s) && a in s.conns
    ensures s.conns[a].ts in s.refs && s.refs[s.conns[a].ts] >= 1
  {
    assert a in Users(s.conns, s.conns[a].ts);
  }
}
