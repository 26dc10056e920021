/** Coroutines: counting them, starting them, resuming them. */
module ReactorCoroutines {
  import opened ByteStrings
  import opened Wire
  import opened Reactor
  import opened ReactorInvariant
  import opened ReactorPrimitives

  // Counting.

  /** Changing one coroutine changes the counts by what it contributed and contributes. */
  lemma {:induction false} CountsUpdate(coros: seq<Coro>, co: nat, k: Coro, i: nat)
    requires co < |coros|
    ensures Unresumed(coros[co := k], i) + (if IsUnresumed(coros[co], i) then 1 else 0)
         == Unresumed(coros, i) + (if IsUnresumed(k, i) then 1 else 0)
    ensures Dropped(coros[co := k], i) + (if IsDropped(coros[co], i) then 1 else 0)
         == Dropped(coros, i) + (if IsDropped(k, i) then 1 else 0)
  {
    var n := |coros| - 1;
    if co == n {
      assert coros[co := k][..n] == coros[..n];
    } else {
      assert coros[co := k][..n] == coros[..n][co := k];
      CountsUpdate(coros[..n], co, k, i);
    }
  }

  lemma {:induction false} CountsAppend(coros: seq<Coro>, more: seq<Coro>, i: nat)
    ensures Unresumed(coros + more, i) == Unresumed(coros, i) + Unresumed(more, i)
    ensures Dropped(coros + more, i) == Dropped(coros, i) + Dropped(more, i)
  {
    if more == [] {
      assert coros + more == coros;
    } else {
      var n := |more| - 1;
      CountsAppend(coros, more[..n], i);
      assert (coros + more)[..|coros + more| - 1] == coros + more[..n];
    }
  }

  lemma {:induction false} SpawnIndex(fd: int, connId: nat, requests: seq<Request>, k: nat)
    requires k < |requests|
    ensures Spawn(fd, connId, requests)[k] == Coro(fd, connId, requests[k], Waiting, None, [])
  {
    if k > 0 {
      SpawnIndex(fd, connId, requests[1..], k - 1);
    }
  }

  lemma {:induction false} AllUnresumed(more: seq<Coro>, connId: nat, i: nat)
    requires forall k :: 0 <= k < |more| ==> more[k].connId == connId && more[k].state.Waiting?
    ensures Unresumed(more, i) == if i == connId then |more| else 0
    ensures Dropped(more, i) == 0
  {
    if more != [] {
      AllUnresumed(more[..|more| - 1], connId, i);
    }
  }

  lemma SpawnCounts(coros: seq<Coro>, fd: int, connId: nat, requests: seq<Request>, i: nat)
    ensures var all := coros + Spawn(fd, connId, requests);
      && Unresumed(all, i) == Unresumed(coros, i) + (if i == connId then |requests| else 0)
      && Dropped(all, i) == Dropped(coros, i)
  {
    forall k | 0 <= k < |requests|
      ensures Spawn(fd, connId, requests)[k] == Coro(fd, connId, requests[k], Waiting, None, [])
    {
      SpawnIndex(fd, connId, requests, k);
    }
    CountsAppend(coros, Spawn(fd, connId, requests), i);
    AllUnresumed(Spawn(fd, connId, requests), connId, i);
  }

  // Dispatch.

  lemma DispatchCoros(s: Server, c: nat, requests: seq<Request>, rest: Bytes)
    requires Tables(s.m) && CorosOk(s) && DeliveryOk(s) && c < |s.m.conns| && c !in s.m.idle
    ensures CorosOk(DispatchAll(s, c, requests, rest)) && DeliveryOk(DispatchAll(s, c, requests, rest))
  {
    var t := DispatchAll(s, c, requests, rest);
    var x, n := s.m.conns[c], |s.p.coros|;
    forall k | 0 <= k < |requests|
      ensures t.p.coros[n + k] == Coro(x.fd, x.connId, requests[k], Waiting, None, [])
    {
      SpawnIndex(x.fd, x.connId, requests, k);
    }
    assert forall co :: n <= co < |t.p.coros| ==>
        t.p.coros[co] == Coro(x.fd, x.connId, requests[co - n], Waiting, None, []);
    assert forall co :: 0 <= co < n ==> t.p.coros[co] == s.p.coros[co];
    assert t.m.idle == s.m.idle && |t.m.conns| == |s.m.conns|;
    assert Due(t.p) == Due(s.p);
  }

  lemma DispatchKeeps(e: Config, s: Server, c: nat, requests: seq<Request>, rest: Bytes)
    requires Base(s) && Others(e, s, c) && c < |s.m.conns| && c !in s.m.idle
    requires CountOk(s.p, s.m.conns[c])
    ensures var t := DispatchAll(s, c, requests, rest);
      Base(t) && Others(e, t, c) && CountOk(t.p, t.m.conns[c])
  {
    var t := DispatchAll(s, c, requests, rest);
    var x := s.m.conns[c];
    DispatchCoros(s, c, requests, rest);
    TouchTables(s.m, s.r, c, t.m.conns[c]);
    BufsFrame(s, t);
    SpawnCounts(s.p.coros, x.fd, x.connId, requests, x.connId);
    forall d | 0 <= d < |t.m.conns| && d != c
      ensures CtxOk(e, t, d)
    {
      assert CtxOk(e, s, d);
      SpawnCounts(s.p.coros, x.fd, x.connId, requests, s.m.conns[d].connId);
    }
  }

  // Resuming.

  /** Marking the first due coroutine resumed. */
  function MarkFirst(s: Server): (t: Server)
    requires s.p.resuming != [] && s.p.resuming[0] < |s.p.coros|
  {
    var co := s.p.resuming[0];
    s.(p := s.p.(resuming := s.p.resuming[1..], coros := s.p.coros[co := s.p.coros[co].(state := Resumed)]))
  }

  lemma MarkReady(s: Server)
    requires ReadyOk(s.p) && s.p.resuming != []
    ensures ReadyOk(MarkFirst(s).p)
  {
    var t := MarkFirst(s);
    var co := s.p.resuming[0];
    assert Due(s.p) == [co] + Due(t.p);
    assert Due(s.p)[0] == co;
    forall k | 0 <= k < |Due(t.p)|
      ensures Due(t.p)[k] == Due(s.p)[k + 1] && Due(t.p)[k] != co
    {
    }
    forall d | 0 <= d < |t.p.coros| && t.p.coros[d].state.Ready?
      ensures d in Due(t.p)
    {
      assert d != co && d in Due(s.p);
    }
  }

  lemma MarkDelivery(s: Server)
    requires ReadyOk(s.p) && DeliveryOk(s) && s.p.resuming != []
    ensures DeliveryOk(MarkFirst(s))
  {
    var t := MarkFirst(s);
    forall i | i in t.delivered
      ensures DeliveredTo(t.p, i, t.delivered[i])
    {
      assert DeliveredTo(s.p, i, s.delivered[i]);
    }
  }

  lemma MarkCoros(s: Server)
    requires CorosOk(s) && DeliveryOk(s) && s.p.resuming != []
    ensures CorosOk(MarkFirst(s)) && DeliveryOk(MarkFirst(s))
  {
    MarkReady(s);
    MarkDelivery(s);
    assert Due(s.p)[0] == s.p.resuming[0];
  }

  /** Marking leaves every context valid except the one, if any, that the coroutine belongs to and whose frame is
      still to be queued. */
  lemma MarkKeeps(e: Config, s: Server, f: int)
    requires Base(s) && Others(e, s, -1) && s.p.resuming != []
    requires var k := s.p.coros[s.p.resuming[0]];
      k.frame != [] ==> forall d :: 0 <= d < |s.m.conns| && d !in s.m.idle && IsActive(s.m, d) && s.m.conns[d].connId == k.connId ==> d == f
    ensures Base(MarkFirst(s)) && Others(e, MarkFirst(s), f)
  {
    var t := MarkFirst(s);
    var co := s.p.resuming[0];
    MarkCoros(s);
    BufsFrame(s, t);
    assert Due(s.p)[0] == co;
    forall d | 0 <= d < |t.m.conns| && d != f
      ensures CtxOk(e, t, d)
    {
      assert CtxOk(e, s, d);
      CountsUpdate(s.p.coros, co, t.p.coros[co], s.m.conns[d].connId);
    }
  }

  /** The queue of context c takes the frame of a coroutine that was just marked. */
  lemma DeliverLog(s: Server, co: nat, i: nat)
    requires DeliveryOk(s) && co < |s.p.coros| && i < s.m.nextId
    requires s.p.coros[co].connId == i && s.p.coros[co].state.Resumed? && s.p.coros[co].frame != []
    requires co !in DeliveredOn(s, i)
    ensures DeliveryOk(s.(delivered := s.delivered[i := DeliveredOn(s, i) + [co]]))
  {
    var t := s.(delivered := s.delivered[i := DeliveredOn(s, i) + [co]]);
    forall j | j in t.delivered
      ensures DeliveredTo(t.p, j, t.delivered[j])
    {
      if j != i {
        assert DeliveredTo(s.p, j, s.delivered[j]);
      } else if i in s.delivered {
        assert DeliveredTo(s.p, i, s.delivered[i]);
      }
    }
  }
}
