/** Taking a completion from the ring and handling it keeps the invariant. */
module ReactorProcess {
  import opened ByteStrings
  import opened Wire
  import opened Connections
  import opened Reactor
  import opened ReactorInvariant
  import opened ReactorPrimitives
  import opened ReactorHandlers

  // A send completes.

  lemma SendTaken(e: Config, x: Context, p: Port, j: nat)
    requires j < |p.sends| && p.sends[j].state.SendDone?
    ensures ActiveOk(e, x, p) ==>
              && RemoveAt(p.sends, j) == [] && x.outQueue != []
              && BetweenSends(e, x.(inflight := x.inflight - 1), p.(sends := []))
    ensures DrainingOk(x, p) ==> p.(sends := RemoveAt(p.sends, j)) == NO_OPS && x.inflight == 1
  {
  }

  /** The state once the loop has taken the completion off: the operation gone, the count lowered. */
  function SendOff(s: Server, c: nat, j: nat): Server
    requires c < |s.m.conns| && j < |PortOf(s.r, c).sends|
  {
    var p, x := PortOf(s.r, c), s.m.conns[c];
    s.(r := s.r.(ports := s.r.ports[c := p.(sends := RemoveAt(p.sends, j))]),
       m := Put(s.m, c, x.(inflight := x.inflight - 1)))
  }

  lemma SendOffKeeps(e: Config, s: Server, c: nat, j: nat)
    requires Settled(e, s) && c < |s.m.conns| && j < |PortOf(s.r, c).sends|
    ensures Base(SendOff(s, c, j)) && Others(e, SendOff(s, c, j), c)
  {
    assert c in s.r.ports;
    TouchKeeps(e, s, SendOff(s, c, j), c);
  }

  lemma ProcessSendKeeps(e: Config, s: Server, c: nat, j: nat)
    requires Settled(e, s) && c < |s.m.conns| && j < |PortOf(s.r, c).sends| && PortOf(s.r, c).sends[j].state.SendDone?
    ensures Settled(e, ProcessSend(e, s, c, j))
  {
    assert CtxOk(e, s, c);
    SendTaken(e, s.m.conns[c], PortOf(s.r, c), j);
    SendOffKeeps(e, s, c, j);
    ProcessSendIs(e, s, c, j);
    if IsActive(s.m, c) {
      HandleSendKeeps(e, SendOff(s, c, j), c, PortOf(s.r, c).sends[j].state.res);
    } else {
      RecycleKeeps(e, SendOff(s, c, j), c);
    }
  }

  lemma ProcessSendIs(e: Config, s: Server, c: nat, j: nat)
    requires Wf(s.m) && c < |s.m.conns| && j < |PortOf(s.r, c).sends| && PortOf(s.r, c).sends[j].state.SendDone?
    ensures var t, x := SendOff(s, c, j), s.m.conns[c];
      ProcessSend(e, s, c, j) ==
      if x.closing && x.inflight == 1 then t.(m := Recycle(t.m, c)) else HandleSend(e, t, c, PortOf(s.r, c).sends[j].state.res)
  {
  }

  // A recv completes.

  lemma RecvTaken(e: Config, s: Server, x: Context, p: Port, j: nat)
    requires BufsOk(s) && j < |p.recvs| && p.recvs[j].state.RecvDone?
    ensures ActiveOk(e, x, p) ==>
              var chunk := ChunkOf(s.r.bufs, p.recvs[j].state);
              && RemoveAt(p.recvs, j) == [] && j == 0 && |p.recvs| == 1
              && |chunk| == (if p.recvs[j].state.res > 0 then p.recvs[j].state.res else 0)
              && BetweenRecvs(e, x.(input := x.input + chunk, inflight := x.inflight - 1), p.(recvs := []), x.input, chunk)
    ensures DrainingOk(x, p) ==> p.(recvs := RemoveAt(p.recvs, j)) == NO_OPS && x.inflight == 1 && |p.recvs| == 1
  {
  }

  /** The operation gone, its bytes copied out unless the connection is closing, its buffer back in the ring. */
  function RecvOff(s: Server, c: nat, j: nat): Server
    requires c < |s.m.conns| && j < |PortOf(s.r, c).recvs| && PortOf(s.r, c).recvs[j].state.RecvDone?
  {
    var p, x := PortOf(s.r, c), s.m.conns[c];
    var done := p.recvs[j].state;
    var input := if x.closing then x.input else x.input + ChunkOf(s.r.bufs, done);
    s.(r := s.r.(ports := s.r.ports[c := p.(recvs := RemoveAt(p.recvs, j))],
                 free := if done.bid.Some? then s.r.free + multiset{done.bid.value} else s.r.free),
       m := Put(s.m, c, x.(input := input, inflight := x.inflight - 1)))
  }

  lemma RecvOffBufs(s: Server, c: nat, j: nat)
    requires BufsOk(s) && c < |s.m.conns| && |PortOf(s.r, c).recvs| == 1 && j == 0 && PortOf(s.r, c).recvs[j].state.RecvDone?
    ensures BufsOk(RecvOff(s, c, j))
  {
    var t := RecvOff(s, c, j);
    assert c in s.r.ports;
    assert RemoveAt(PortOf(s.r, c).recvs, 0) == [];
    assert PortOf(t.r, c).recvs == [];
    forall b: nat | b < BUF_RING_ENTRIES
      ensures t.r.free[b] + Held(t.r, |t.m.conns|, b) == 1
    {
      HeldPut(s.r, t.r, c, |s.m.conns|, b);
      assert Holds(PortOf(s.r, c).recvs, b) == if PortOf(s.r, c).recvs[0].state.bid == Some(b) then 1 else 0;
    }
  }

  lemma RecvOffKeeps(e: Config, s: Server, c: nat, j: nat)
    requires Settled(e, s) && c < |s.m.conns| && j < |PortOf(s.r, c).recvs| && PortOf(s.r, c).recvs[j].state.RecvDone?
    requires |PortOf(s.r, c).recvs| == 1
    ensures Base(RecvOff(s, c, j)) && Others(e, RecvOff(s, c, j), c)
  {
    RecvOffBufs(s, c, j);
    TouchOnlyKeeps(e, s, RecvOff(s, c, j), c);
  }

  lemma ProcessRecvKeeps(e: Config, s: Server, c: nat, j: nat)
    requires Settled(e, s) && c < |s.m.conns| && j < |PortOf(s.r, c).recvs| && PortOf(s.r, c).recvs[j].state.RecvDone?
    ensures var t := ProcessRecv(e, s, c, j); Settled(e, t) && t.p.resuming == s.p.resuming
  {
    var p, x := PortOf(s.r, c), s.m.conns[c];
    var t := RecvOff(s, c, j);
    assert CtxOk(e, s, c);
    RecvTaken(e, s, x, p, j);
    RecvOffKeeps(e, s, c, j);
    ProcessRecvIs(e, s, c, j);
    if IsActive(s.m, c) {
      HandleRecvKeeps(e, t, c, p.recvs[j].state.res, x.input, ChunkOf(s.r.bufs, p.recvs[j].state));
    } else {
      RecycleKeeps(e, t, c);
    }
  }

  lemma PutTwice(m: Manager, c: nat, x: Context, y: Context)
    requires c < |m.conns|
    ensures Put(Put(m, c, x), c, y) == Put(m, c, y)
  {
    assert m.conns[c := x][c := y] == m.conns[c := y];
  }

  lemma PutSame(m: Manager, c: nat)
    requires c < |m.conns|
    ensures Put(m, c, m.conns[c]) == m
  {
    assert m.conns[c := m.conns[c]] == m.conns;
  }

  /** Taking the buffer and lowering the count, in the loop's order, is one change of the context. */
  lemma TakeAndComplete(s: Server, c: nat, j: nat)
    requires c < |s.m.conns| && j < |PortOf(s.r, c).recvs| && PortOf(s.r, c).recvs[j].state.RecvDone?
    requires RecvOk(PortOf(s.r, c).recvs[j])
    ensures var p, t, x := PortOf(s.r, c), RecvOff(s, c, j), s.m.conns[c];
      var s2 := TakeBuffer(s.(r := s.r.(ports := s.r.ports[c := p.(recvs := RemoveAt(p.recvs, j))])), c, p.recvs[j].state);
      && s2.(m := OnComplete(s2.m, c).1) == (if OnComplete(s2.m, c).0 then t.(m := Recycle(t.m, c)) else t)
      && (OnComplete(s2.m, c).0 <==> x.closing && x.inflight == 1)
  {
    var p, x := PortOf(s.r, c), s.m.conns[c];
    var done := p.recvs[j].state;
    var y := if x.closing then x else x.(input := x.input + ChunkOf(s.r.bufs, done));
    assert x.input + [] == x.input;
    PutTwice(s.m, c, y, y.(inflight := x.inflight - 1));
    PutSame(s.m, c);
  }

  lemma ProcessRecvIs(e: Config, s: Server, c: nat, j: nat)
    requires Wf(s.m) && c < |s.m.conns| && j < |PortOf(s.r, c).recvs| && PortOf(s.r, c).recvs[j].state.RecvDone?
    requires RecvOk(PortOf(s.r, c).recvs[j])
    ensures var t, x := RecvOff(s, c, j), s.m.conns[c];
      ProcessRecv(e, s, c, j) ==
      if x.closing && x.inflight == 1 then t.(m := Recycle(t.m, c)) else HandleRecv(e, t, c, PortOf(s.r, c).recvs[j].state.res)
  {
    TakeAndComplete(s, c, j);
  }

  // An accept completes.

  function Arrived(s: Server, fd: int): Server
    requires Wf(s.m)
  {
    s.(r := s.r.(accepts := []), m := Acquire(s.m, fd).1)
  }

  lemma AcquireEffect(m: Manager, fd: int)
    requires Tables(m)
    ensures var (c, t) := Acquire(m, fd);
      && c < |t.conns| && c !in t.idle
      && t.conns[c] == Context(fd, m.nextId, [], [], 0, false, 0, false, 0, false)
      && (forall d :: 0 <= d < |m.conns| && d != c ==> t.conns[d] == m.conns[d] && (d in t.idle <==> d in m.idle))
      && (if m.idle == [] then c == |m.conns| && |t.conns| == c + 1 else c in m.idle && |t.conns| == |m.conns|)
      && t.active == m.active[fd := c] && NoDup(t.idle) && t.os == m.os && t.nextId == m.nextId + 1
  {
    var (c, t) := Acquire(m, fd);
    if m.idle != [] {
      assert m.idle == t.idle + [c];
      assert c == m.idle[|m.idle| - 1] && c in m.idle;
    }
  }

  lemma AcquireTables(m: Manager, fd: int)
    requires Tables(m) && fd !in m.active
    ensures Tables(Acquire(m, fd).1) && IsActive(Acquire(m, fd).1, Acquire(m, fd).0)
  {
    AcquireEffect(m, fd);
    var (c, t) := Acquire(m, fd);
    forall f | f in t.active
      ensures t.active[f] < |t.conns| && t.conns[t.active[f]].fd == f && t.active[f] !in t.idle
    {
      assert f != fd ==> m.active[f] !in m.idle;
    }
    forall d | 0 <= d < |t.conns|
      ensures d == c || (d < |m.conns| && t.conns[d] == m.conns[d])
    {
    }
  }

  lemma AcquireFiles(m: Manager, r: Ring, fd: int)
    requires Tables(m) && FilesOk(m, r) && Arriving(r, fd)
    ensures FilesOk(Acquire(m, fd).1, r.(accepts := []))
  {
    AcquireEffect(m, fd);
    var (c, t) := Acquire(m, fd);
    forall f | f in t.active && f != fd
      ensures t.conns[t.active[f]] == m.conns[m.active[f]]
    {
      assert m.active[f] !in m.idle && m.active[f] < |m.conns|;
    }
  }

  lemma AcquireBufs(s: Server, fd: int)
    requires BufsOk(s) && Tables(s.m) && (s.m.idle == [] ==> |s.m.conns| !in s.r.ports)
    ensures BufsOk(Arrived(s, fd))
  {
    var t := Arrived(s, fd);
    forall b: nat | b < BUF_RING_ENTRIES
      ensures t.r.free[b] + Held(t.r, |t.m.conns|, b) == 1
    {
      HeldFrame(s.r, t.r, |s.m.conns|, b);
      if s.m.idle == [] {
        assert PortOf(t.r, |s.m.conns|) == NO_OPS;
        assert Held(t.r, |t.m.conns|, b) == Held(t.r, |s.m.conns|, b) + Holds([], b);
      }
    }
  }

  lemma AcquireCoros(s: Server, fd: int)
    requires CorosOk(s) && DeliveryOk(s) && Tables(s.m)
    ensures CorosOk(Arrived(s, fd)) && DeliveryOk(Arrived(s, fd))
  {
    AcquireEffect(s.m, fd);
    var t := Arrived(s, fd);
    var c := Acquire(s.m, fd).0;
    forall co, d | 0 <= co < |t.p.coros| && 0 <= d < |t.m.conns| && d !in t.m.idle && t.m.conns[d].connId == t.p.coros[co].connId
      ensures t.m.conns[d].fd == t.p.coros[co].fd
    {
      assert d != c;
    }
  }

  lemma AcquireKeeps(e: Config, s: Server, fd: int)
    requires Settled(e, s) && Arriving(s.r, fd)
    ensures var t := Arrived(s, fd); var c := Acquire(s.m, fd).0;
      && Focused(e, t, c) && c !in t.m.idle && PortOf(t.r, c) == NO_OPS
      && t.m.conns[c] == Context(fd, s.m.nextId, [], [], 0, false, 0, false, 0, false)
  {
    var t := Arrived(s, fd);
    var c := Acquire(s.m, fd).0;
    AcquireEffect(s.m, fd);
    AcquireTables(s.m, fd);
    AcquireFiles(s.m, s.r, fd);
    AcquireBufs(s, fd);
    AcquireCoros(s, fd);
    AcquirePort(e, s, c);
    AcquireOthers(e, s, t, c);
  }

  lemma AcquirePort(e: Config, s: Server, c: nat)
    requires Settled(e, s) && (c in s.m.idle || c == |s.m.conns|)
    ensures PortOf(s.r, c) == NO_OPS
  {
    if c < |s.m.conns| {
      assert CtxOk(e, s, c);
    }
  }

  lemma AcquireOthers(e: Config, s: Server, t: Server, c: nat)
    requires Others(e, s, -1) && t.p == s.p && c < |t.m.conns|
    requires |t.m.conns| == |s.m.conns| || (c == |s.m.conns| && |t.m.conns| == c + 1)
    requires forall d :: 0 <= d < |s.m.conns| && d != c ==>
      && t.m.conns[d] == s.m.conns[d] && (d in t.m.idle <==> d in s.m.idle)
      && (IsActive(t.m, d) <==> IsActive(s.m, d)) && PortOf(t.r, d) == PortOf(s.r, d)
    ensures Others(e, t, c)
  {
    forall d | 0 <= d < |t.m.conns| && d != c
      ensures CtxOk(e, t, d)
    {
      assert CtxOk(e, s, d);
    }
  }

  lemma {:induction false} NoneYet(coros: seq<Coro>, i: nat)
    requires forall co :: 0 <= co < |coros| ==> coros[co].connId < i
    ensures Unresumed(coros, i) == 0 && Dropped(coros, i) == 0
  {
    if coros != [] {
      NoneYet(coros[..|coros| - 1], i);
    }
  }

  lemma NewConnectionKeeps(e: Config, s: Server, fd: int)
    requires Settled(e, s) && Arriving(s.r, fd)
    ensures var (ok, t) := SubmitRecv(e, Arrived(s, fd), fd);
      Settled(e, if ok then t else CloseConn(t, fd))
  {
    var c := Acquire(s.m, fd).0;
    AcquireKeeps(e, s, fd);
    NoneYet(s.p.coros, s.m.nextId);
    DrainEmpty(e.registry);
    RearmRecvKeeps(e, Arrived(s, fd), c);
  }

  predicate AllWaiting(r: Ring) {
    forall k :: 0 <= k < |r.accepts| ==> !r.accepts[k].AcceptDone? || r.accepts[k].res < 0
  }

  /** Accept and notify operations and the two retry flags concern nothing but their own arming. */
  lemma ArmsKeep(e: Config, s: Server, t: Server)
    requires Settled(e, s)
    requires t == s.(r := s.r.(accepts := t.r.accepts, notifies := t.r.notifies, calls := t.r.calls),
                     acceptPending := t.acceptPending, notifyPending := t.notifyPending)
    requires t.r.accepts == s.r.accepts || (AllWaiting(s.r) && AllWaiting(t.r))
    ensures Settled(e, t)
  {
    BufsFrame(s, t);
    forall d | 0 <= d < |t.m.conns|
      ensures CtxOk(e, t, d)
    {
      assert CtxOk(e, s, d);
    }
  }

  lemma RearmAcceptKeeps(e: Config, s: Server)
    requires Settled(e, s) && s.r.accepts == []
    ensures var t := RearmAccept(e, s);
      && Settled(e, t) && |t.r.accepts| == (if e.sqe(s.r.calls) then 1 else 0)
      && t.acceptPending == (s.acceptPending || !e.sqe(s.r.calls))
      && t.r.notifies == s.r.notifies && t.notifyPending == s.notifyPending && t.p == s.p
  {
    ArmsKeep(e, s, RearmAccept(e, s));
  }

  lemma ProcessAcceptKeeps(e: Config, s: Server)
    requires Inv(e, s) && |s.r.accepts| > 0 && s.r.accepts[0].AcceptDone?
    ensures Inv(e, ProcessAccept(e, s, 0))
  {
    var res := s.r.accepts[0].res;
    var s0 := s.(r := s.r.(accepts := RemoveAt(s.r.accepts, 0)));
    assert RemoveAt(s.r.accepts, 0) == [];
    if res < 0 {
      ArmsKeep(e, s, s0);
      RearmAcceptKeeps(e, s0);
    } else {
      NewConnectionKeeps(e, s, res);
      var (ok, t) := SubmitRecv(e, Arrived(s, res), res);
      RearmAcceptKeeps(e, if ok then t else CloseConn(t, res));
    }
  }

  // A notify read completes.

  lemma RearmNotifyKeeps(e: Config, s: Server)
    requires Settled(e, s) && s.r.notifies == []
    ensures var t := RearmNotify(e, s);
      && Settled(e, t) && |t.r.notifies| == (if e.sqe(s.r.calls) then 1 else 0)
      && t.notifyPending == (s.notifyPending || !e.sqe(s.r.calls))
      && t.r.accepts == s.r.accepts && t.acceptPending == s.acceptPending && t.p == s.p
  {
    ArmsKeep(e, s, RearmNotify(e, s));
  }

  lemma ProcessNotifyKeeps(e: Config, s: Server)
    requires Inv(e, s) && |s.r.notifies| > 0 && s.r.notifies[0].NotifyDone?
    ensures Inv(e, ProcessNotify(e, s, 0))
  {
    var s0 := s.(r := s.r.(notifies := RemoveAt(s.r.notifies, 0)));
    assert RemoveAt(s.r.notifies, 0) == [];
    ArmsKeep(e, s, s0);
    HandleNotifyKeeps(e, s0);
    RearmNotifyKeeps(e, HandleNotify(e, s0));
  }

  // After a flush.

  lemma RetryKeeps(e: Config, s: Server)
    requires Inv(e, s)
    ensures Inv(e, Retry(e, s))
  {
    ArmsKeep(e, s, Retry(e, s));
  }
}
