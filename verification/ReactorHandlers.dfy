/** Every handler of the event loop keeps the invariant. */
module ReactorHandlers {
  import opened ByteStrings
  import opened Wire
  import opened Connections
  import opened Reactor
  import opened ReactorInvariant
  import opened ReactorPrimitives
  import opened ReactorCoroutines

  /** Context c is active and every other part of the state is as it is between completions. */
  ghost predicate Focused(e: Config, s: Server, c: nat) {
    Base(s) && Others(e, s, c) && c < |s.m.conns| && IsActive(s.m, c)
  }

  ghost predicate Settled(e: Config, s: Server) {
    Base(s) && Others(e, s, -1)
  }

  // Sending.

  /** An active connection whose send has been taken from the completion queue. */
  ghost predicate BetweenSends(e: Config, x: Context, p: Port) {
    && !x.closing && p.sends == []
    && |p.recvs| == (if x.readPaused then 0 else 1)
    && x.inflight == |p.recvs|
    && QueueOk(x, p) && RecvsOk(x, p)
    && (x.readPaused <==> x.pendingReqs >= MAX_INFLIGHT_PER_CONN)
    && PendingOk(e.registry, x.pendingReqs)
    && TryParse(e.registry, x.input).NeedMore?
  }

  lemma SendFailedKeeps(e: Config, s: Server, c: nat)
    requires Focused(e, s, c) && BetweenSends(e, s.m.conns[c], PortOf(s.r, c))
    ensures var t := CloseConn(s, s.m.conns[c].fd); Settled(e, t)
  {
    CloseKeeps(e, s, c);
  }

  lemma StartOk(e: Config, x: Context, p: Port)
    requires BetweenSends(e, x, p)
    ensures x.outQueue == [] ==> ActiveOk(e, x.(sending := false), p)
    ensures x.outQueue != [] ==>
              ActiveOk(e, x.(inflight := x.inflight + 1, sending := true),
                       p.(sends := p.sends + [SendOp(x.fd, x.outQueue[0][x.written..], SendWaiting(Queued))]))
  {
  }

  lemma StartSendKeeps(e: Config, s: Server, c: nat)
    requires Focused(e, s, c) && s.m.conns[c].outQueue != []
    requires BetweenSends(e, s.m.conns[c], PortOf(s.r, c)) && CountOk(s.p, s.m.conns[c])
    ensures var (ok, t) := SubmitSend(e, s, s.m.conns[c].fd);
      if ok then Settled(e, t) else Focused(e, t, c) && BetweenSends(e, t.m.conns[c], PortOf(t.r, c))
  {
    StartOk(e, s.m.conns[c], PortOf(s.r, c));
    SubmitSendEffect(e, s, c);
    SubmitSendKeeps(e, s, c);
    var (ok, t) := SubmitSend(e, s, s.m.conns[c].fd);
    if ok {
      assert CtxOk(e, t, c);
    }
  }

  lemma ContinueSendKeeps(e: Config, s: Server, c: nat)
    requires Focused(e, s, c)
    requires BetweenSends(e, s.m.conns[c], PortOf(s.r, c)) && CountOk(s.p, s.m.conns[c])
    ensures Settled(e, ContinueSend(e, s, c, s.m.conns[c].fd))
  {
    var x := s.m.conns[c];
    if x.outQueue == [] {
      var y := x.(sending := false);
      StartOk(e, x, PortOf(s.r, c));
      PutCtxKeeps(e, s, c, y);
      assert CtxOk(e, PutCtx(s, c, y), c);
    } else {
      StartSendKeeps(e, s, c);
      var (ok, s1) := SubmitSend(e, s, x.fd);
      if !ok {
        SendFailedKeeps(e, s1, c);
      }
    }
  }

  /** Putting a changed context back and continuing its send chain. */
  lemma PutAndContinueKeeps(e: Config, s: Server, c: nat, y: Context)
    requires Focused(e, s, c)
    requires y.fd == s.m.conns[c].fd && y.connId == s.m.conns[c].connId
    requires BetweenSends(e, y, PortOf(s.r, c)) && CountOk(s.p, y)
    ensures var t := ContinueSend(e, PutCtx(s, c, y), c, y.fd); Settled(e, t)
  {
    PutCtxKeeps(e, s, c, y);
    ContinueSendKeeps(e, PutCtx(s, c, y), c);
  }

  /** Completing the front frame: still short of the limit, or the first completion below it. */
  lemma PopFrontOk(e: Config, p: Pool, x: Context, ops: Port)
    requires BetweenSends(e, x, ops) && CountOk(p, x) && x.outQueue != []
    ensures var y := PopFront(x);
      && CountOk(p, y)
      && (if y.readPaused && y.pendingReqs < MAX_INFLIGHT_PER_CONN
          then ops == NO_OPS && y.inflight == 0
               && BetweenSends(e, y.(readPaused := false, inflight := 1), Port([RecvOp(y.fd, RecvWaiting(Queued))], []))
          else BetweenSends(e, y, ops))
  {
  }

  /** Backpressure released: the recv is armed again, or the connection closed with nothing outstanding. */
  lemma ResumeReadingKeeps(e: Config, s: Server, c: nat, y: Context)
    requires Focused(e, s, c)
    requires y.fd == s.m.conns[c].fd && y.connId == s.m.conns[c].connId
    requires PortOf(s.r, c) == NO_OPS && y.inflight == 0 && CountOk(s.p, y)
    requires BetweenSends(e, y.(inflight := 1), Port([RecvOp(y.fd, RecvWaiting(Queued))], []))
    ensures var t := ResumeReading(e, PutCtx(s, c, y), c, y.fd); Settled(e, t)
  {
    PutCtxKeeps(e, s, c, y);
    var s0 := PutCtx(s, c, y);
    SubmitRecvEffect(e, s0, c);
    SubmitRecvKeeps(e, s0, c);
    var (ok, s1) := SubmitRecv(e, s0, y.fd);
    if ok {
      assert PortOf(s1.r, c) == Port([RecvOp(y.fd, RecvWaiting(Queued))], []);
      ContinueSendKeeps(e, s1, c);
    } else {
      CloseKeeps(e, s1, c);
    }
  }

  lemma FrameSentKeeps(e: Config, s: Server, c: nat)
    requires Focused(e, s, c) && s.m.conns[c].outQueue != []
    requires BetweenSends(e, s.m.conns[c], PortOf(s.r, c)) && CountOk(s.p, s.m.conns[c])
    ensures var t := FrameSent(e, s, c); Settled(e, t)
  {
    var y := PopFront(s.m.conns[c]);
    PopFrontOk(e, s.p, s.m.conns[c], PortOf(s.r, c));
    if y.readPaused && y.pendingReqs < MAX_INFLIGHT_PER_CONN {
      ResumeReadingKeeps(e, s, c, y.(readPaused := false));
    } else {
      PutAndContinueKeeps(e, s, c, y);
    }
  }

  lemma AdvanceOk(e: Config, p: Pool, x: Context, ops: Port, res: int)
    requires BetweenSends(e, x, ops) && CountOk(p, x) && x.outQueue != []
    requires res > 0 && x.written + res < |x.outQueue[0]|
    ensures BetweenSends(e, Advance(x, res), ops) && CountOk(p, Advance(x, res))
    ensures Advance(x, res).fd == x.fd && Advance(x, res).connId == x.connId
  {
    AdvanceQueue(x, ops, res);
  }

  lemma AdvanceQueue(x: Context, ops: Port, res: int)
    requires QueueOk(x, ops) && ops.sends == [] && x.outQueue != [] && res > 0 && x.written + res < |x.outQueue[0]|
    ensures QueueOk(Advance(x, res), ops)
  {
  }

  lemma PartlySentKeeps(e: Config, s: Server, c: nat, res: int)
    requires Focused(e, s, c) && s.m.conns[c].outQueue != []
    requires res > 0 && s.m.conns[c].written + res < |s.m.conns[c].outQueue[0]|
    requires BetweenSends(e, s.m.conns[c], PortOf(s.r, c)) && CountOk(s.p, s.m.conns[c])
    ensures var t := PartlySent(e, s, c, res); Settled(e, t)
  {
    AdvanceOk(e, s.p, s.m.conns[c], PortOf(s.r, c), res);
    PutAndContinueKeeps(e, s, c, Advance(s.m.conns[c], res));
  }

  lemma HandleSendKeeps(e: Config, s: Server, c: nat, res: int)
    requires Focused(e, s, c) && s.m.conns[c].outQueue != []
    requires BetweenSends(e, s.m.conns[c], PortOf(s.r, c)) && CountOk(s.p, s.m.conns[c])
    ensures Settled(e, HandleSend(e, s, c, res))
  {
    var x := s.m.conns[c];
    if res <= 0 {
      SendFailedKeeps(e, s, c);
    } else if x.written + res < |x.outQueue[0]| {
      PartlySentKeeps(e, s, c, res);
    } else {
      FrameSentKeeps(e, s, c);
    }
  }

  // Receiving.

  /** An active connection whose recv has been taken from the completion queue; `input` was all incomplete
      before `chunk` arrived. */
  ghost predicate BetweenRecvs(e: Config, x: Context, p: Port, input: Bytes, chunk: Bytes) {
    && !x.closing && p.recvs == [] && !x.readPaused
    && |p.sends| == (if x.sending then 1 else 0)
    && x.inflight == |p.sends|
    && (x.sending <==> x.outQueue != [])
    && QueueOk(x, p)
    && x.pendingReqs < MAX_INFLIGHT_PER_CONN
    && TryParse(e.registry, input).NeedMore?
    && x.input == input + chunk && |chunk| <= BUF_SIZE
  }

  /** An active connection whose recv has been handled and not yet armed again. */
  ghost predicate BeforeRearm(e: Config, x: Context, p: Port) {
    && !x.closing && p.recvs == [] && !x.readPaused
    && |p.sends| == (if x.sending then 1 else 0)
    && x.inflight == |p.sends|
    && (x.sending <==> x.outQueue != [])
    && QueueOk(x, p)
    && PendingOk(e.registry, x.pendingReqs)
    && TryParse(e.registry, x.input).NeedMore?
  }

  function AfterDrain(x: Context, requests: seq<Request>, rest: Bytes): Context {
    x.(input := rest, pendingReqs := x.pendingReqs + |requests|)
  }

  lemma OvershootOk(g: Registry, n: int, input: Bytes, chunk: Bytes)
    requires TryParse(g, input).NeedMore? && 0 < |chunk| <= BUF_SIZE && n < MAX_INFLIGHT_PER_CONN
    ensures PendingOk(g, n + |Drain(g, input + chunk).requests|)
  {
    forall least: nat | least > 0 && NoShorter(g, least)
      ensures RequestCount(g, input + chunk) <= 1 + WholeIn(least, BUF_SIZE - 1)
    {
      ChunkCount(g, least, input, chunk);
      WholeInMonotone(least, |chunk| - 1, BUF_SIZE - 1);
    }
  }

  lemma DrainOk(e: Config, x: Context, p: Port, input: Bytes, chunk: Bytes)
    requires BetweenRecvs(e, x, p, input, chunk) && chunk != []
    ensures var d := Drain(e.registry, x.input);
      var y := AfterDrain(x, d.requests, d.rest);
      && (!d.closed ==> BeforeRearm(e, y, p))
      && QueueOk(y, p) && RecvsOk(y, p) && y.inflight == |p.recvs| + |p.sends| <= 1
  {
    OvershootOk(e.registry, x.pendingReqs, input, chunk);
    DrainLeavesIncomplete(e.registry, x.input);
  }

  /** Dispatching what a chunk completed. */
  lemma DrainedKeeps(e: Config, s: Server, c: nat, input: Bytes, chunk: Bytes)
    requires Focused(e, s, c) && chunk != []
    requires BetweenRecvs(e, s.m.conns[c], PortOf(s.r, c), input, chunk) && CountOk(s.p, s.m.conns[c])
    ensures var d := Drain(e.registry, s.m.conns[c].input);
      var t := DispatchAll(s, c, d.requests, d.rest);
      && t.m.conns[c].fd == s.m.conns[c].fd
      && (if d.closed then Settled(e, CloseConn(t, s.m.conns[c].fd))
          else Focused(e, t, c) && CountOk(t.p, t.m.conns[c]) && BeforeRearm(e, t.m.conns[c], PortOf(t.r, c)))
  {
    var x := s.m.conns[c];
    var d := Drain(e.registry, x.input);
    DispatchKeeps(e, s, c, d.requests, d.rest);
    DrainOk(e, x, PortOf(s.r, c), input, chunk);
    var t := DispatchAll(s, c, d.requests, d.rest);
    assert t.m.conns[c] == AfterDrain(x, d.requests, d.rest);
    if d.closed {
      CloseKeeps(e, t, c);
    }
  }

  lemma ReadOnKeeps(e: Config, s: Server, c: nat)
    requires Focused(e, s, c) && CountOk(s.p, s.m.conns[c])
    requires BeforeRearm(e, s.m.conns[c], PortOf(s.r, c))
    ensures Settled(e, ReadOn(e, s, c))
  {
    var x := s.m.conns[c];
    if x.pendingReqs >= MAX_INFLIGHT_PER_CONN {
      var y := x.(readPaused := true);
      assert ActiveOk(e, y, PortOf(s.r, c));
      PutCtxKeeps(e, s, c, y);
      assert CtxOk(e, PutCtx(s, c, y), c);
    } else {
      RearmRecvKeeps(e, s, c);
    }
  }

  lemma HandleDataKeeps(e: Config, s: Server, c: nat, input: Bytes, chunk: Bytes)
    requires Focused(e, s, c) && chunk != []
    requires BetweenRecvs(e, s.m.conns[c], PortOf(s.r, c), input, chunk) && CountOk(s.p, s.m.conns[c])
    ensures var t := HandleData(e, s, c); Settled(e, t) && t.p.resuming == s.p.resuming
  {
    var d := Drain(e.registry, s.m.conns[c].input);
    DrainedKeeps(e, s, c, input, chunk);
    if !d.closed {
      ReadOnKeeps(e, DispatchAll(s, c, d.requests, d.rest), c);
    }
  }

  lemma HandleRecvKeeps(e: Config, s: Server, c: nat, res: int, input: Bytes, chunk: Bytes)
    requires Focused(e, s, c)
    requires BetweenRecvs(e, s.m.conns[c], PortOf(s.r, c), input, chunk) && CountOk(s.p, s.m.conns[c])
    requires |chunk| == if res > 0 then res else 0
    ensures var t := HandleRecv(e, s, c, res); Settled(e, t) && t.p.resuming == s.p.resuming
  {
    if res > 0 {
      HandleDataKeeps(e, s, c, input, chunk);
    } else {
      assert input + chunk == input;
      if res == -ENOBUFS {
        RearmRecvKeeps(e, s, c);
      } else {
        CloseKeeps(e, s, c);
      }
    }
  }

  // Delivering.

  predicate Routed(s: Server, k: Coro)
    requires Wf(s.m)
  {
    k.fd in s.m.active && s.m.conns[s.m.active[k.fd]].connId == k.connId
  }

  /** A coroutine whose connection is gone, or that has nothing to say, changes no context. */
  lemma ResumeUnroutedKeeps(e: Config, s: Server)
    requires Settled(e, s) && s.p.resuming != []
    requires var k := s.p.coros[s.p.resuming[0]]; k.frame == [] || !Routed(s, k)
    ensures Settled(e, ResumeFirst(e, s))
  {
    MarkKeeps(e, s, -1);
    assert ResumeFirst(e, s) == MarkFirst(s);
  }

  lemma ResumeRoutedKeeps(e: Config, s: Server)
    requires Settled(e, s) && s.p.resuming != []
    requires var k := s.p.coros[s.p.resuming[0]]; k.frame != [] && Routed(s, k)
    ensures Settled(e, ResumeFirst(e, s))
  {
    var co := s.p.resuming[0];
    var k := s.p.coros[co];
    var s1 := MarkFirst(s);
    var c := s.m.active[k.fd];
    assert Due(s.p)[0] == co && k.state.Ready?;
    assert CtxOk(e, s, c);
    MarkKeeps(e, s, c);
    CountsUpdate(s.p.coros, co, s1.p.coros[co], k.connId);
    NotYetDelivered(s, co);
    DeliverLog(s1, co, k.connId);
    QueueFrameKeeps(e, s1, c, co);
    assert ResumeFirst(e, s) == DeliverResponse(e, s1, co);
  }

  lemma ResumeFirstKeeps(e: Config, s: Server)
    requires Settled(e, s) && s.p.resuming != []
    ensures Settled(e, ResumeFirst(e, s))
  {
    var k := s.p.coros[s.p.resuming[0]];
    if k.frame == [] || !Routed(s, k) {
      ResumeUnroutedKeeps(e, s);
    } else {
      ResumeRoutedKeeps(e, s);
    }
  }

  lemma NotYetDelivered(s: Server, co: nat)
    requires DeliveryOk(s) && co < |s.p.coros| && !s.p.coros[co].state.Resumed?
    ensures forall i :: co !in DeliveredOn(s, i)
  {
    forall i | i in s.delivered
      ensures co !in s.delivered[i]
    {
      assert DeliveredTo(s.p, i, s.delivered[i]);
    }
  }

  /** The context after its queue took the frame of coroutine co, and the history that records it. */
  function WithFrame(s: Server, c: nat, co: nat): Server
    requires c < |s.m.conns| && co < |s.p.coros|
  {
    var x := s.m.conns[c];
    PutCtx(s, c, x.(outQueue := x.outQueue + [s.p.coros[co].frame]))
    .(delivered := s.delivered[x.connId := DeliveredOn(s, x.connId) + [co]])
  }

  lemma QueuedKeeps(e: Config, s: Server, c: nat, co: nat)
    requires Focused(e, s, c) && co < |s.p.coros|
    requires DeliveryOk(s.(delivered := s.delivered[s.m.conns[c].connId := DeliveredOn(s, s.m.conns[c].connId) + [co]]))
    ensures Focused(e, WithFrame(s, c, co), c)
  {
    var x := s.m.conns[c];
    var y := x.(outQueue := x.outQueue + [s.p.coros[co].frame]);
    PutCtxKeeps(e, s, c, y);
    var s0, s1 := PutCtx(s, c, y), WithFrame(s, c, co);
    BufsFrame(s0, s1);
    forall d | 0 <= d < |s1.m.conns| && d != c
      ensures CtxOk(e, s1, d)
    {
      assert CtxOk(e, s0, d);
    }
  }

  lemma QueueFrameKeeps(e: Config, s: Server, c: nat, co: nat)
    requires Focused(e, s, c) && co < |s.p.coros|
    requires var x, k := s.m.conns[c], s.p.coros[co];
      && ActiveOk(e, x, PortOf(s.r, c))
      && k.fd == x.fd && k.connId == x.connId && k.frame != []
      && x.pendingReqs == Unresumed(s.p.coros, x.connId) + |x.outQueue| + 1 + Dropped(s.p.coros, x.connId)
      && DeliveryOk(s.(delivered := s.delivered[x.connId := DeliveredOn(s, x.connId) + [co]]))
    ensures Settled(e, DeliverResponse(e, s, co))
  {
    QueuedKeeps(e, s, c, co);
    QueuedCount(s, c, co);
    QueuedReady(e, s.m.conns[c], WithFrame(s, c, co).m.conns[c], PortOf(s.r, c), s.p.coros[co].frame);
    StartSendingKeeps(e, WithFrame(s, c, co), c);
    DeliverIs(e, s, c, co);
  }

  lemma QueuedCount(s: Server, c: nat, co: nat)
    requires c < |s.m.conns| && co < |s.p.coros|
    ensures var x, t := s.m.conns[c], WithFrame(s, c, co);
      && t.m.conns[c] == x.(outQueue := x.outQueue + [s.p.coros[co].frame]) && t.p == s.p && t.r == s.r
      && |t.m.conns[c].outQueue| == |x.outQueue| + 1
  {
  }

  lemma QueuedReady(e: Config, x: Context, y: Context, p: Port, frame: Bytes)
    requires ActiveOk(e, x, p) && y == x.(outQueue := x.outQueue + [frame]) && frame != []
    ensures if x.sending then ActiveOk(e, y, p) else BetweenSends(e, y, p) && y.outQueue != []
  {
    assert x.outQueue != [] ==> y.outQueue[0] == x.outQueue[0];
  }

  lemma DeliverIs(e: Config, s: Server, c: nat, co: nat)
    requires Wf(s.m) && c < |s.m.conns| && IsActive(s.m, c) && co < |s.p.coros|
    requires s.p.coros[co].fd == s.m.conns[c].fd && s.p.coros[co].connId == s.m.conns[c].connId
    ensures var s1, x := WithFrame(s, c, co), s.m.conns[c];
      var (ok, t) := SubmitSend(e, s1, x.fd);
      DeliverResponse(e, s, co) == if x.sending then s1 else if ok then t else CloseConn(t, x.fd)
  {
  }

  /** The end of deliverResponse: start the send chain unless one is running. */
  lemma StartSendingKeeps(e: Config, s: Server, c: nat)
    requires Focused(e, s, c) && CountOk(s.p, s.m.conns[c])
    requires var x, p := s.m.conns[c], PortOf(s.r, c);
      if x.sending then ActiveOk(e, x, p) else BetweenSends(e, x, p) && x.outQueue != []
    ensures var x := s.m.conns[c];
      var (ok, t) := SubmitSend(e, s, x.fd);
      Settled(e, if x.sending then s else if ok then t else CloseConn(t, x.fd))
  {
    var x := s.m.conns[c];
    if x.sending {
      assert CtxOk(e, s, c);
    } else {
      ContinueSendKeeps(e, s, c);
    }
  }

  lemma {:induction false} ResumeAllKeeps(e: Config, s: Server)
    requires Settled(e, s)
    ensures Settled(e, ResumeAll(e, s))
    decreases |s.p.resuming|
  {
    if s.p.resuming != [] {
      ResumeFirstKeeps(e, s);
      ResumeAllKeeps(e, ResumeFirst(e, s));
    }
  }

  lemma SwapKeeps(e: Config, s: Server)
    requires Settled(e, s) && s.p.resuming == []
    ensures Settled(e, s.(p := s.p.(resuming := s.p.ready, ready := [])))
  {
    var s1 := s.(p := s.p.(resuming := s.p.ready, ready := []));
    assert Due(s1.p) == Due(s.p);
    BufsFrame(s, s1);
    forall d | 0 <= d < |s1.m.conns|
      ensures CtxOk(e, s1, d)
    {
      assert CtxOk(e, s, d);
    }
    forall i | i in s1.delivered
      ensures DeliveredTo(s1.p, i, s1.delivered[i])
    {
      assert DeliveredTo(s.p, i, s.delivered[i]);
    }
  }

  lemma HandleNotifyKeeps(e: Config, s: Server)
    requires Settled(e, s) && s.p.resuming == []
    ensures Settled(e, HandleNotify(e, s)) && HandleNotify(e, s).p.resuming == []
  {
    SwapKeeps(e, s);
    ResumeAllKeeps(e, s.(p := s.p.(resuming := s.p.ready, ready := [])));
  }
}
