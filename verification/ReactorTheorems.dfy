/** What holds of every reachable world of the reactor. */
module ReactorTheorems {
  import opened ByteStrings
  import opened Wire
  import opened Connections
  import opened Reactor
  import opened ReactorRun
  import opened ReactorInvariant
  import opened ReactorSafety
  import opened ReactorStreams
  import opened ReactorStreamSteps
  import opened ReactorStreamSafety

  /** An open connection: one recv unless reading is paused, one send exactly while there is something to send. */
  lemma ActiveOperations(e: Config, w: World, c: nat)
    requires Reachable(e, w) && c < |w.s.m.conns| && IsActive(w.s.m, c)
    ensures var x, p := w.s.m.conns[c], PortOf(w.s.r, c);
      && !x.closing && x.inflight == |p.recvs| + |p.sends|
      && |p.recvs| == (if x.readPaused then 0 else 1)
      && |p.sends| == (if x.sending then 1 else 0)
      && (x.sending <==> x.outQueue != [])
      && (x.readPaused <==> x.pendingReqs >= MAX_INFLIGHT_PER_CONN)
  {
    ReachableOk(e, w);
    assert CtxOk(e, w.s, c);
  }

  /** Every context is active, or waits for exactly one completion after its close, or is in the pool, once. */
  lemma ContextsPartitioned(e: Config, w: World, c: nat)
    requires Reachable(e, w) && c < |w.s.m.conns|
    ensures NoDup(w.s.m.idle)
    ensures var x, p, idle, active := w.s.m.conns[c], PortOf(w.s.r, c), c in w.s.m.idle, IsActive(w.s.m, c);
      && !(idle && active)
      && (idle ==> p == NO_OPS)
      && (!idle && !active ==> x.closing && x.inflight == 1 == |p.recvs| + |p.sends|)
  {
    ReachableOk(e, w);
    assert CtxOk(e, w.s, c);
  }

  /** handleSend never tests `closing`, and need not: a completion finds its connection open, or is the last one
      of a closed connection and only recycles it. */
  lemma NoHandlerOnClosed(e: Config, w: World, c: nat, j: nat)
    requires Reachable(e, w) && Wf(w.s.m) && PoolWf(w.s.p)
    ensures LoopEnabled(w, TakeSend(c, j)) ==>
      var t := LoopNext(e, w, TakeSend(c, j)).s;
      (IsActive(w.s.m, c) && !w.s.m.conns[c].closing) || (c in t.m.idle && PortOf(t.r, c) == NO_OPS)
    ensures LoopEnabled(w, TakeRecv(c, j)) ==>
      var t := LoopNext(e, w, TakeRecv(c, j)).s;
      (IsActive(w.s.m, c) && !w.s.m.conns[c].closing) || (c in t.m.idle && PortOf(t.r, c) == NO_OPS)
  {
    ReachableOk(e, w);
    if LoopEnabled(w, TakeSend(c, j)) {
      SendOfActive(e, w.s, c, j);
      if !IsActive(w.s.m, c) {
        DrainedSend(e, w.s, c, j);
        TakeSendKeeps(e, w, c, j);
        assert CtxOk(e, ProcessSend(e, w.s, c, j), c);
      }
    }
    if LoopEnabled(w, TakeRecv(c, j)) {
      RecvOfActive(e, w.s, c, j);
      if !IsActive(w.s.m, c) {
        DrainedRecv(e, w.s, c);
        TakeRecvKeeps(e, w, c, j);
        assert CtxOk(e, ProcessRecv(e, w.s, c, j), c);
      }
    }
  }

  /** No socket is closed twice, no close hits a descriptor that is not open, and an open connection's descriptor
      names the socket it was accepted on. */
  lemma SocketsClosedOnce(e: Config, w: World)
    requires Reachable(e, w)
    ensures var m := w.s.m;
      && NoDup(m.os.closed) && m.os.badCloses == 0
      && (forall fd :: fd in m.active ==>
            m.active[fd] < |m.conns| && fd in m.os.files
            && m.os.files[fd] == m.conns[m.active[fd]].connId && m.os.files[fd] !in m.os.closed)
  {
    ReachableOk(e, w);
  }

  /** The bytes a send in flight points at are never altered, not even after its connection was closed. */
  lemma SendBufferIntact(e: Config, w: World, c: nat, j: nat)
    requires Reachable(e, w) && LiveSend(w.s, c, j)
    ensures var x, op := w.s.m.conns[c], w.s.r.ports[c].sends[j];
      && x.outQueue != [] && x.written < |x.outQueue[0]| && op.data == x.outQueue[0][x.written..]
      && (op.state.SendDone? ==> op.state.res <= |x.outQueue[0]| - x.written)
  {
    ReachableOk(e, w);
    assert CtxOk(e, w.s, c);
    assert PortOf(w.s.r, c) == w.s.r.ports[c];
  }

  /** Backpressure: what counts as pending, and how far the soft limit of 256 can be overshot at most, if no request
      is shorter than `least`. */
  lemma PendingRequests(e: Config, w: World, c: nat, least: nat)
    requires Reachable(e, w) && c < |w.s.m.conns| && IsActive(w.s.m, c)
    requires least > 0 && NoShorter(e.registry, least)
    ensures var x := w.s.m.conns[c];
      && x.pendingReqs == Unresumed(w.s.p.coros, x.connId) + |x.outQueue| + Dropped(w.s.p.coros, x.connId)
      && x.pendingReqs <= MAX_INFLIGHT_PER_CONN + (BUF_SIZE - 1) / least
  {
    ReachableOk(e, w);
    assert CtxOk(e, w.s, c);
    WholeInIsQuotient(least, BUF_SIZE - 1);
  }

  /** No request is shorter than its length field, so 1279 is an upper bound whatever the codec. */
  lemma PendingAtMost(e: Config, w: World, c: nat)
    requires Reachable(e, w) && c < |w.s.m.conns| && IsActive(w.s.m, c)
    ensures w.s.m.conns[c].pendingReqs <= 1279
  {
    assert NoShorter(e.registry, 4);
    PendingRequests(e, w, c, 4);
  }

  /** Between completions no complete request is left in the buffer, and the buffer is bounded. */
  lemma InputBounded(e: Config, w: World, c: nat)
    requires Reachable(e, w) && c < |w.s.m.conns| && IsActive(w.s.m, c)
    ensures var x := w.s.m.conns[c];
      TryParse(e.registry, x.input).NeedMore? && |x.input| < 4 + 65536 + 67108864
  {
    ReachableOk(e, w);
    assert CtxOk(e, w.s, c);
  }

  /** Every provided buffer is either in the ring or in exactly one completion not yet taken. */
  lemma BuffersConserved(e: Config, w: World, b: nat)
    requires Reachable(e, w) && b < 1024
    ensures w.s.r.free[b] + Held(w.s.r, |w.s.m.conns|, b) == 1
  {
    ReachableOk(e, w);
  }

  /** A coroutine to resume is always announced, and someone always listens or is marked to. */
  lemma NoLostWakeup(e: Config, w: World)
    requires Reachable(e, w)
    ensures w.s.p.ready != [] ==> w.eventfd > 0 || w.unsignalled > 0 || NotifyDone in w.s.r.notifies
    ensures |w.s.r.notifies| == (if w.s.notifyPending then 0 else 1)
    ensures |w.s.r.accepts| == (if w.s.acceptPending then 0 else 1)
  {
    ReachableOk(e, w);
  }

  lemma {:induction false} NoneWorking(coros: seq<Coro>, co: nat)
    requires Working(coros) == 0 && co < |coros|
    ensures !InHand(coros[co])
  {
    if co < |coros| - 1 {
      NoneWorking(coros[..|coros| - 1], co);
    }
  }

  /** Tasks run in dispatch order, each once: those queued are exactly the last coroutines dispatched, and none of
      them has started. A coroutine is resumed at most once and only after its frame was written. */
  lemma TasksExactlyOnce(e: Config, w: World)
    requires Reachable(e, w)
    ensures var p := w.s.p;
      && (forall k :: 0 <= k < |p.tasks| ==> p.tasks[k] == |p.coros| - |p.tasks| + k)
      && (forall co :: 0 <= co < |p.coros| ==> (p.coros[co].state.Waiting? <==> co in p.tasks))
      && NoDup(p.ready)
      && (forall co :: 0 <= co < |p.coros| ==> (p.coros[co].state.Ready? <==> co in p.ready))
      && (forall co :: 0 <= co < |p.coros| ==> FrameOk(p.coros[co]))
  {
    ReachableOk(e, w);
    var p := w.s.p;
    assert Due(p) == p.ready;
    forall co | 0 <= co < |p.coros|
      ensures p.coros[co].state.Waiting? <==> co in p.tasks
      ensures p.coros[co].state.Ready? <==> co in p.ready
    {
      if co >= |p.coros| - |p.tasks| {
        assert p.tasks[co - (|p.coros| - |p.tasks|)] == co;
      }
      if co in p.ready {
        var k :| 0 <= k < |p.ready| && p.ready[k] == co;
        assert Due(p)[k] == co;
      }
    }
  }

  /** At most four requests are being computed at a time. */
  lemma AtMostFourAtWork(e: Config, w: World)
    requires Reachable(e, w)
    ensures Working(w.s.p.coros) <= 4 && w.live <= 4
  {
    ReachableOk(e, w);
  }

  /** When the last worker has left, the queue is drained and no task is half done. */
  lemma WorkersDrainQueue(e: Config, w: World)
    requires Reachable(e, w) && w.live == 0
    ensures w.stopped && w.s.p.tasks == [] && w.unsignalled == 0
    ensures forall co :: 0 <= co < |w.s.p.coros| ==> w.s.p.coros[co].state.Ready? || w.s.p.coros[co].state.Resumed?
  {
    ReachableOk(e, w);
    forall co | 0 <= co < |w.s.p.coros|
      ensures w.s.p.coros[co].state.Ready? || w.s.p.coros[co].state.Resumed?
    {
      NoneWorking(w.s.p.coros, co);
    }
  }

  /** No cross-talk: a connection generation queues only frames of its own requests, each once, under its own id. */
  lemma NoCrossTalk(e: Config, w: World, i: nat)
    requires Reachable(e, w)
    ensures var ids := DeliveredOn(w.s, i);
      && NoDup(ids)
      && forall k :: 0 <= k < |ids| ==>
           && ids[k] < |w.s.p.coros| && w.s.p.coros[ids[k]].connId == i && w.s.p.coros[ids[k]].result.Some?
           && w.s.p.coros[ids[k]].frame == ResponseFrame(w.s.p.coros[ids[k]].request.requestId, w.s.p.coros[ids[k]].result.value)
  {
    ReachableOk(e, w);
    if i in w.s.delivered {
      assert DeliveredTo(w.s.p, i, w.s.delivered[i]);
      forall k | 0 <= k < |w.s.delivered[i]|
        ensures FrameOk(w.s.p.coros[w.s.delivered[i][k]])
      {
      }
    }
  }

  /** The bytes the kernel has taken on an open or closing connection: the frames fully sent, in the order they were
      delivered, then the written part of the front frame, then what a posted completion has taken of the rest. */
  lemma AcceptedBytes(e: Config, w: World, c: nat)
    requires Reachable(e, w) && w.clean && c < |w.s.m.conns| && c !in w.s.m.idle
    ensures var x, p := w.s.m.conns[c], PortOf(w.s.r, c);
      && x.connId < |w.socks|
      && SentOk(x, p, FramesOf(w.s.p.coros, DeliveredOn(w.s, x.connId)), w.socks[x.connId].accepted)
  {
    ReachableClean(e, w);
    assert StreamCtx(e, w.s, w.socks, c);
  }

  /** What an open connection has received, up to what a posted completion brought, is exactly what it has
      dispatched and what waits in its buffer. */
  lemma ReceivedBytes(e: Config, w: World, c: nat)
    requires Reachable(e, w) && w.clean && c < |w.s.m.conns| && c !in w.s.m.idle && IsActive(w.s.m, c)
    ensures var x := w.s.m.conns[c];
      && x.connId < |w.socks|
      && ReadOk(e.registry, x, Arrivals(w.s.r.bufs, PortOf(w.s.r, c)), RequestsOf(w.s.p.coros, x.connId),
                w.socks[x.connId].received)
  {
    ReachableClean(e, w);
    assert StreamCtx(e, w.s, w.socks, c);
  }

  /** Every connection that ever was: only its own frames went out on it, only what it received was dispatched. */
  lemma SocketContract(e: Config, w: World, i: nat)
    requires Reachable(e, w) && w.clean && i < |w.socks|
    ensures w.socks[i].accepted <= Concat(FramesOf(w.s.p.coros, DeliveredOn(w.s, i)))
    ensures RequestsOf(w.s.p.coros, i) <= Drain(e.registry, w.socks[i].received).requests
  {
    ReachableClean(e, w);
    assert SockOk(e, w.s, w.socks, i);
  }
}
