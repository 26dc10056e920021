/**
  What becomes of a connection when its recv completes, and of a connection that arrives, told by the fields alone:
  nothing less is done than the completion calls for.
 */
module ReactorReceiving {
  import opened ByteStrings
  import opened Wire
  import opened Connections
  import opened Reactor
  import opened ReactorRun
  import opened ReactorInvariant
  import opened ReactorPrimitives
  import opened ReactorCoroutines
  import opened ReactorProcess
  import opened ReactorSafety
  import opened ReactorLocality
  import opened ReactorStreams
  import opened ReactorStreamSteps
  import opened ReactorStreamRun
  import opened ReactorSending
  import ReactorStarved

  function NewRecv(fd: int): RecvOp {
    RecvOp(fd, RecvWaiting(Queued))
  }

  lemma RearmsRecv(e: Config, s: Server, c: nat, x: Context, p: Port)
    requires Hosted(s.m, c) && FilesOk(s.m, s.r) && x == s.m.conns[c] && p == PortOf(s.r, c) && p.recvs == []
    ensures var t := RearmRecv(e, s, x.fd);
      && t.p == s.p
      && if e.sqe(s.r.calls) then Became(t, c, x.(inflight := x.inflight + 1), Port([NewRecv(x.fd)], p.sends)) else ClosedNow(t, c, x)
  {
    ReadsAgain(e, s, c, x, p, SubmitRecv(e, s, x.fd).1);
    assert [] + [NewRecv(x.fd)] == [NewRecv(x.fd)];
  }

  /** Context x with its recv completion taken off, before the bytes it brought are looked at. */
  ghost predicate RecvGone(s: Server, c: nat, x: Context, p: Port, chunk: Bytes) {
    && Hosted(s.m, c) && FilesOk(s.m, s.r)
    && s.m.conns[c] == x.(input := x.input + chunk, inflight := x.inflight - 1) && PortOf(s.r, c) == p.(recvs := [])
    && !x.closing && !x.readPaused
  }

  // Bytes.

  /** Every request that the bytes complete has its coroutine and its task, in order. */
  ghost predicate Dispatched(p: Pool, q: Pool, x: Context, requests: seq<Request>) {
    && |q.coros| == |p.coros| + |requests| && |q.tasks| == |p.tasks| + |requests|
    && p.coros <= q.coros && p.tasks <= q.tasks && q.ready == p.ready && q.resuming == p.resuming
    && (forall k :: 0 <= k < |requests| ==>
          && q.coros[|p.coros| + k] == Coro(x.fd, x.connId, requests[k], Waiting, None, [])
          && q.tasks[|p.tasks| + k] == |p.coros| + k)
  }

  /** What bytes make of an open connection: d is what draining its buffer with them yields. */
  ghost predicate BytesIn(e: Config, calls: nat, x: Context, p: Port, d: Drained, t: Server, c: nat) {
    var pending := x.pendingReqs + |d.requests|;
    if d.closed then ClosedNow(t, c, x)
    else if pending >= 256 then
      Became(t, c, x.(input := d.rest, pendingReqs := pending, readPaused := true, inflight := x.inflight - 1), Port([], p.sends))
    else if e.sqe(calls) then Became(t, c, x.(input := d.rest, pendingReqs := pending), Port([NewRecv(x.fd)], p.sends))
    else ClosedNow(t, c, x)
  }

  lemma DispatchesAll(s: Server, c: nat, requests: seq<Request>, rest: Bytes)
    requires c < |s.m.conns|
    ensures Dispatched(s.p, DispatchAll(s, c, requests, rest).p, s.m.conns[c], requests)
  {
    var x := s.m.conns[c];
    forall k | 0 <= k < |requests|
      ensures Spawn(x.fd, x.connId, requests)[k] == Coro(x.fd, x.connId, requests[k], Waiting, None, [])
    {
      SpawnIndex(x.fd, x.connId, requests, k);
    }
  }

  lemma DataIn(e: Config, s: Server, c: nat, x: Context, p: Port, chunk: Bytes, d: Drained)
    requires RecvGone(s, c, x, p, chunk) && d == Drain(e.registry, x.input + chunk)
    ensures BytesIn(e, s.r.calls, x, p, d, HandleData(e, s, c), c)
    ensures Dispatched(s.p, HandleData(e, s, c).p, x, d.requests)
  {
    DispatchesAll(s, c, d.requests, d.rest);
    var v := DispatchAll(s, c, d.requests, d.rest);
    var y := v.m.conns[c];
    TouchTables(s.m, s.r, c, y);
    if d.closed {
      ClosesNow(v, c, v.r);
    } else if y.pendingReqs < MAX_INFLIGHT_PER_CONN {
      RearmsRecv(e, v, c, y, PortOf(v.r, c));
    }
  }

  lemma RecvOffGone(e: Config, s: Server, c: nat)
    requires Inv(e, s) && LiveRecv(s, c, 0) && IsActive(s.m, c) && PortOf(s.r, c).recvs[0].state.RecvDone?
    ensures |PortOf(s.r, c).recvs| == 1
    ensures var u := RecvOff(s, c, 0);
      && RecvGone(u, c, s.m.conns[c], PortOf(s.r, c), Arrivals(s.r.bufs, PortOf(s.r, c)))
      && LocalTo(s, u, c) && u.p == s.p && u.delivered == s.delivered && u.r.calls == s.r.calls && u.r.bufs == s.r.bufs
  {
    assert CtxOk(e, s, c);
    RecvOfActive(e, s, c, 0);
    RecvOffFields(s, c);
    TouchTables(s.m, s.r, c, RecvOff(s, c, 0).m.conns[c]);
  }

  /** The bytes a completion brings: the head of the buffer it names. */
  lemma ChunkIs(e: Config, s: Server, c: nat)
    requires Inv(e, s) && LiveRecv(s, c, 0) && IsActive(s.m, c) && PortOf(s.r, c).recvs[0].state.RecvDone?
    ensures var done := PortOf(s.r, c).recvs[0].state;
      if done.res > 0
      then done.bid.Some? && done.bid.value < |s.r.bufs| && done.res <= |s.r.bufs[done.bid.value]|
        && Arrivals(s.r.bufs, PortOf(s.r, c)) == s.r.bufs[done.bid.value][..done.res]
      else Arrivals(s.r.bufs, PortOf(s.r, c)) == []
  {
    assert CtxOk(e, s, c);
  }

  // Every completion.

  /** The provided buffer of the completion is back in the ring. */
  ghost predicate BufferBack(s: Server, t: Server, bid: Option<nat>) {
    t.r.bufs == s.r.bufs && t.r.free == s.r.free + (if bid.Some? then multiset{bid.value} else multiset{})
  }

  ghost predicate SameBuffers(r: Ring, t: Ring) {
    t.bufs == r.bufs && t.free == r.free
  }

  lemma RearmKeepsBuffers(e: Config, s: Server, fd: int)
    requires Wf(s.m)
    ensures SameBuffers(s.r, RearmRecv(e, s, fd).r)
  {
  }

  lemma DataKeepsBuffers(e: Config, s: Server, c: nat)
    requires Wf(s.m) && c < |s.m.conns|
    ensures SameBuffers(s.r, HandleData(e, s, c).r)
  {
    var d := Drain(e.registry, s.m.conns[c].input);
    var v := DispatchAll(s, c, d.requests, d.rest);
    RearmKeepsBuffers(e, v, v.m.conns[c].fd);
  }

  lemma RecvKeepsBuffers(e: Config, s: Server, c: nat, res: int)
    requires Wf(s.m) && c < |s.m.conns|
    ensures SameBuffers(s.r, HandleRecv(e, s, c, res).r)
  {
    DataKeepsBuffers(e, s, c);
    RearmKeepsBuffers(e, s, s.m.conns[c].fd);
  }

  /** A recv completion on an open connection, in every reachable world. Bytes are drained, dispatched and counted, and the
      connection closed if a frame is refused; result -105, no buffer, has the recv armed again and changes nothing; any
      other result closes it; and it is closed otherwise only if the ring is full. */
  lemma RecvCompletes(e: Config, w: World, c: nat, j: nat)
    requires Reachable(e, w) && Wf(w.s.m) && PoolWf(w.s.p) && LoopEnabled(w, TakeRecv(c, j)) && IsActive(w.s.m, c)
    ensures j == 0 && |PortOf(w.s.r, c).recvs| == 1 && PortOf(w.s.r, c).recvs[0].state.RecvDone?
    ensures var x, p, t := w.s.m.conns[c], PortOf(w.s.r, c), LoopNext(e, w, TakeRecv(c, j)).s;
      var done := p.recvs[0].state;
      && LocalTo(w.s, t, c) && t.delivered == w.s.delivered && BufferBack(w.s, t, done.bid)
      && (if done.res > 0 then
            && done.bid.Some? && done.bid.value < |w.s.r.bufs| && done.res <= |w.s.r.bufs[done.bid.value]|
            && var d := Drain(e.registry, x.input + w.s.r.bufs[done.bid.value][..done.res]);
               BytesIn(e, w.s.r.calls, x, p, d, t, c) && Dispatched(w.s.p, t.p, x, d.requests)
          else if done.res == -105 && e.sqe(w.s.r.calls) then t.p == w.s.p && Became(t, c, x, Port([NewRecv(x.fd)], p.sends))
          else t.p == w.s.p && ClosedNow(t, c, x))
  {
    ReachableOk(e, w);
    RecvOfActive(e, w.s, c, j);
    RecvOffGone(e, w.s, c);
    ChunkIs(e, w.s, c);
    ProcessRecvIs(e, w.s, c, 0);
    var x, p, u := w.s.m.conns[c], PortOf(w.s.r, c), RecvOff(w.s, c, 0);
    var chunk, res := Arrivals(w.s.r.bufs, p), p.recvs[0].state.res;
    RecvKeepsBuffers(e, u, c, res);
    HandledLocally(e, w.s, u, c, res);
    if res > 0 {
      DataIn(e, u, c, x, p, chunk, Drain(e.registry, x.input + chunk));
    } else {
      NothingIn(e, u, c, x, p, res);
    }
  }

  lemma NothingIn(e: Config, u: Server, c: nat, x: Context, p: Port, res: int)
    requires RecvGone(u, c, x, p, []) && res <= 0
    ensures var t := HandleRecv(e, u, c, res);
      && t.p == u.p
      && if res == -105 && e.sqe(u.r.calls) then Became(t, c, x, Port([NewRecv(x.fd)], p.sends)) else ClosedNow(t, c, x)
  {
    assert x.input + [] == x.input;
    RearmsRecv(e, u, c, u.m.conns[c], PortOf(u.r, c));
    ClosesNow(u, c, u.r);
  }

  lemma HandledLocally(e: Config, s: Server, u: Server, c: nat, res: int)
    requires LocalTo(s, u, c) && Hosted(u.m, c) && !u.m.conns[c].closing && u.delivered == s.delivered
    ensures var t := HandleRecv(e, u, c, res); LocalTo(s, t, c) && t.delivered == s.delivered
  {
    if res > 0 {
      var d := Drain(e.registry, u.m.conns[c].input);
      HandleDataCalm(e, u, c, d);
    } else {
      RearmRecvCalm(e, u, c);
      CloseCalm(u, c);
    }
  }

  // A connection arrives.

  /** The accept is in the ring again, or marked pending if no entry was free. */
  ghost predicate AcceptAgain(e: Config, calls: nat, t: Server) {
    t.r.accepts == (if e.sqe(calls) then [AcceptWaiting] else []) && t.acceptPending == !e.sqe(calls)
  }

  /** A context that was not in use, from the pool if the pool has one, is now the open connection on fd, reading. */
  ghost predicate Opens(s: Server, t: Server, c: nat, fd: int) {
    && (if s.m.idle == [] then c == |s.m.conns| && |t.m.conns| == c + 1 else c in s.m.idle && |t.m.conns| == |s.m.conns|)
    && c !in t.m.idle && fd in t.m.active && t.m.active[fd] == c && t.m.nextId == s.m.nextId + 1
    && Became(t, c, Context(fd, s.m.nextId, [], [], 0, false, 1, false, 0, false), Port([NewRecv(fd)], []))
    && (forall d :: 0 <= d < |s.m.conns| && d != c ==>
          t.m.conns[d] == s.m.conns[d] && PortOf(t.r, d) == PortOf(s.r, d) && (d in t.m.idle <==> d in s.m.idle))
  }

  /** A new connection that cannot be read is closed at once, and no other is touched. */
  ghost predicate Refused(s: Server, t: Server, fd: int) {
    && fd !in t.m.active && fd !in t.m.os.files && s.m.nextId in t.m.os.closed && t.m.nextId == s.m.nextId + 1
    && (forall d :: 0 <= d < |s.m.conns| && d !in s.m.idle ==>
          d < |t.m.conns| && t.m.conns[d] == s.m.conns[d] && PortOf(t.r, d) == PortOf(s.r, d) && d !in t.m.idle)
  }

  lemma AcquiredIs(e: Config, s: Server, fd: int)
    requires Inv(e, s) && Arriving(s.r, fd)
    ensures var (c, u) := (Acquire(s.m, fd).0, Arrived(s, fd));
      && Hosted(u.m, c) && FilesOk(u.m, u.r) && PortOf(u.r, c) == NO_OPS && u.p == s.p && u.m.active == s.m.active[fd := c]
      && u.m.conns[c] == Context(fd, s.m.nextId, [], [], 0, false, 0, false, 0, false)
      && u.m.nextId == s.m.nextId + 1 && c !in u.m.idle
      && (if s.m.idle == [] then c == |s.m.conns| && |u.m.conns| == c + 1 else c in s.m.idle && |u.m.conns| == |s.m.conns|)
      && (forall d :: 0 <= d < |s.m.conns| && d != c ==>
            u.m.conns[d] == s.m.conns[d] && PortOf(u.r, d) == PortOf(s.r, d) && (d in u.m.idle <==> d in s.m.idle))
  {
    AcquireEffect(s.m, fd);
    AcquireKeeps(e, s, fd);
  }

  lemma NewConnection(e: Config, s: Server, fd: int)
    requires Inv(e, s) && Arriving(s.r, fd)
    ensures var t := RearmRecv(e, Arrived(s, fd), fd);
      && t.p == s.p && t.r.calls == s.r.calls + 1 && t.acceptPending == s.acceptPending
      && if e.sqe(s.r.calls) then fd in t.m.active && Opens(s, t, t.m.active[fd], fd) else Refused(s, t, fd)
  {
    var c, u := Acquire(s.m, fd).0, Arrived(s, fd);
    AcquiredIs(e, s, fd);
    RearmsRecv(e, u, c, u.m.conns[c], NO_OPS);
    RearmRecvCalm(e, u, c);
    var t := RearmRecv(e, u, fd);
    OthersKept(s, u, t, c);
    ArrivedCalls(e, u, fd);
  }

  lemma ArrivedCalls(e: Config, u: Server, fd: int)
    requires Wf(u.m) && fd in u.m.active
    ensures var t := RearmRecv(e, u, fd);
      t.r.calls == u.r.calls + 1 && t.m.nextId == u.m.nextId && (e.sqe(u.r.calls) ==> t.m.active == u.m.active && t.m.idle == u.m.idle)
  {
  }

  lemma OthersKept(s: Server, u: Server, t: Server, c: nat)
    requires LocalTo(u, t, c) && |u.m.conns| >= |s.m.conns|
    requires forall d :: 0 <= d < |s.m.conns| && d != c ==>
      u.m.conns[d] == s.m.conns[d] && PortOf(u.r, d) == PortOf(s.r, d) && (d in u.m.idle <==> d in s.m.idle)
    ensures |t.m.conns| == |u.m.conns|
    ensures forall d :: 0 <= d < |s.m.conns| && d != c ==>
      t.m.conns[d] == s.m.conns[d] && PortOf(t.r, d) == PortOf(s.r, d) && (d in t.m.idle <==> d in s.m.idle)
  {
  }

  /** What an accept completion makes of the server. */
  ghost predicate AfterAccept(e: Config, s: Server, t: Server, res: int) {
    && t.p == s.p
    && AcceptAgain(e, s.r.calls + (if res < 0 then 0 else 1), t)
    && if res < 0 then t.m == s.m && t.r.ports == s.r.ports
       else if e.sqe(s.r.calls) then res in t.m.active && Opens(s, t, t.m.active[res], res)
       else Refused(s, t, res)
  }

  lemma AcceptTaken(e: Config, s: Server, t: Server)
    requires Inv(e, s) && |s.r.accepts| > 0 && s.r.accepts[0].AcceptDone? && t == ProcessAccept(e, s, 0)
    ensures AfterAccept(e, s, t, s.r.accepts[0].res)
  {
    AcceptPosted(e, s);
    ReactorStarved.AcceptIs(e, s);
    if s.r.accepts[0].res < 0 {
      AcceptFails(e, s, t);
    } else {
      ConnectionTaken(e, s, s.r.accepts[0].res, t);
    }
  }

  lemma AcceptPosted(e: Config, s: Server)
    requires Inv(e, s) && |s.r.accepts| > 0 && s.r.accepts[0].AcceptDone?
    ensures |s.r.accepts| == 1 && !s.acceptPending && (s.r.accepts[0].res >= 0 ==> Arriving(s.r, s.r.accepts[0].res))
  {
  }

  lemma ConnectionTaken(e: Config, s: Server, fd: int, t: Server)
    requires Inv(e, s) && Arriving(s.r, fd) && t == RearmAccept(e, RearmRecv(e, Arrived(s, fd), fd))
    ensures AfterAccept(e, s, t, fd)
  {
    AcceptOpens(e, s, fd, t);
  }

  /** An accept completion, in every reachable world: a failure changes nothing but the arming, a connection is set up
      and read from, or closed at once if the ring is full. */
  lemma AcceptCompletes(e: Config, w: World)
    requires Reachable(e, w) && Wf(w.s.m) && PoolWf(w.s.p) && LoopEnabled(w, TakeAccept)
    ensures AfterAccept(e, w.s, LoopNext(e, w, TakeAccept).s, w.s.r.accepts[0].res)
  {
    ReachableOk(e, w);
    AcceptTaken(e, w.s, LoopNext(e, w, TakeAccept).s);
  }

  lemma AcceptFails(e: Config, s: Server, t: Server)
    requires !s.acceptPending && t == RearmAccept(e, s.(r := s.r.(accepts := [])))
    ensures t.p == s.p && t.m == s.m && t.r.ports == s.r.ports && AcceptAgain(e, s.r.calls, t)
  {
  }

  lemma AcceptOpens(e: Config, s: Server, fd: int, t: Server)
    requires Inv(e, s) && Arriving(s.r, fd) && t == RearmAccept(e, RearmRecv(e, Arrived(s, fd), fd))
    ensures t.p == s.p && AcceptAgain(e, s.r.calls + 1, t)
    ensures if e.sqe(s.r.calls) then fd in t.m.active && Opens(s, t, t.m.active[fd], fd) else Refused(s, t, fd)
  {
    NewConnection(e, s, fd);
    var u := RearmRecv(e, Arrived(s, fd), fd);
    if e.sqe(s.r.calls) {
      RearmedAccept(e, s, u, u.m.active[fd], fd);
    } else {
      RearmedAccept(e, s, u, 0, fd);
    }
  }

  lemma RearmedAccept(e: Config, s: Server, u: Server, c: nat, fd: int)
    requires u.r.accepts == [] && !u.acceptPending
    ensures var t := RearmAccept(e, u);
      && t.p == u.p && t.m == u.m && AcceptAgain(e, u.r.calls, t)
      && (Opens(s, u, c, fd) ==> Opens(s, t, c, fd)) && (Refused(s, u, fd) ==> Refused(s, t, fd))
  {
  }
}
