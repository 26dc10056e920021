/** Every step keeps the byte streams right, as long as the run is clean. */
module ReactorStreamSteps {
  import opened ByteStrings
  import opened Wire
  import opened Connections
  import opened Reactor
  import opened ReactorRun
  import opened ReactorInvariant
  import opened ReactorCoroutines
  import opened ReactorHandlers
  import opened ReactorProcess
  import opened ReactorLocality
  import opened ReactorStreams

  // A send completes.

  /** The unsent rest of the front frame, and what a completion says of it. */
  ghost predicate SendOf(x: Context, p: Port, res: int) {
    && QueueOk(x, p) && x.outQueue != [] && |p.sends| == 1
    && p.sends[0].state == SendDone(res) && res <= |p.sends[0].data|
  }

  lemma SentNothing(x: Context, y: Context, p: Port, frames: seq<Bytes>, accepted: Bytes, res: int)
    requires SendOf(x, p, res) && SentOk(x, p, frames, accepted) && res <= 0
    requires y.outQueue == x.outQueue && y.written == x.written
    ensures SentOk(y, p.(sends := []), frames, accepted)
  {
  }

  lemma SentPart(x: Context, y: Context, p: Port, frames: seq<Bytes>, accepted: Bytes, res: int)
    requires SendOf(x, p, res) && SentOk(x, p, frames, accepted)
    requires res > 0 && x.written + res < |x.outQueue[0]|
    requires y.outQueue == x.outQueue && y.written == x.written + res
    ensures SentOk(y, p.(sends := []), frames, accepted)
  {
    var front := x.outQueue[0];
    PartsJoin(Concat(frames[..|frames| - |x.outQueue|]), front, x.written, res);
  }

  lemma PartsJoin(sent: Bytes, front: Bytes, i: nat, n: nat)
    requires i + n <= |front|
    ensures sent + front[..i] + front[i..][..n] == sent + front[..i + n] + []
  {
    assert front[..i] + front[i..][..n] == front[..i + n];
  }

  lemma SentWhole(x: Context, y: Context, p: Port, frames: seq<Bytes>, accepted: Bytes, res: int)
    requires SendOf(x, p, res) && SentOk(x, p, frames, accepted)
    requires res > 0 && x.written + res >= |x.outQueue[0]|
    requires y.outQueue == x.outQueue[1..] && y.written == 0
    ensures SentOk(y, p.(sends := []), frames, accepted)
  {
    var front, n := x.outQueue[0], |frames| - |x.outQueue|;
    FrontGone(frames, n, x.outQueue, y.outQueue);
    PartsJoin(Concat(frames[..n]), front, x.written, res);
    assert front[..x.written + res] == front;
  }

  /** The front frame leaves the queue: it is among those sent. */
  lemma FrontGone(frames: seq<Bytes>, n: nat, queue: seq<Bytes>, rest: seq<Bytes>)
    requires n < |frames| && queue == frames[n..] && rest == queue[1..]
    ensures rest == frames[n + 1..] && Concat(frames[..n + 1]) == Concat(frames[..n]) + queue[0]
  {
    assert frames[..n + 1] == frames[..n] + [queue[0]];
    ConcatSnoc(frames[..n], queue[0]);
  }

  /** The context once the completion is accounted for: unchanged after an error, otherwise advanced. */
  function AfterSend(x: Context, res: int): (y: Context)
    requires x.outQueue != []
    ensures y.fd == x.fd && y.connId == x.connId && y.input == x.input
  {
    if res <= 0 then x
    else if x.written + res < |x.outQueue[0]| then Advance(x, res)
    else
      var y := PopFront(x);
      if y.readPaused && y.pendingReqs < MAX_INFLIGHT_PER_CONN then y.(readPaused := false) else y
  }

  lemma AfterSendSent(x: Context, y: Context, p: Port, q: Port, frames: seq<Bytes>, accepted: Bytes, res: int)
    requires SendOf(x, p, res) && SentOk(x, p, frames, accepted)
    requires y == AfterSend(x.(inflight := x.inflight - 1), res) && q == p.(sends := [])
    ensures SentOk(y, q, frames, accepted)
  {
    if res <= 0 {
      SentNothing(x, y, p, frames, accepted, res);
    } else if x.written + res < |x.outQueue[0]| {
      SentPart(x, y, p, frames, accepted, res);
    } else {
      SentWhole(x, y, p, frames, accepted, res);
    }
  }

  /** What handleSend does after that is calm. */
  lemma HandleSendCalm(e: Config, s: Server, c: nat, res: int)
    requires Hosted(s.m, c) && s.m.conns[c].outQueue != []
    requires forall k :: 0 <= k < |s.m.conns[c].outQueue| ==> s.m.conns[c].outQueue[k] != []
    requires s.m.conns[c].written < |s.m.conns[c].outQueue[0]|
    ensures var v := PutCtx(s, c, AfterSend(s.m.conns[c], res));
      Hosted(v.m, c) && Calm(v, HandleSend(e, s, c, res), c)
  {
    var x := s.m.conns[c];
    var y := AfterSend(x, res);
    var v := PutCtx(s, c, y);
    PutTables(s.m, c, y);
    if res <= 0 {
      PutSame(s.m, c);
      CloseCalm(s, c);
    } else if x.written + res < |x.outQueue[0]| {
      ContinueSendCalm(e, v, c);
    } else if PopFront(x).readPaused && PopFront(x).pendingReqs < MAX_INFLIGHT_PER_CONN {
      ResumeReadingCalm(e, v, c);
    } else {
      ContinueSendCalm(e, v, c);
    }
  }

  lemma SendOfActive(e: Config, s: Server, c: nat, j: nat)
    requires Inv(e, s) && LiveSend(s, c, j) && PortOf(s.r, c).sends[j].state.SendDone?
    ensures c !in s.m.idle
    ensures if IsActive(s.m, c) then
              j == 0 && SendOf(s.m.conns[c], PortOf(s.r, c), PortOf(s.r, c).sends[j].state.res) && !s.m.conns[c].closing
            else s.m.conns[c].closing && s.m.conns[c].inflight == 1
  {
    assert CtxOk(e, s, c);
  }

  /** The state in which handleSend's calm part starts. */
  function SendCounted(s: Server, c: nat, j: nat): Server
    requires c < |s.m.conns| && j < |PortOf(s.r, c).sends| && PortOf(s.r, c).sends[j].state.SendDone? && s.m.conns[c].outQueue != []
  {
    var t := SendOff(s, c, j);
    PutCtx(t, c, AfterSend(t.m.conns[c], PortOf(s.r, c).sends[j].state.res))
  }

  lemma SendCountedFields(s: Server, c: nat)
    requires c < |s.m.conns| && IsActive(s.m, c) && |PortOf(s.r, c).sends| == 1 && PortOf(s.r, c).sends[0].state.SendDone?
    requires s.m.conns[c].outQueue != []
    ensures var v, x, p := SendCounted(s, c, 0), s.m.conns[c], PortOf(s.r, c);
      && IsActive(v.m, c) && PortOf(v.r, c) == p.(sends := [])
      && v.m.conns[c] == AfterSend(x.(inflight := x.inflight - 1), p.sends[0].state.res)
      && v.m.conns[c].connId == x.connId && v.m.conns[c].input == x.input
      && v.p == s.p && v.delivered == s.delivered && v.r.bufs == s.r.bufs
  {
    assert RemoveAt(PortOf(s.r, c).sends, 0) == [];
  }

  /** Only the sending side of context c changed. */
  lemma SentStreams(e: Config, s: Server, v: Server, socks: seq<Sock>, c: nat)
    requires c < |s.m.conns| && c < |v.m.conns| && StreamAs(e, s, socks, c, true) && IsActive(v.m, c)
    requires v.p == s.p && v.delivered == s.delivered && v.r.bufs == s.r.bufs
    requires v.m.conns[c].connId == s.m.conns[c].connId && v.m.conns[c].input == s.m.conns[c].input
    requires !Dead(s.m, c) && PortOf(v.r, c) == PortOf(s.r, c).(sends := [])
    requires SentOk(v.m.conns[c], PortOf(v.r, c), FramesOf(s.p.coros, DeliveredOn(s, s.m.conns[c].connId)), socks[s.m.conns[c].connId].accepted)
    ensures StreamAs(e, v, socks, c, true)
  {
    var i := s.m.conns[c].connId;
    var frames, requests := FramesOf(s.p.coros, DeliveredOn(s, i)), RequestsOf(s.p.coros, i);
    assert DeliveredOn(v, i) == DeliveredOn(s, i);
    SentParts(e.registry, s.m.conns[c], v.m.conns[c], PortOf(s.r, c), PortOf(v.r, c), Arrivals(s.r.bufs, PortOf(s.r, c)),
              frames, requests, socks[i]);
    StreamIntro(e, v, socks, c, true, Arrivals(s.r.bufs, PortOf(s.r, c)), frames, requests);
  }

  lemma SentParts(g: Registry, x: Context, y: Context, p: Port, q: Port, arrivals: Bytes, frames: seq<Bytes>,
                  requests: seq<Request>, sock: Sock)
    requires Streams(g, x, p, true, false, arrivals, frames, requests, sock)
    requires y.connId == x.connId && y.input == x.input && q == p.(sends := []) && SentOk(y, q, frames, sock.accepted)
    ensures Streams(g, y, q, true, false, arrivals, frames, requests, sock)
  {
  }

  lemma SendCountedSent(s: Server, c: nat, frames: seq<Bytes>, accepted: Bytes)
    requires c < |s.m.conns| && IsActive(s.m, c) && |PortOf(s.r, c).sends| == 1 && PortOf(s.r, c).sends[0].state.SendDone?
    requires SendOf(s.m.conns[c], PortOf(s.r, c), PortOf(s.r, c).sends[0].state.res)
    requires SentOk(s.m.conns[c], PortOf(s.r, c), frames, accepted)
    ensures var v := SendCounted(s, c, 0); SentOk(v.m.conns[c], PortOf(v.r, c), frames, accepted)
  {
    SendCountedFields(s, c);
    var v := SendCounted(s, c, 0);
    AfterSendSent(s.m.conns[c], v.m.conns[c], PortOf(s.r, c), PortOf(v.r, c), frames, accepted, PortOf(s.r, c).sends[0].state.res);
  }

  lemma SendCountedStreams(e: Config, s: Server, socks: seq<Sock>, c: nat)
    requires c < |s.m.conns| && IsActive(s.m, c) && |PortOf(s.r, c).sends| == 1 && PortOf(s.r, c).sends[0].state.SendDone?
    requires SendOf(s.m.conns[c], PortOf(s.r, c), PortOf(s.r, c).sends[0].state.res)
    requires StreamCtx(e, s, socks, c)
    ensures StreamAs(e, SendCounted(s, c, 0), socks, c, true)
  {
    var i := s.m.conns[c].connId;
    SendCountedSent(s, c, FramesOf(s.p.coros, DeliveredOn(s, i)), socks[i].accepted);
    SendCountedFields(s, c);
    SentStreams(e, s, SendCounted(s, c, 0), socks, c);
  }

  lemma SendCountedLocal(s: Server, c: nat)
    requires Hosted(s.m, c) && |PortOf(s.r, c).sends| > 0 && PortOf(s.r, c).sends[0].state.SendDone? && s.m.conns[c].outQueue != []
    ensures var v := SendCounted(s, c, 0);
      Hosted(SendOff(s, c, 0).m, c) && LocalTo(s, v, c) && v.p == s.p && v.delivered == s.delivered
  {
    PutTables(s.m, c, SendOff(s, c, 0).m.conns[c]);
  }

  /** A drained context goes back to the pool. */
  lemma RecycledStreams(e: Config, s: Server, t: Server, socks: seq<Sock>, c: nat)
    requires StreamInv(e, s, socks) && LocalTo(s, t, c) && t.p == s.p && t.delivered == s.delivered && c in t.m.idle
    ensures StreamInv(e, t, socks)
  {
    LocalOthers(e, s, t, socks, c);
    SocksFrame(e, s, t, socks);
  }

  /** The invariant of the result says that a calm step armed an operation only where none was outstanding. */
  lemma CalmOnce(e: Config, s: Server, t: Server, c: nat)
    requires Calm(s, t, c) && Settled(e, t)
    ensures PortOf(s.r, c).recvs == [] || PortOf(t.r, c).recvs == PortOf(s.r, c).recvs
    ensures PortOf(s.r, c).sends == [] || PortOf(t.r, c).sends == PortOf(s.r, c).sends
  {
    assert CtxOk(e, t, c);
  }

  lemma ProcessSendStreams(e: Config, s: Server, socks: seq<Sock>, c: nat, j: nat)
    requires Inv(e, s) && StreamInv(e, s, socks)
    requires LiveSend(s, c, j) && PortOf(s.r, c).sends[j].state.SendDone?
    ensures StreamInv(e, ProcessSend(e, s, c, j), socks)
  {
    SendOfActive(e, s, c, j);
    var t := ProcessSend(e, s, c, j);
    if IsActive(s.m, c) {
      var u, v := SendOff(s, c, 0), SendCounted(s, c, 0);
      assert StreamCtx(e, s, socks, c);
      SendCountedStreams(e, s, socks, c);
      SendCountedFields(s, c);
      SendCountedLocal(s, c);
      LocalOthers(e, s, v, socks, c);
      SocksFrame(e, s, v, socks);
      HandleSendCalm(e, u, c, PortOf(s.r, c).sends[0].state.res);
      ActiveProcessSend(e, s, c);
      ProcessSendKeeps(e, s, c, 0);
      CalmOnce(e, v, t, c);
      CalmKeeps(e, v, t, socks, c, true);
    } else {
      DrainedSend(e, s, c, j);
      RecycledStreams(e, s, t, socks, c);
    }
  }

  lemma ActiveProcessSend(e: Config, s: Server, c: nat)
    requires Wf(s.m) && c < |s.m.conns| && |PortOf(s.r, c).sends| == 1 && PortOf(s.r, c).sends[0].state.SendDone?
    requires !s.m.conns[c].closing
    ensures ProcessSend(e, s, c, 0) == HandleSend(e, SendOff(s, c, 0), c, PortOf(s.r, c).sends[0].state.res)
  {
    CountedOff(s.m, c);
  }

  lemma CountedOff(m: Manager, c: nat)
    requires c < |m.conns| && !m.conns[c].closing
    ensures OnComplete(m, c) == (false, Put(m, c, m.conns[c].(inflight := m.conns[c].inflight - 1)))
  {
  }

  lemma DrainedSend(e: Config, s: Server, c: nat, j: nat)
    requires Tables(s.m) && LiveSend(s, c, j) && PortOf(s.r, c).sends[j].state.SendDone?
    requires s.m.conns[c].closing && s.m.conns[c].inflight == 1
    ensures var t := ProcessSend(e, s, c, j);
      LocalTo(s, t, c) && t.p == s.p && t.delivered == s.delivered && c in t.m.idle
  {
    var u := SendOff(s, c, j);
    RecycleLocal(s, u, c);
    assert ProcessSend(e, s, c, j) == u.(m := Recycle(u.m, c));
  }

  lemma RecycleLocal(s: Server, u: Server, c: nat)
    requires Tables(s.m) && c < |s.m.conns| == |u.m.conns| && u.r.bufs == s.r.bufs
    requires u.m == Put(s.m, c, u.m.conns[c]) && u.m.conns[c].fd == s.m.conns[c].fd
    requires forall d :: d != c ==> PortOf(u.r, d) == PortOf(s.r, d)
    ensures var t := u.(m := Recycle(u.m, c)); LocalTo(s, t, c) && c in t.m.idle
  {
    var t := u.(m := Recycle(u.m, c));
    assert t.m.idle == s.m.idle + [c];
    assert t.m.idle[|s.m.idle|] == c;
    assert forall d :: d in t.m.idle <==> d in s.m.idle || d == c;
  }

  // A recv completes.

  /** What was received parses to what was dispatched and what this completion dispatches. */
  lemma ReadMore(g: Registry, x: Context, chunk: Bytes, requests: seq<Request>, received: Bytes, d: Drained)
    requires ReadOk(g, x, chunk, requests, received) && d == Drain(g, x.input + chunk)
    ensures Drain(g, received) == Drained(requests + d.requests, d.closed, d.rest)
  {
    var fed := received[..|received| - |chunk|];
    assert received == fed + chunk;
    DrainChunked(g, fed, chunk);
    ResumeOpen(g, Drain(g, fed), requests, x.input, chunk, d);
  }

  lemma ResumeOpen(g: Registry, before: Drained, requests: seq<Request>, rest: Bytes, chunk: Bytes, d: Drained)
    requires before == Drained(requests, false, rest) && d == Drain(g, rest + chunk)
    ensures Resume(g, before, chunk) == Drained(requests + d.requests, d.closed, d.rest)
  {
  }

  lemma {:induction false} RequestsOfFresh(more: seq<Coro>, connId: nat, requests: seq<Request>, i: nat)
    requires |more| == |requests|
    requires forall k :: 0 <= k < |more| ==> more[k].connId == connId && more[k].request == requests[k]
    ensures RequestsOf(more, i) == if i == connId then requests else []
  {
    if more != [] {
      var n := |more| - 1;
      RequestsOfFresh(more[..n], connId, requests[..n], i);
      assert requests == requests[..n] + [requests[n]];
    }
  }

  lemma DispatchRequests(coros: seq<Coro>, fd: int, connId: nat, requests: seq<Request>, i: nat)
    ensures RequestsOf(coros + Spawn(fd, connId, requests), i) == RequestsOf(coros, i) + if i == connId then requests else []
  {
    forall k | 0 <= k < |requests|
      ensures Spawn(fd, connId, requests)[k] == Coro(fd, connId, requests[k], Waiting, None, [])
    {
      SpawnIndex(fd, connId, requests, k);
    }
    RequestsAppend(coros, Spawn(fd, connId, requests), i);
    RequestsOfFresh(Spawn(fd, connId, requests), connId, requests, i);
  }

  lemma DeliveredKnown(s: Server, i: nat)
    requires DeliveryOk(s)
    ensures forall k :: 0 <= k < |DeliveredOn(s, i)| ==> DeliveredOn(s, i)[k] < |s.p.coros|
  {
    if i in s.delivered {
      assert DeliveredTo(s.p, i, s.delivered[i]);
    }
  }

  lemma DispatchFrames(s: Server, fd: int, connId: nat, requests: seq<Request>, i: nat)
    requires DeliveryOk(s)
    ensures FramesOf(s.p.coros + Spawn(fd, connId, requests), DeliveredOn(s, i)) == FramesOf(s.p.coros, DeliveredOn(s, i))
  {
    DeliveredKnown(s, i);
    FramesSame(s.p.coros, s.p.coros + Spawn(fd, connId, requests), DeliveredOn(s, i));
  }

  /** Contexts other than c do not see what c dispatches. */
  lemma DispatchOthers(e: Config, s: Server, socks: seq<Sock>, c: nat, requests: seq<Request>, rest: Bytes)
    requires Hosted(s.m, c) && DeliveryOk(s) && StreamOthers(e, s, socks, c)
    ensures StreamOthers(e, DispatchAll(s, c, requests, rest), socks, c)
  {
    var t, x := DispatchAll(s, c, requests, rest), s.m.conns[c];
    forall d | 0 <= d < |t.m.conns| && d != c && d !in t.m.idle
      ensures StreamCtx(e, t, socks, d)
    {
      var i := s.m.conns[d].connId;
      assert StreamCtx(e, s, socks, d);
      assert i != x.connId;
      DispatchFrames(s, x.fd, x.connId, requests, i);
      DispatchRequests(s.p.coros, x.fd, x.connId, requests, i);
      assert DeliveredOn(t, i) == DeliveredOn(s, i);
    }
  }

  lemma DispatchSocks(e: Config, s: Server, socks: seq<Sock>, c: nat, requests: seq<Request>, rest: Bytes)
    requires Hosted(s.m, c) && DeliveryOk(s) && Socks(e, s, socks)
    requires var i := s.m.conns[c].connId;
      i < |socks| && RequestsOf(s.p.coros, i) + requests <= Drain(e.registry, socks[i].received).requests
    ensures Socks(e, DispatchAll(s, c, requests, rest), socks)
  {
    var t, x := DispatchAll(s, c, requests, rest), s.m.conns[c];
    forall i | 0 <= i < |socks|
      ensures SockOk(e, t, socks, i)
    {
      assert SockOk(e, s, socks, i);
      DispatchFrames(s, x.fd, x.connId, requests, i);
      DispatchRequests(s.p.coros, x.fd, x.connId, requests, i);
      assert DeliveredOn(t, i) == DeliveredOn(s, i);
    }
  }

  /** The context whose chunk is being handled: its streams, the chunk already in its input. */
  ghost predicate Fed(e: Config, u: Server, socks: seq<Sock>, c: nat, input: Bytes, chunk: Bytes)
    requires c < |u.m.conns|
  {
    var x, p := u.m.conns[c], PortOf(u.r, c);
    && x.connId < |socks| && p.recvs == [] && x.input == input + chunk
    && TargetsOk(x, p, false)
    && SentOk(x, p, FramesOf(u.p.coros, DeliveredOn(u, x.connId)), socks[x.connId].accepted)
    && ReadOk(e.registry, x.(input := input), chunk, RequestsOf(u.p.coros, x.connId), socks[x.connId].received)
  }

  lemma FedDispatch(e: Config, u: Server, socks: seq<Sock>, c: nat, input: Bytes, chunk: Bytes, d: Drained)
    requires Hosted(u.m, c) && DeliveryOk(u) && Fed(e, u, socks, c, input, chunk) && d == Drain(e.registry, input + chunk)
    ensures var v, i := DispatchAll(u, c, d.requests, d.rest), u.m.conns[c].connId;
      && StreamAs(e, v, socks, c, !d.closed) && IsActive(v.m, c)
      && RequestsOf(u.p.coros, i) + d.requests == Drain(e.registry, socks[i].received).requests
  {
    var v, x, p := DispatchAll(u, c, d.requests, d.rest), u.m.conns[c], PortOf(u.r, c);
    var i := x.connId;
    ReadMore(e.registry, x.(input := input), chunk, RequestsOf(u.p.coros, i), socks[i].received, d);
    DispatchFrames(u, x.fd, i, d.requests, i);
    DispatchRequests(u.p.coros, x.fd, i, d.requests, i);
    assert DeliveredOn(v, i) == DeliveredOn(u, i);
    FedStreams(e.registry, x, v.m.conns[c], p, FramesOf(u.p.coros, DeliveredOn(u, i)), RequestsOf(v.p.coros, i), socks[i], d);
    StreamIntro(e, v, socks, c, !d.closed, [], FramesOf(u.p.coros, DeliveredOn(u, i)), RequestsOf(v.p.coros, i));
  }

  lemma FedStreams(g: Registry, x: Context, y: Context, p: Port, frames: seq<Bytes>, requests: seq<Request>, sock: Sock, d: Drained)
    requires TargetsOk(x, p, false) && SentOk(x, p, frames, sock.accepted)
    requires Drain(g, sock.received) == Drained(requests, d.closed, d.rest)
    requires y.connId == x.connId && y.outQueue == x.outQueue && y.written == x.written && y.input == d.rest
    ensures Streams(g, y, p, !d.closed, false, [], frames, requests, sock)
  {
    assert sock.received[..|sock.received| - 0] == sock.received;
  }

  lemma HandleDataCalm(e: Config, u: Server, c: nat, d: Drained)
    requires Hosted(u.m, c) && d == Drain(e.registry, u.m.conns[c].input)
    ensures var v := DispatchAll(u, c, d.requests, d.rest);
      && Hosted(v.m, c) && Calm(v, HandleData(e, u, c), c)
      && (d.closed ==> !IsActive(HandleData(e, u, c).m, c))
  {
    var v := DispatchAll(u, c, d.requests, d.rest);
    PutTables(u.m, c, v.m.conns[c]);
    if d.closed {
      CloseCalm(v, c);
    } else {
      ReadOnCalm(e, v, c);
    }
  }

  lemma HandleDataStreams(e: Config, u: Server, socks: seq<Sock>, c: nat, input: Bytes, chunk: Bytes)
    requires Hosted(u.m, c) && DeliveryOk(u) && Fed(e, u, socks, c, input, chunk)
    requires StreamOthers(e, u, socks, c) && Socks(e, u, socks) && Unused(u, socks)
    requires Settled(e, HandleData(e, u, c))
    ensures StreamInv(e, HandleData(e, u, c), socks)
  {
    var d := Drain(e.registry, u.m.conns[c].input);
    var v, t := DispatchAll(u, c, d.requests, d.rest), HandleData(e, u, c);
    FedDispatch(e, u, socks, c, input, chunk, d);
    DispatchOthers(e, u, socks, c, d.requests, d.rest);
    DispatchSocks(e, u, socks, c, d.requests, d.rest);
    HandleDataCalm(e, u, c, d);
    CalmOnce(e, v, t, c);
    CalmKeeps(e, v, t, socks, c, !d.closed);
  }

  lemma RecvOffFields(s: Server, c: nat)
    requires Hosted(s.m, c) && |PortOf(s.r, c).recvs| == 1 && PortOf(s.r, c).recvs[0].state.RecvDone? && !s.m.conns[c].closing
    ensures var u, x, p := RecvOff(s, c, 0), s.m.conns[c], PortOf(s.r, c);
      && Hosted(u.m, c) && LocalTo(s, u, c) && u.p == s.p && u.delivered == s.delivered
      && u.m.conns[c] == x.(input := x.input + Arrivals(s.r.bufs, p), inflight := x.inflight - 1)
      && PortOf(u.r, c) == p.(recvs := [])
  {
    assert RemoveAt(PortOf(s.r, c).recvs, 0) == [];
    RecvOffOwn(s, c);
    PutTables(s.m, c, RecvOff(s, c, 0).m.conns[c]);
  }

  lemma RecvOffOwn(s: Server, c: nat)
    requires c < |s.m.conns| && |PortOf(s.r, c).recvs| == 1 && PortOf(s.r, c).recvs[0].state.RecvDone? && !s.m.conns[c].closing
    ensures var u, x, p := RecvOff(s, c, 0), s.m.conns[c], PortOf(s.r, c);
      && u.m == Put(s.m, c, x.(input := x.input + Arrivals(s.r.bufs, p), inflight := x.inflight - 1))
      && PortOf(u.r, c) == p.(recvs := []) && u.r.bufs == s.r.bufs && u.p == s.p && u.delivered == s.delivered
      && (forall d :: d != c ==> PortOf(u.r, d) == PortOf(s.r, d))
  {
    assert RemoveAt(PortOf(s.r, c).recvs, 0) == [];
  }

  lemma FedParts(g: Registry, x: Context, y: Context, p: Port, q: Port, frames: seq<Bytes>, requests: seq<Request>, sock: Sock, chunk: Bytes)
    requires Streams(g, x, p, true, false, chunk, frames, requests, sock)
    requires y == x.(input := x.input + chunk, inflight := y.inflight) && q == p.(recvs := [])
    ensures TargetsOk(y, q, false) && SentOk(y, q, frames, sock.accepted)
    ensures ReadOk(g, y.(input := x.input), chunk, requests, sock.received)
  {
  }

  lemma FedIntro(e: Config, s: Server, u: Server, socks: seq<Sock>, c: nat, chunk: Bytes)
    requires c < |s.m.conns| && c < |u.m.conns| && StreamAs(e, s, socks, c, true) && !Dead(s.m, c)
    requires u.p == s.p && u.delivered == s.delivered && chunk == Arrivals(s.r.bufs, PortOf(s.r, c))
    requires u.m.conns[c] == s.m.conns[c].(input := s.m.conns[c].input + chunk, inflight := u.m.conns[c].inflight)
    requires PortOf(u.r, c) == PortOf(s.r, c).(recvs := [])
    ensures Fed(e, u, socks, c, s.m.conns[c].input, chunk)
  {
    var i := s.m.conns[c].connId;
    FedParts(e.registry, s.m.conns[c], u.m.conns[c], PortOf(s.r, c), PortOf(u.r, c),
             FramesOf(s.p.coros, DeliveredOn(s, i)), RequestsOf(s.p.coros, i), socks[i], chunk);
    assert DeliveredOn(u, i) == DeliveredOn(s, i);
  }

  lemma RecvOffFed(e: Config, s: Server, socks: seq<Sock>, c: nat)
    requires Hosted(s.m, c) && |PortOf(s.r, c).recvs| == 1 && PortOf(s.r, c).recvs[0].state.RecvDone? && !s.m.conns[c].closing
    requires StreamCtx(e, s, socks, c)
    ensures Fed(e, RecvOff(s, c, 0), socks, c, s.m.conns[c].input, Arrivals(s.r.bufs, PortOf(s.r, c)))
  {
    RecvOffFields(s, c);
    FedIntro(e, s, RecvOff(s, c, 0), socks, c, Arrivals(s.r.bufs, PortOf(s.r, c)));
  }

  lemma RecvOfActive(e: Config, s: Server, c: nat, j: nat)
    requires Inv(e, s) && LiveRecv(s, c, j) && PortOf(s.r, c).recvs[j].state.RecvDone?
    ensures c !in s.m.idle && j == 0 && |PortOf(s.r, c).recvs| == 1 && RecvOk(PortOf(s.r, c).recvs[0])
    ensures if IsActive(s.m, c) then !s.m.conns[c].closing else s.m.conns[c].closing && s.m.conns[c].inflight == 1
  {
    assert CtxOk(e, s, c);
  }

  /** A recv that carried nothing: end of file, an error, or no buffer. */
  lemma NoDataStreams(e: Config, u: Server, socks: seq<Sock>, c: nat, res: int)
    requires Hosted(u.m, c) && Fed(e, u, socks, c, u.m.conns[c].input, []) && res <= 0 && !u.m.conns[c].closing
    requires StreamOthers(e, u, socks, c) && Socks(e, u, socks) && Unused(u, socks)
    requires Settled(e, HandleRecv(e, u, c, res))
    ensures StreamInv(e, HandleRecv(e, u, c, res), socks)
  {
    var x := u.m.conns[c];
    var t := HandleRecv(e, u, c, res);
    StreamIntro(e, u, socks, c, true, [], FramesOf(u.p.coros, DeliveredOn(u, x.connId)), RequestsOf(u.p.coros, x.connId));
    RearmRecvCalm(e, u, c);
    CloseCalm(u, c);
    assert t == RearmRecv(e, u, x.fd) || t == CloseConn(u, x.fd);
    CalmOnce(e, u, t, c);
    CalmKeeps(e, u, t, socks, c, true);
  }

  lemma DrainedRecv(e: Config, s: Server, c: nat)
    requires Tables(s.m) && LiveRecv(s, c, 0) && PortOf(s.r, c).recvs[0].state.RecvDone? && RecvOk(PortOf(s.r, c).recvs[0])
    requires s.m.conns[c].closing && s.m.conns[c].inflight == 1
    ensures var t := ProcessRecv(e, s, c, 0);
      LocalTo(s, t, c) && t.p == s.p && t.delivered == s.delivered && c in t.m.idle
  {
    ProcessRecvIs(e, s, c, 0);
    RecycleLocal(s, RecvOff(s, c, 0), c);
  }

  lemma ProcessRecvStreams(e: Config, s: Server, socks: seq<Sock>, c: nat, j: nat)
    requires Inv(e, s) && StreamInv(e, s, socks)
    requires LiveRecv(s, c, j) && PortOf(s.r, c).recvs[j].state.RecvDone?
    ensures StreamInv(e, ProcessRecv(e, s, c, j), socks)
  {
    RecvOfActive(e, s, c, j);
    var t := ProcessRecv(e, s, c, 0);
    if IsActive(s.m, c) {
      ActiveRecvStreams(e, s, socks, c);
    } else {
      DrainedRecv(e, s, c);
      RecycledStreams(e, s, t, socks, c);
    }
  }

  lemma ActiveRecvStreams(e: Config, s: Server, socks: seq<Sock>, c: nat)
    requires Inv(e, s) && StreamInv(e, s, socks) && LiveRecv(s, c, 0) && IsActive(s.m, c) && !s.m.conns[c].closing
    requires |PortOf(s.r, c).recvs| == 1 && PortOf(s.r, c).recvs[0].state.RecvDone? && RecvOk(PortOf(s.r, c).recvs[0])
    ensures StreamInv(e, ProcessRecv(e, s, c, 0), socks)
  {
    var u, res, chunk := RecvOff(s, c, 0), PortOf(s.r, c).recvs[0].state.res, Arrivals(s.r.bufs, PortOf(s.r, c));
    assert StreamCtx(e, s, socks, c);
    ProcessRecvIs(e, s, c, 0);
    ProcessRecvKeeps(e, s, c, 0);
    RecvOffFields(s, c);
    RecvOffFed(e, s, socks, c);
    LocalOthers(e, s, u, socks, c);
    SocksFrame(e, s, u, socks);
    if res > 0 {
      HandleDataStreams(e, u, socks, c, s.m.conns[c].input, chunk);
    } else {
      assert s.m.conns[c].input + chunk == s.m.conns[c].input;
      NoDataStreams(e, u, socks, c, res);
    }
  }

  // Coroutines resume.

  lemma MarkStreams(e: Config, s: Server, socks: seq<Sock>)
    requires StreamInv(e, s, socks) && DeliveryOk(s) && s.p.resuming != [] && s.p.resuming[0] < |s.p.coros|
    ensures StreamInv(e, MarkFirst(s), socks)
  {
    var t := MarkFirst(s);
    forall i: nat
      ensures FramesOf(t.p.coros, DeliveredOn(s, i)) == FramesOf(s.p.coros, DeliveredOn(s, i))
      ensures RequestsOf(t.p.coros, i) == RequestsOf(s.p.coros, i)
    {
      DeliveredKnown(s, i);
      FramesSame(s.p.coros, t.p.coros, DeliveredOn(s, i));
      RequestsSame(s.p.coros, t.p.coros, i);
    }
    PoolFrame(e, s, t, socks, -1);
  }

  lemma FramesSnoc(coros: seq<Coro>, ids: seq<nat>, co: nat)
    requires co < |coros|
    ensures FramesOf(coros, ids + [co]) == FramesOf(coros, ids) + [coros[co].frame]
  {
    var a, b := FramesOf(coros, ids + [co]), FramesOf(coros, ids) + [coros[co].frame];
    forall k | 0 <= k < |a|
      ensures a[k] == b[k]
    {
      assert (ids + [co])[k] == if k < |ids| then ids[k] else co;
    }
  }

  /** Queueing one more frame. */
  lemma SentQueue(x: Context, y: Context, p: Port, frames: seq<Bytes>, frame: Bytes, accepted: Bytes)
    requires SentOk(x, p, frames, accepted)
    requires y.outQueue == x.outQueue + [frame] && y.written == x.written
    requires x.outQueue == [] ==> x.written == 0
    ensures SentOk(y, p, frames + [frame], accepted)
  {
    var n := |frames| - |x.outQueue|;
    assert (frames + [frame])[..n] == frames[..n];
    assert (frames + [frame])[n..] == frames[n..] + [frame];
    assert Partial(y) == Partial(x);
  }

  lemma QueueStreams(e: Config, s: Server, socks: seq<Sock>, c: nat, co: nat)
    requires Hosted(s.m, c) && co < |s.p.coros| && StreamCtx(e, s, socks, c)
    requires s.m.conns[c].outQueue == [] ==> s.m.conns[c].written == 0
    ensures StreamAs(e, WithFrame(s, c, co), socks, c, true)
  {
    var t, x, p := WithFrame(s, c, co), s.m.conns[c], PortOf(s.r, c);
    var i, frame := x.connId, s.p.coros[co].frame;
    var frames := FramesOf(s.p.coros, DeliveredOn(s, i));
    FramesSnoc(s.p.coros, DeliveredOn(s, i), co);
    assert DeliveredOn(t, i) == DeliveredOn(s, i) + [co];
    SentQueue(x, t.m.conns[c], p, frames, frame, socks[i].accepted);
    QueuedStreams(e.registry, x, t.m.conns[c], p, Arrivals(s.r.bufs, p), frames + [frame], RequestsOf(s.p.coros, i), socks[i]);
    StreamIntro(e, t, socks, c, true, Arrivals(s.r.bufs, p), frames + [frame], RequestsOf(s.p.coros, i));
  }

  lemma QueuedStreams(g: Registry, x: Context, y: Context, p: Port, arrivals: Bytes, frames: seq<Bytes>, requests: seq<Request>, sock: Sock)
    requires TargetsOk(x, p, false) && SentOk(y, p, frames, sock.accepted)
    requires ReadOk(g, x, arrivals, requests, sock.received) && y.input == x.input && y.connId == x.connId
    ensures Streams(g, y, p, true, false, arrivals, frames, requests, sock)
  {
  }

  lemma QueueOthers(e: Config, s: Server, socks: seq<Sock>, c: nat, co: nat)
    requires Hosted(s.m, c) && co < |s.p.coros| && StreamOthers(e, s, socks, c)
    ensures StreamOthers(e, WithFrame(s, c, co), socks, c)
  {
    var t := WithFrame(s, c, co);
    forall d | 0 <= d < |t.m.conns| && d != c && d !in t.m.idle
      ensures StreamCtx(e, t, socks, d)
    {
      assert StreamCtx(e, s, socks, d);
      WithFrameOther(s, c, co, d);
      QueueOther(e, s, t, socks, d);
    }
  }

  lemma WithFrameOther(s: Server, c: nat, co: nat, d: nat)
    requires Hosted(s.m, c) && co < |s.p.coros| && d < |s.m.conns| && d != c && d !in s.m.idle
    ensures var t := WithFrame(s, c, co);
      && t.m.conns[d] == s.m.conns[d] && t.r == s.r && t.p == s.p && t.m.active == s.m.active && t.m.os == s.m.os
      && DeliveredOn(t, s.m.conns[d].connId) == DeliveredOn(s, s.m.conns[d].connId)
  {
  }

  lemma QueueOther(e: Config, s: Server, t: Server, socks: seq<Sock>, d: nat)
    requires d < |s.m.conns| && d < |t.m.conns| && StreamCtx(e, s, socks, d) && t.m.conns[d] == s.m.conns[d]
    requires t.r == s.r && t.p == s.p && t.m.active == s.m.active && t.m.os == s.m.os
    requires DeliveredOn(t, s.m.conns[d].connId) == DeliveredOn(s, s.m.conns[d].connId)
    ensures StreamCtx(e, t, socks, d)
  {
  }

  lemma QueueSocks(e: Config, s: Server, socks: seq<Sock>, c: nat, co: nat)
    requires Hosted(s.m, c) && co < |s.p.coros| && Socks(e, s, socks)
    ensures Socks(e, WithFrame(s, c, co), socks)
  {
    var t, x := WithFrame(s, c, co), s.m.conns[c];
    forall i | 0 <= i < |socks|
      ensures SockOk(e, t, socks, i)
    {
      assert SockOk(e, s, socks, i);
      if i == x.connId {
        FramesSnoc(s.p.coros, DeliveredOn(s, i), co);
        assert DeliveredOn(t, i) == DeliveredOn(s, i) + [co];
        ConcatSnoc(FramesOf(s.p.coros, DeliveredOn(s, i)), s.p.coros[co].frame);
      } else {
        assert DeliveredOn(t, i) == DeliveredOn(s, i);
      }
    }
  }

  lemma ResumeRoutedStreams(e: Config, s: Server, socks: seq<Sock>)
    requires Settled(e, s) && s.p.resuming != [] && StreamInv(e, MarkFirst(s), socks)
    requires s.p.coros[s.p.resuming[0]].frame != [] && Routed(s, s.p.coros[s.p.resuming[0]])
    requires Settled(e, ResumeFirst(e, s))
    ensures StreamInv(e, ResumeFirst(e, s), socks)
  {
    var co := s.p.resuming[0];
    var c := s.m.active[s.p.coros[co].fd];
    assert CtxOk(e, s, c);
    assert ResumeFirst(e, s) == DeliverResponse(e, MarkFirst(s), co);
    DeliverStreams(e, MarkFirst(s), socks, c, co);
  }

  lemma ResumeFirstStreams(e: Config, s: Server, socks: seq<Sock>)
    requires Settled(e, s) && StreamInv(e, s, socks) && s.p.resuming != []
    requires Settled(e, ResumeFirst(e, s))
    ensures StreamInv(e, ResumeFirst(e, s), socks)
  {
    var k := s.p.coros[s.p.resuming[0]];
    MarkStreams(e, s, socks);
    if k.frame == [] || !Routed(s, k) {
      assert ResumeFirst(e, s) == MarkFirst(s);
    } else {
      ResumeRoutedStreams(e, s, socks);
    }
  }

  lemma DeliverStreams(e: Config, s: Server, socks: seq<Sock>, c: nat, co: nat)
    requires Hosted(s.m, c) && co < |s.p.coros| && StreamInv(e, s, socks)
    requires var x, k := s.m.conns[c], s.p.coros[co];
      && k.fd == x.fd && k.connId == x.connId && k.frame != []
      && (if x.outQueue == [] then x.written == 0 else x.written < |x.outQueue[0]|)
    requires Settled(e, DeliverResponse(e, s, co))
    ensures StreamInv(e, DeliverResponse(e, s, co), socks)
  {
    var u, t := WithFrame(s, c, co), DeliverResponse(e, s, co);
    assert c !in s.m.idle;
    assert StreamCtx(e, s, socks, c);
    QueueStreams(e, s, socks, c, co);
    QueueOthers(e, s, socks, c, co);
    QueueSocks(e, s, socks, c, co);
    DeliverCalm(e, s, c, co);
    CalmOnce(e, u, t, c);
    CalmKeeps(e, u, t, socks, c, true);
  }

  lemma DeliverCalm(e: Config, s: Server, c: nat, co: nat)
    requires Hosted(s.m, c) && co < |s.p.coros|
    requires var x, k := s.m.conns[c], s.p.coros[co];
      && k.fd == x.fd && k.connId == x.connId && k.frame != []
      && (if x.outQueue == [] then x.written == 0 else x.written < |x.outQueue[0]|)
    ensures Calm(WithFrame(s, c, co), DeliverResponse(e, s, co), c)
  {
    var u := WithFrame(s, c, co);
    PutTables(s.m, c, u.m.conns[c]);
    if u.m.conns[c].sending {
      PutSame(u.m, c);
      PutCalm(u, c, u.m.conns[c]);
    } else {
      SubmitSendCalm(e, u, c);
      ThenClose(u, SubmitSend(e, u, u.m.conns[c].fd).1, c);
    }
  }

  lemma {:induction false} ResumeAllStreams(e: Config, s: Server, socks: seq<Sock>)
    requires Settled(e, s) && StreamInv(e, s, socks)
    ensures StreamInv(e, ResumeAll(e, s), socks)
    decreases |s.p.resuming|
  {
    if s.p.resuming != [] {
      ResumeFirstKeeps(e, s);
      ResumeFirstStreams(e, s, socks);
      ResumeAllStreams(e, ResumeFirst(e, s), socks);
    }
  }
}
