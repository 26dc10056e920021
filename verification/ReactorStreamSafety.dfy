/** Byte-stream correctness of every clean run. */
module ReactorStreamSafety {
  import opened ByteStrings
  import opened Wire
  import opened Reactor
  import opened ReactorRun
  import opened ReactorInvariant
  import opened ReactorHandlers
  import opened ReactorSafety
  import opened ReactorStreams
  import opened ReactorStreamRun
  import opened ReactorStreamKernel

  // Transfers.

  lemma NoBytes(socks: seq<Sock>, i: nat)
    requires i < |socks|
    ensures Receive(socks, i, []) == socks && Transmit(socks, i, []) == socks
  {
    assert socks[i].received + [] == socks[i].received && socks[i].accepted + [] == socks[i].accepted;
    assert socks[i := socks[i]] == socks;
  }

  /** A recv in the kernel reads from its context's own socket. */
  lemma RecvTarget(e: Config, s: Server, socks: seq<Sock>, c: nat, j: nat)
    requires Settled(e, s) && StreamInv(e, s, socks) && LiveRecv(s, c, j) && PortOf(s.r, c).recvs[j].state.RecvWaiting?
    ensures j == 0 && |PortOf(s.r, c).recvs| == 1 && c !in s.m.idle && s.m.conns[c].connId < |socks|
    ensures var target := PortOf(s.r, c).recvs[j].state.target; target.Socket? ==> target.sock == s.m.conns[c].connId
  {
    AtMostOne(e, s, c);
    assert StreamCtx(e, s, socks, c);
  }

  lemma SendTarget(e: Config, s: Server, socks: seq<Sock>, c: nat, j: nat)
    requires Settled(e, s) && StreamInv(e, s, socks) && LiveSend(s, c, j) && PortOf(s.r, c).sends[j].state.SendWaiting?
    ensures j == 0 && |PortOf(s.r, c).sends| == 1 && c !in s.m.idle && s.m.conns[c].connId < |socks|
    ensures var target := PortOf(s.r, c).sends[j].state.target; target.Socket? ==> target.sock == s.m.conns[c].connId
  {
    AtMostOne(e, s, c);
    assert StreamCtx(e, s, socks, c);
  }

  /** A recv that failed without taking a buffer. */
  lemma RecvFailedStreams(e: Config, s: Server, socks: seq<Sock>, c: nat, res: int)
    requires Settled(e, s) && StreamInv(e, s, socks) && LiveRecv(s, c, 0) && PortOf(s.r, c).recvs[0].state.RecvWaiting?
    requires |PortOf(s.r, c).recvs| == 1 && c !in s.m.idle && s.m.conns[c].connId < |socks| && res <= 0
    ensures StreamInv(e, PostRecv(s, c, 0, res, None, []), socks)
  {
    var t := PostRecv(s, c, 0, res, None, []);
    NoBytes(socks, s.m.conns[c].connId);
    assert StreamCtx(e, s, socks, c);
    PostRecvCtx(e, s, t, socks, socks, c, []);
    KernelOthers(e, s, t, socks, socks, c);
    ReceivedStreams(e, s, t, socks, socks, c, []);
  }

  lemma RecvFailStreams(e: Config, s: Server, socks: seq<Sock>, c: nat, j: nat, res: int, lent: Option<nat>)
    requires Settled(e, s) && StreamInv(e, s, socks) && LiveRecv(s, c, j) && PortOf(s.r, c).recvs[j].state.RecvWaiting?
    requires res <= 0 && CanLend(s.r, lent)
    ensures StreamInv(e, PostRecv(s, c, j, res, lent, []), socks)
  {
    RecvTarget(e, s, socks, c, j);
    NoBytes(socks, s.m.conns[c].connId);
    if lent.None? {
      RecvFailedStreams(e, s, socks, c, res);
    } else {
      PostRecvStreams(e, s, socks, c, res, lent.value, []);
    }
  }

  lemma RecvDataStreams(e: Config, s: Server, socks: seq<Sock>, c: nat, j: nat, data: Bytes, bid: nat, i: nat)
    requires Settled(e, s) && StreamInv(e, s, socks) && LiveRecv(s, c, j)
    requires PortOf(s.r, c).recvs[j].state == RecvWaiting(Socket(i)) && i < |socks|
    requires 0 < |data| <= BUF_SIZE && CanLend(s.r, Some(bid))
    ensures StreamInv(e, PostRecv(s, c, j, |data|, Some(bid), data), Receive(socks, i, data))
  {
    RecvTarget(e, s, socks, c, j);
    PostRecvStreams(e, s, socks, c, |data|, bid, data);
  }

  lemma SendDataStreams(e: Config, s: Server, socks: seq<Sock>, c: nat, j: nat, n: nat, i: nat)
    requires Inv(e, s) && StreamInv(e, s, socks) && LiveSend(s, c, j)
    requires PortOf(s.r, c).sends[j].state == SendWaiting(Socket(i)) && i < |socks|
    requires 0 < n <= |PortOf(s.r, c).sends[j].data|
    ensures StreamInv(e, PutSend(s, c, j, SendDone(n)), Transmit(socks, i, PortOf(s.r, c).sends[j].data[..n]))
  {
    SendTarget(e, s, socks, c, j);
    PostSendStreams(e, s, socks, c, n);
  }

  lemma SendFailStreams(e: Config, s: Server, socks: seq<Sock>, c: nat, j: nat, res: int)
    requires Inv(e, s) && StreamInv(e, s, socks) && LiveSend(s, c, j)
    requires PortOf(s.r, c).sends[j].state.SendWaiting? && res <= 0
    ensures StreamInv(e, PutSend(s, c, j, SendDone(res)), socks)
  {
    SendTarget(e, s, socks, c, j);
    NoBytes(socks, s.m.conns[c].connId);
    PostSendStreams(e, s, socks, c, res);
  }

  // A connection lands.

  /** No entry of a closed connection still names the descriptor that the kernel hands out. */
  lemma LandedTargets(e: Config, s: Server, fd: int, d: nat)
    requires d < |s.m.conns| && d !in s.m.idle && CtxOk(e, s, d) && !Named(s.r, fd)
    requires TargetsOk(s.m.conns[d], PortOf(s.r, d), Dead(s.m, d)) && fd !in s.m.os.files
    ensures TargetsOk(s.m.conns[d], PortOf(s.r, d), Dead(Land(s, fd, s.m.nextId).m, d))
  {
    var p := PortOf(s.r, d);
    if s.m.conns[d].fd == fd && d in s.r.ports {
      assert !NamedBy(p, fd);
      assert forall k :: 0 <= k < |p.recvs| ==> p.recvs[k].fd == fd;
      forall k | 0 <= k < |p.recvs| && p.recvs[k].state.RecvWaiting?
        ensures p.recvs[k].state.target != Queued
      {
        assert p.recvs[k] == RecvOp(fd, RecvWaiting(p.recvs[k].state.target));
      }
    }
  }

  lemma LandedCtx(e: Config, s: Server, socks: seq<Sock>, fd: int, d: nat)
    requires d < |s.m.conns| && d !in s.m.idle && CtxOk(e, s, d) && !Named(s.r, fd) && fd !in s.m.os.files
    requires StreamCtx(e, s, socks, d)
    ensures StreamCtx(e, Land(s, fd, s.m.nextId), socks + [Sock([], [])], d)
  {
    var t, x := Land(s, fd, s.m.nextId), s.m.conns[d];
    LandedTargets(e, s, fd, d);
    assert DeliveredOn(t, x.connId) == DeliveredOn(s, x.connId);
    assert (socks + [Sock([], [])])[x.connId] == socks[x.connId];
    StreamIntro(e, t, socks + [Sock([], [])], d, IsActive(s.m, d), Arrivals(s.r.bufs, PortOf(s.r, d)),
                FramesOf(s.p.coros, DeliveredOn(s, x.connId)), RequestsOf(s.p.coros, x.connId));
  }

  lemma LandedSocks(e: Config, s: Server, t: Server, socks: seq<Sock>, socks': seq<Sock>)
    requires CorosOk(s) && Socks(e, s, socks) && |socks| == s.m.nextId
    requires t.p == s.p && t.delivered == s.delivered
    requires |socks'| == |socks| + 1 && socks'[|socks|] == Sock([], []) && forall i :: 0 <= i < |socks| ==> socks'[i] == socks[i]
    ensures Socks(e, t, socks')
  {
    NoRequests(s.p.coros, s.m.nextId);
    forall i | 0 <= i < |socks'|
      ensures SockOk(e, t, socks', i)
    {
      assert DeliveredOn(t, i) == DeliveredOn(s, i);
      if i < |socks| {
        assert SockOk(e, s, socks, i);
      } else {
        NothingExchanged(e.registry, FramesOf(t.p.coros, DeliveredOn(t, i)));
      }
    }
  }

  lemma NothingExchanged(g: Registry, frames: seq<Bytes>)
    ensures Exchanged(g, frames, [], Sock([], []))
  {
  }

  lemma LandedStreams(e: Config, s: Server, socks: seq<Sock>, fd: int)
    requires Settled(e, s) && StreamInv(e, s, socks) && |socks| == s.m.nextId
    requires fd !in s.m.os.files && !Named(s.r, fd)
    ensures StreamInv(e, Land(s, fd, s.m.nextId), socks + [Sock([], [])])
  {
    var t := Land(s, fd, s.m.nextId);
    forall d | 0 <= d < |t.m.conns| && d !in t.m.idle
      ensures StreamCtx(e, t, socks + [Sock([], [])], d)
    {
      assert StreamCtx(e, s, socks, d) && CtxOk(e, s, d);
      LandedCtx(e, s, socks, fd, d);
    }
    LandedSocks(e, s, t, socks, socks + [Sock([], [])]);
  }

  lemma KernelStreams(e: Config, w: World, ev: KernelEvent)
    requires RunInv(e, w) && StreamInv(e, w.s, w.socks) && KernelEnabled(w, ev)
    requires ev.AcceptConn? ==> !Named(w.s.r, ev.fd)
    ensures StreamInv(e, KernelNext(w, ev).s, KernelNext(w, ev).socks)
  {
    match ev
    case RecvData(c, j, data, bid) =>
      RecvDataStreams(e, w.s, w.socks, c, j, data, bid, w.s.r.ports[c].recvs[j].state.target.sock);
    case RecvFail(c, j, res, lent) => RecvFailStreams(e, w.s, w.socks, c, j, res, lent);
    case SendData(c, j, n) => SendDataStreams(e, w.s, w.socks, c, j, n, w.s.r.ports[c].sends[j].state.target.sock);
    case SendFail(c, j, res) => SendFailStreams(e, w.s, w.socks, c, j, res);
    case AcceptConn(fd) => LandedStreams(e, w.s, w.socks, fd);
    case AcceptFail(res) => SamePool(e, w.s, AcceptPosted(w.s, res), w.socks);
    case NotifyRead => SamePool(e, w.s, NotifyPosted(w.s), w.socks);
    case NotifySpurious => SamePool(e, w.s, NotifyPosted(w.s), w.socks);
  }

  // Workers.

  /** A coroutine that has not resumed moves on: nothing delivered or requested changes. */
  lemma CoroStepStreams(e: Config, s: Server, p': Pool, socks: seq<Sock>, co: nat)
    requires DeliveryOk(s) && StreamInv(e, s, socks) && co < |s.p.coros| && |p'.coros| == |s.p.coros|
    requires !s.p.coros[co].state.Resumed? && p'.coros == s.p.coros[co := p'.coros[co]]
    requires p'.coros[co].connId == s.p.coros[co].connId && p'.coros[co].request == s.p.coros[co].request
    ensures StreamInv(e, s.(p := p'), socks)
  {
    forall i: nat
      ensures FramesOf(p'.coros, DeliveredOn(s, i)) == FramesOf(s.p.coros, DeliveredOn(s, i))
      ensures RequestsOf(p'.coros, i) == RequestsOf(s.p.coros, i)
    {
      UndeliveredFrames(s, p', co, i);
      RequestsSame(s.p.coros, p'.coros, i);
    }
    PoolFrame(e, s, s.(p := p'), socks, -1);
  }

  lemma UndeliveredFrames(s: Server, p': Pool, co: nat, i: nat)
    requires DeliveryOk(s) && co < |s.p.coros| && |p'.coros| == |s.p.coros|
    requires !s.p.coros[co].state.Resumed? && p'.coros == s.p.coros[co := p'.coros[co]]
    ensures FramesOf(p'.coros, DeliveredOn(s, i)) == FramesOf(s.p.coros, DeliveredOn(s, i))
  {
    if i in s.delivered {
      assert DeliveredTo(s.p, i, s.delivered[i]);
    }
    FramesSame(s.p.coros, p'.coros, DeliveredOn(s, i));
  }

  lemma WorkerStreams(e: Config, w: World, ev: WorkerEvent)
    requires RunInv(e, w) && StreamInv(e, w.s, w.socks) && WorkerEnabled(w, ev)
    ensures StreamInv(e, WorkerNext(w, ev).s, w.socks) && WorkerNext(w, ev).socks == w.socks
  {
    match ev
    case PopTask => CoroStepStreams(e, w.s, Start(w.s.p), w.socks, w.s.p.tasks[0]);
    case RunDone(co, result) => CoroStepStreams(e, w.s, Finish(w.s.p, co, result), w.socks, co);
    case PushReady(co) => CoroStepStreams(e, w.s, Push(w.s.p, co), w.socks, co);
    case WriteEventfd =>
    case StopPool =>
    case WorkerExit =>
  }

  // Runs.

  ghost predicate CleanOk(e: Config, w: World) {
    RunInv(e, w) && (w.clean ==> StreamInv(e, w.s, w.socks))
  }

  lemma CleanStep(e: Config, w: World, ev: Event, w': World)
    requires CleanOk(e, w) && Step(e, w, ev, w')
    ensures CleanOk(e, w')
  {
    AfterStep(e, w, ev, w');
    if w'.clean {
      match ev
      case Kernel(k) => KernelStreams(e, w, k);
      case Loop(l) => LoopStreams(e, w, l);
      case Worker(v) => WorkerStreams(e, w, v);
    }
  }

  lemma BeginStreams(e: Config, w: World)
    requires Initial(w)
    ensures StreamInv(e, w.s, w.socks)
  {
    NothingExchanged(e.registry, FramesOf(w.s.p.coros, DeliveredOn(w.s, 0)));
    assert RequestsOf(w.s.p.coros, 0) == [];
  }

  lemma {:induction false} RunsKeepClean(e: Config, evs: seq<Event>, w: World)
    requires Leads(e, evs, w)
    ensures CleanOk(e, w)
    decreases |evs|
  {
    if evs == [] {
      BeginOk(e, w);
      BeginStreams(e, w);
    } else {
      var w0 :| LeadsVia(e, evs, w0, w);
      RunsKeepClean(e, evs[..|evs| - 1], w0);
      CleanStep(e, w0, evs[|evs| - 1], w);
    }
  }

  /** The byte streams are right in every reachable world whose run was clean. */
  lemma ReachableClean(e: Config, w: World)
    requires Reachable(e, w)
    ensures CleanOk(e, w)
  {
    var evs :| Leads(e, evs, w);
    RunsKeepClean(e, evs, w);
  }
}
