/**
  A run in which a response goes out on the wrong connection, for any provider and any request it accepts.

  Connection 1 sends one request and shuts down; its response is queued for sending in the same batch in which the
  loop sees the shutdown and closes the descriptor; before the next flush the kernel accepts connection 2 under the
  same descriptor. The queued send then carries connection 1's response to connection 2.
 */
module ReactorStaleRun {
  import opened ByteStrings
  import opened Wire
  import opened Connections
  import opened Reactor
  import opened ReactorRun
  import opened ReactorSafety
  import opened ReactorFeed
  import opened ReactorAnswer

  function Shutdown(): RecvState {
    RecvDone(0, None)
  }

  /** The peer has shut down: the recv has ended as well as the eventfd read. */
  lemma ShutdownPosted(e: Config, p: Pool, received: Bytes, free: multiset<nat>, bufs: seq<Bytes>, calls: nat)
    requires Reachable(e, Computing(p, received, RecvWaiting(Socket(1)), [NotifyDone], free, bufs, calls)) && PoolWf(p)
    ensures Reachable(e, Computing(p, received, Shutdown(), [NotifyDone], free, bufs, calls))
  {
    var w := Computing(p, received, RecvWaiting(Socket(1)), [NotifyDone], free, bufs, calls);
    assert Receiving(Socket(1)).recvs[0 := RecvOp(FD, Shutdown())] == [RecvOp(FD, Shutdown())];
    assert PutRecv(w.s, 0, 0, Shutdown()).r.ports == map[0 := Port([RecvOp(FD, Shutdown())], [])];
    OneStep(e, w, Kernel(RecvFail(0, 0, 0, None)), Computing(p, received, Shutdown(), [NotifyDone], free, bufs, calls));
  }

  // The connection is closed, its send not yet flushed.

  function Closed(x: Context, files: map<int, nat>): Manager {
    Manager([x], map[], [], 2, Descriptors(files, [1], 0))
  }

  function Orphan(m: Request, body: Bytes): Context {
    Ctx([], [ResponseFrame(m.requestId, body)], 1, true, 1)
  }

  function ClosedQueued(m: Request, body: Bytes, received: Bytes, free: multiset<nat>, bufs: seq<Bytes>, calls: nat): World {
    World(Server(Closed(Orphan(m, body), map[]),
                 RingWith(Port([], [Answering(m, body, Queued)]), [NotifyWaiting], free, bufs, calls),
                 ResumedPool(m, body), false, false, map[1 := [0]]),
          [Sock([], []), Sock(received, [])], 0, 0, 0, WORKERS, false, true)
  }

  lemma ShutdownProcessed(e: Config, s: Server, t: Server, m: Request, body: Bytes)
    requires s.m == Opened(Ctx([], [ResponseFrame(m.requestId, body)], 2, false, 1))
    requires s.r.ports == map[0 := Sending(m, body, Shutdown(), Queued)]
    requires t == s.(m := Closed(Orphan(m, body), map[]), r := s.r.(ports := map[0 := Port([], [Answering(m, body, Queued)])]))
    ensures Wf(s.m) && ProcessRecv(e, s, 0, 0) == t
  {
    assert RemoveAt(PortOf(s.r, 0).recvs, 0) == [];
    assert s.r.ports[0 := Port([], [Answering(m, body, Queued)])] == t.r.ports;
    var x := Ctx([], [ResponseFrame(m.requestId, body)], 1, false, 1);
    var (recycled, m2) := OnComplete(s.m, 0);
    assert m2 == Opened(x);
    ClosedOver(x, Orphan(m, body));
  }

  lemma ClosedOver(x: Context, y: Context)
    requires x.fd == FD && x.inflight == 1 && y == x.(closing := true)
    ensures Wf(Opened(x)) && Close(Opened(x), FD) == Closed(y, map[])
  {
    assert map[FD := 0] - {FD} == map[] && map[FD := 1] - {FD} == map[];
    assert [x][0 := y] == [y];
  }

  lemma ShutdownTaken(e: Config, m: Request, body: Bytes, received: Bytes, free: multiset<nat>, bufs: seq<Bytes>, calls: nat)
    requires Reachable(e, Delivered1(m, body, received, Shutdown(), Queued, free, bufs, calls))
    ensures Reachable(e, ClosedQueued(m, body, received, free, bufs, calls))
  {
    var w := Delivered1(m, body, received, Shutdown(), Queued, free, bufs, calls);
    var w' := ClosedQueued(m, body, received, free, bufs, calls);
    ShutdownProcessed(e, w.s, w'.s, m, body);
    TakeRecvStep(e, w, w'.s, 0, None, [Answering(m, body, Queued)]);
    OneStep(e, w, Loop(TakeRecv(0, 0)), w');
  }

  // The second connection.

  function Landed2(m: Request, body: Bytes, received: Bytes, target: Target,
                   free: multiset<nat>, bufs: seq<Bytes>, calls: nat): World {
    World(Server(Closed(Orphan(m, body), map[FD := 2]),
                 Ring(map[0 := Port([], [Answering(m, body, target)])], [AcceptDone(FD)], [NotifyWaiting], free, bufs, calls),
                 ResumedPool(m, body), false, false, map[1 := [0]]),
          [Sock([], []), Sock(received, []), Sock([], [])], 0, 0, 0, WORKERS, false, false)
  }

  lemma SecondLands(e: Config, m: Request, body: Bytes, received: Bytes, free: multiset<nat>, bufs: seq<Bytes>, calls: nat)
    requires Reachable(e, ClosedQueued(m, body, received, free, bufs, calls))
    ensures Reachable(e, Landed2(m, body, received, Queued, free, bufs, calls))
  {
    var w := ClosedQueued(m, body, received, free, bufs, calls);
    var w' := Landed2(m, body, received, Queued, free, bufs, calls);
    assert map[][FD := 2] == map[FD := 2];
    assert NamedBy(w.s.r.ports[0], FD) by {
      assert w.s.r.ports[0].sends[0].fd == FD && w.s.r.ports[0].sends[0].state == SendWaiting(Queued);
    }
    assert Named(w.s.r, FD);
    assert w.socks + [Sock([], [])] == w'.socks;
    OneStep(e, w, Kernel(AcceptConn(FD)), w');
  }

  lemma SecondFlushed(e: Config, m: Request, body: Bytes, received: Bytes, free: multiset<nat>, bufs: seq<Bytes>, calls: nat)
    requires Reachable(e, Landed2(m, body, received, Queued, free, bufs, calls))
    ensures Reachable(e, Landed2(m, body, received, Socket(2), free, bufs, calls))
  {
    var w := Landed2(m, body, received, Queued, free, bufs, calls);
    var p, p' := Port([], [Answering(m, body, Queued)]), Port([], [Answering(m, body, Socket(2))]);
    assert FlushPort(w.s.m.os.files, p) == p';
    FlushedPort(w.s.m.os.files, p, p', w.s.r);
    OneStep(e, w, Loop(Submit), Landed2(m, body, received, Socket(2), free, bufs, calls));
  }

  /** The kernel has taken the whole response on connection 2, which has sent nothing and asked for nothing; the
      request came in on connection 1, and the frame was queued there. */
  ghost predicate WrongConnection(w: World, m: Request, body: Bytes, received: Bytes) {
    && |w.socks| == 3 && w.socks[1] == Sock(received, []) && w.socks[2] == Sock([], ResponseFrame(m.requestId, body))
    && DeliveredOn(w.s, 2) == [] && DeliveredOn(w.s, 1) == [0]
    && w.s.p.coros == [Answered(m, body, Resumed)] && w.s.p.coros[0].connId == 1
  }

  lemma SecondReceives(e: Config, m: Request, body: Bytes, received: Bytes, free: multiset<nat>, bufs: seq<Bytes>, calls: nat)
    returns (w': World)
    requires Reachable(e, Landed2(m, body, received, Socket(2), free, bufs, calls))
    ensures Reachable(e, w') && WrongConnection(w', m, body, received)
  {
    var w, frame := Landed2(m, body, received, Socket(2), free, bufs, calls), ResponseFrame(m.requestId, body);
    var ev := SendData(0, 0, |frame|);
    w' := KernelNext(w, ev);
    assert frame[..|frame|] == frame && [] + frame == frame;
    OneStep(e, w, Kernel(ev), w');
  }

  lemma FromAsked(e: Config, m: Request, body: Bytes, received: Bytes, free: multiset<nat>, bufs: seq<Bytes>, calls: nat)
    returns (w: World)
    requires Roomy(e) && Reachable(e, Asked(m, received, free, bufs, calls))
    ensures Reachable(e, w) && WrongConnection(w, m, body, received)
  {
    WakeupPosted(e, m, body, received, free, bufs, calls);
    ShutdownPosted(e, ReadyPool(m, body), received, free, bufs, calls);
    WakeupTaken(e, m, body, received, Shutdown(), free, bufs, calls);
    ShutdownTaken(e, m, body, received, free, bufs, calls + 2);
    SecondLands(e, m, body, received, free, bufs, calls + 2);
    SecondFlushed(e, m, body, received, free, bufs, calls + 2);
    w := SecondReceives(e, m, body, received, free, bufs, calls + 2);
  }

  /** A response can go out on a connection that never asked for it: any response, to any accepted request. */
  lemma ResponseOnWrongConnection(e: Config, wh: Header -> Bytes, m: Request, body: Bytes) returns (w: World)
    requires Roomy(e) && Lawful(e.registry, wh) && Fits(wh, m) && Accepted(e.registry, wh, m)
    ensures Reachable(e, w) && WrongConnection(w, m, body, RequestFrame(wh, m))
  {
    var received := RequestFrame(wh, m);
    FrameAlone(e.registry, wh, m);
    FeedAll(e, received);
    var free: multiset<nat>, bufs: seq<Bytes> :| FedVia(e, Drain(e.registry, received), received, free, bufs);
    w := FromAsked(e, m, body, received, free, bufs, CallsFor(received));
  }
}
