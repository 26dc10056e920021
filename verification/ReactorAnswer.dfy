/** The runs of ReactorFeed continued: one request is computed by a worker and its response queued for sending. */
module ReactorAnswer {
  import opened ByteStrings
  import opened Wire
  import opened Connections
  import opened Reactor
  import opened ReactorRun
  import opened ReactorSafety
  import opened ReactorFeed

  function Answered(m: Request, body: Bytes, state: CoState): Coro {
    Coro(FD, 1, m, state, Some(body), ResponseFrame(m.requestId, body))
  }

  function Answering(m: Request, body: Bytes, target: Target): SendOp {
    SendOp(FD, ResponseFrame(m.requestId, body), SendWaiting(target))
  }

  /** The whole request has arrived and been dispatched. */
  function Asked(m: Request, received: Bytes, free: multiset<nat>, bufs: seq<Bytes>, calls: nat): World {
    Fed([m], [], received, Socket(1), free, bufs, calls)
  }

  /** The world around a single coroutine, before its frame is queued. */
  function Computing(p: Pool, received: Bytes, rs: RecvState, notifies: seq<NotifyOp>,
                     free: multiset<nat>, bufs: seq<Bytes>, calls: nat): World {
    Quiet(Opened(Ctx([], [], 1, false, 1)), RingWith(Port([RecvOp(FD, rs)], []), notifies, free, bufs, calls), p, received)
  }

  function ReadyPool(m: Request, body: Bytes): Pool {
    Pool([Answered(m, body, Ready)], [], [0], [])
  }

  function ResumedPool(m: Request, body: Bytes): Pool {
    Pool([Answered(m, body, Resumed)], [], [], [])
  }

  // The worker's four steps.

  lemma WorkerComputes(e: Config, w: World, m: Request, body: Bytes)
    requires Reachable(e, w) && w.s.p == Tasks([m]) && Wf(w.s.m) && w.busy == 0 && w.live == WORKERS
    ensures Reachable(e, w.(s := w.s.(p := Pool([Answered(m, body, Finished)], [], [], [])), busy := 1))
  {
    var k := Coro(FD, 1, m, Waiting, None, []);
    assert w.s.p == Pool([k], [0], [], []);
    var w1 := w.(s := w.s.(p := Pool([k.(state := Running)], [], [], [])), busy := 1);
    assert Start(w.s.p) == w1.s.p;
    OneStep(e, w, Worker(PopTask), w1);
    var w2 := w1.(s := w1.s.(p := Pool([Answered(m, body, Finished)], [], [], [])));
    assert Finish(w1.s.p, 0, Some(body)) == w2.s.p;
    OneStep(e, w1, Worker(RunDone(0, Some(body))), w2);
  }

  lemma WorkerReports(e: Config, w: World, m: Request, body: Bytes)
    requires Reachable(e, w) && w.s.p == Pool([Answered(m, body, Finished)], [], [], []) && Wf(w.s.m)
    requires w.busy == 1 && w.unsignalled == 0
    ensures Reachable(e, w.(s := w.s.(p := ReadyPool(m, body)), busy := 0, eventfd := w.eventfd + 1))
  {
    var w1 := w.(s := w.s.(p := ReadyPool(m, body)), unsignalled := 1);
    assert Push(w.s.p, 0) == w1.s.p;
    OneStep(e, w, Worker(PushReady(0)), w1);
    OneStep(e, w1, Worker(WriteEventfd), w1.(unsignalled := 0, busy := 0, eventfd := w.eventfd + 1));
  }

  lemma WorkerAnswers(e: Config, w: World, m: Request, body: Bytes)
    requires Reachable(e, w) && w.s.p == Tasks([m]) && Wf(w.s.m)
    requires w.busy == 0 && w.live == WORKERS && w.unsignalled == 0
    ensures Reachable(e, w.(s := w.s.(p := ReadyPool(m, body)), eventfd := w.eventfd + 1))
  {
    WorkerComputes(e, w, m, body);
    var w2 := w.(s := w.s.(p := Pool([Answered(m, body, Finished)], [], [], [])), busy := 1);
    WorkerReports(e, w2, m, body);
    assert w2.(s := w2.s.(p := ReadyPool(m, body)), busy := 0, eventfd := w.eventfd + 1)
        == w.(s := w.s.(p := ReadyPool(m, body)), eventfd := w.eventfd + 1);
  }

  /** The eventfd has been read. */
  lemma WakeupPosted(e: Config, m: Request, body: Bytes, received: Bytes, free: multiset<nat>, bufs: seq<Bytes>, calls: nat)
    requires Reachable(e, Asked(m, received, free, bufs, calls))
    ensures Reachable(e, Computing(ReadyPool(m, body), received, RecvWaiting(Socket(1)), [NotifyDone], free, bufs, calls))
  {
    var w := Asked(m, received, free, bufs, calls);
    WorkerAnswers(e, w, m, body);
    var w1 := w.(s := w.s.(p := ReadyPool(m, body)), eventfd := 1);
    OneStep(e, w1, Kernel(NotifyRead), w1.(s := NotifyPosted(w1.s), eventfd := 0));
  }

  // The coroutine resumes.

  function Sending(m: Request, body: Bytes, rs: RecvState, target: Target): Port {
    Port([RecvOp(FD, rs)], [Answering(m, body, target)])
  }

  /** Its frame and a send for it are queued. */
  function Delivered1(m: Request, body: Bytes, received: Bytes, rs: RecvState, target: Target,
                      free: multiset<nat>, bufs: seq<Bytes>, calls: nat): World {
    World(Server(Opened(Ctx([], [ResponseFrame(m.requestId, body)], 2, false, 1)),
                 RingWith(Sending(m, body, rs, target), [NotifyWaiting], free, bufs, calls),
                 ResumedPool(m, body), false, false, map[1 := [0]]),
          [Sock([], []), Sock(received, [])], 0, 0, 0, WORKERS, false, true)
  }

  /** The frame is queued on the connection, the only one of its generation. */
  lemma FrameQueued(s: Server, frame: Bytes)
    requires s.m == Opened(Ctx([], [], 1, false, 1)) && s.delivered == map[]
    ensures PutCtx(s, 0, s.m.conns[0].(outQueue := s.m.conns[0].outQueue + [frame])).m
         == Opened(Ctx([], [], 1, false, 1).(outQueue := [frame]))
    ensures s.delivered[1 := DeliveredOn(s, 1) + [0]] == map[1 := [0]]
  {
    assert [] + [frame] == [frame];
    assert DeliveredOn(s, 1) + [0] == [0];
  }

  lemma FramePrepared(s: Server, m: Request, body: Bytes, rs: RecvState)
    requires s.m == Opened(Ctx([], [], 1, false, 1).(outQueue := [ResponseFrame(m.requestId, body)]))
    requires s.r.ports == map[0 := Port([RecvOp(FD, rs)], [])]
    ensures PrepSend(s, 0, FD) ==
      s.(m := Opened(Ctx([], [ResponseFrame(m.requestId, body)], 2, false, 1)),
         r := s.r.(ports := map[0 := Sending(m, body, rs, Queued)]))
  {
    var frame := ResponseFrame(m.requestId, body);
    assert frame[0..] == frame;
    var t := PrepSend(s, 0, FD);
    assert t.m == Opened(Ctx([], [frame], 2, false, 1));
    assert PortOf(t.r, 0) == Sending(m, body, rs, Queued);
    assert t.r.ports == map[0 := Sending(m, body, rs, Queued)];
  }

  lemma FrameDelivered(e: Config, s: Server, t: Server, m: Request, body: Bytes, rs: RecvState)
    requires s.m == Opened(Ctx([], [], 1, false, 1)) && s.p == ResumedPool(m, body)
    requires s.r.ports == map[0 := Port([RecvOp(FD, rs)], [])] && s.delivered == map[] && e.sqe(s.r.calls)
    requires t == s.(m := Opened(Ctx([], [ResponseFrame(m.requestId, body)], 2, false, 1)),
                     r := s.r.(ports := map[0 := Sending(m, body, rs, Queued)], calls := s.r.calls + 1),
                     delivered := map[1 := [0]])
    ensures Wf(s.m) && DeliverResponse(e, s, 0) == t
  {
    var frame := ResponseFrame(m.requestId, body);
    FrameQueued(s, frame);
    var s2 := s.(m := Opened(Ctx([], [], 1, false, 1).(outQueue := [frame])), delivered := map[1 := [0]]);
    FramePrepared(GetSqe(s2), m, body, rs);
  }

  lemma CoroResumes(e: Config, s: Server, t: Server, m: Request, body: Bytes, rs: RecvState)
    requires s.m == Opened(Ctx([], [], 1, false, 1)) && s.p == Pool([Answered(m, body, Ready)], [], [], [0])
    requires s.r.ports == map[0 := Port([RecvOp(FD, rs)], [])] && s.delivered == map[] && e.sqe(s.r.calls)
    requires t == s.(m := Opened(Ctx([], [ResponseFrame(m.requestId, body)], 2, false, 1)), p := ResumedPool(m, body),
                     r := s.r.(ports := map[0 := Sending(m, body, rs, Queued)], calls := s.r.calls + 1),
                     delivered := map[1 := [0]])
    ensures Wf(s.m) && PoolWf(s.p) && ResumeAll(e, s) == t
  {
    var s1 := s.(p := ResumedPool(m, body));
    assert s.p.coros[0 := s.p.coros[0].(state := Resumed)] == [Answered(m, body, Resumed)];
    FrameDelivered(e, s1, t, m, body, rs);
    ResumedOnly(e, s, t);
  }

  lemma ResumedOnly(e: Config, s: Server, t: Server)
    requires Wf(s.m) && PoolWf(s.p) && |s.p.resuming| == 1 && ResumeFirst(e, s) == t
    ensures ResumeAll(e, s) == t
  {
  }

  lemma NotifyStep(e: Config, w: World, t: Server)
    requires Wf(w.s.m) && PoolWf(w.s.p) && !w.stopped && w.s.r.notifies == [NotifyDone]
    requires t == ProcessNotify(e, w.s, 0)
    ensures Step(e, w, Loop(TakeNotify), w.(s := t))
  {
  }

  lemma NotifyProcessed(e: Config, s: Server, t: Server, m: Request, body: Bytes, rs: RecvState)
    requires Roomy(e) && s.m == Opened(Ctx([], [], 1, false, 1)) && s.p == ReadyPool(m, body)
    requires s.r.ports == map[0 := Port([RecvOp(FD, rs)], [])] && s.delivered == map[] && s.r.notifies == [NotifyDone]
    requires t == s.(m := Opened(Ctx([], [ResponseFrame(m.requestId, body)], 2, false, 1)), p := ResumedPool(m, body),
                     r := s.r.(ports := map[0 := Sending(m, body, rs, Queued)], notifies := [NotifyWaiting], calls := s.r.calls + 2),
                     delivered := map[1 := [0]])
    ensures Wf(s.m) && PoolWf(s.p) && ProcessNotify(e, s, 0) == t
  {
    assert RemoveAt(s.r.notifies, 0) == [];
    var s1 := s.(r := s.r.(notifies := []), p := Pool([Answered(m, body, Ready)], [], [], [0]));
    var s2 := t.(r := t.r.(notifies := [], calls := s.r.calls + 1));
    CoroResumes(e, s1, s2, m, body, rs);
    NotifyRearmed(e, s2, t);
  }

  lemma NotifyRearmed(e: Config, s: Server, t: Server)
    requires e.sqe(s.r.calls) && s.r.notifies == []
    requires t == s.(r := s.r.(notifies := [NotifyWaiting], calls := s.r.calls + 1))
    ensures RearmNotify(e, s) == t
  {
  }

  lemma WakeupTaken(e: Config, m: Request, body: Bytes, received: Bytes, rs: RecvState,
                    free: multiset<nat>, bufs: seq<Bytes>, calls: nat)
    requires Roomy(e) && Reachable(e, Computing(ReadyPool(m, body), received, rs, [NotifyDone], free, bufs, calls))
    ensures Reachable(e, Delivered1(m, body, received, rs, Queued, free, bufs, calls + 2))
  {
    var w := Computing(ReadyPool(m, body), received, rs, [NotifyDone], free, bufs, calls);
    var w' := Delivered1(m, body, received, rs, Queued, free, bufs, calls + 2);
    NotifyProcessed(e, w.s, w'.s, m, body, rs);
    NotifyStep(e, w, w'.s);
    OneStep(e, w, Loop(TakeNotify), w');
  }

  // The send is handed to the kernel, which takes it whole.

  lemma SendFlushed(e: Config, m: Request, body: Bytes, received: Bytes, free: multiset<nat>, bufs: seq<Bytes>, calls: nat)
    requires Reachable(e, Delivered1(m, body, received, RecvWaiting(Socket(1)), Queued, free, bufs, calls))
    ensures Reachable(e, Delivered1(m, body, received, RecvWaiting(Socket(1)), Socket(1), free, bufs, calls))
  {
    var w := Delivered1(m, body, received, RecvWaiting(Socket(1)), Queued, free, bufs, calls);
    var p, p' := Sending(m, body, RecvWaiting(Socket(1)), Queued), Sending(m, body, RecvWaiting(Socket(1)), Socket(1));
    assert FlushPort(w.s.m.os.files, p) == p';
    FlushedPort(w.s.m.os.files, p, p', w.s.r);
    OneStep(e, w, Loop(Submit), Delivered1(m, body, received, RecvWaiting(Socket(1)), Socket(1), free, bufs, calls));
  }

  /** The request came in and the response went out, on connection 1. */
  ghost predicate Served(w: World, m: Request, body: Bytes, received: Bytes) {
    && w.clean && |w.socks| == 2 && w.socks[1] == Sock(received, ResponseFrame(m.requestId, body))
    && w.s.p.coros == [Answered(m, body, Resumed)]
  }

  lemma SendTaken(e: Config, m: Request, body: Bytes, received: Bytes, free: multiset<nat>, bufs: seq<Bytes>, calls: nat)
    returns (w': World)
    requires Reachable(e, Delivered1(m, body, received, RecvWaiting(Socket(1)), Socket(1), free, bufs, calls))
    ensures Reachable(e, w') && Served(w', m, body, received)
  {
    var w := Delivered1(m, body, received, RecvWaiting(Socket(1)), Socket(1), free, bufs, calls);
    var frame := ResponseFrame(m.requestId, body);
    var ev := SendData(0, 0, |frame|);
    w' := KernelNext(w, ev);
    assert frame[..|frame|] == frame && [] + frame == frame;
    OneStep(e, w, Kernel(ev), w');
  }

  lemma AskedServed(e: Config, m: Request, body: Bytes, received: Bytes, free: multiset<nat>, bufs: seq<Bytes>, calls: nat)
    returns (w: World)
    requires Roomy(e) && Reachable(e, Asked(m, received, free, bufs, calls))
    ensures Reachable(e, w) && Served(w, m, body, received)
  {
    WakeupPosted(e, m, body, received, free, bufs, calls);
    WakeupTaken(e, m, body, received, RecvWaiting(Socket(1)), free, bufs, calls);
    SendFlushed(e, m, body, received, free, bufs, calls + 2);
    w := SendTaken(e, m, body, received, free, bufs, calls + 2);
  }

  /** Any accepted request can be served. */
  lemma RequestServed(e: Config, wh: Header -> Bytes, m: Request, body: Bytes) returns (w: World)
    requires Roomy(e) && Lawful(e.registry, wh) && Fits(wh, m) && Accepted(e.registry, wh, m)
    ensures Reachable(e, w) && Served(w, m, body, RequestFrame(wh, m))
  {
    var received := RequestFrame(wh, m);
    FrameAlone(e.registry, wh, m);
    FeedAll(e, received);
    var free: multiset<nat>, bufs: seq<Bytes> :| FedVia(e, Drain(e.registry, received), received, free, bufs);
    w := AskedServed(e, m, body, received, free, bufs, CallsFor(received));
  }
}
