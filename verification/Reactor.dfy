/**
  The io_uring reactor (uringrpcprovider): one thread that reacts to completions.

  Each function here is one handler of the event loop as a function on the whole server state. The class
  UringRpcProvider implements them by updating its fields in place; ReactorRun puts them into runs.
 */
module Reactor {
  import opened ByteStrings
  import opened Wire
  import opened Connections

  const MAX_INFLIGHT_PER_CONN: int := 256
  const BUF_RING_ENTRIES: nat := 1024
  const BUF_SIZE: nat := 4096
  const ENOBUFS: int := 105

  /** `sqe(k)` says whether the k-th call of io_uring_get_sqe finds a free entry: any pattern of failures. */
  datatype Config = Config(registry: Registry, sqe: nat -> bool)

  // Operations in the ring. An entry holds a descriptor number until the submission queue is flushed; only
  // then does the kernel look the number up.

  datatype Target = Queued | Socket(sock: nat) | NoFile

  datatype RecvState = RecvWaiting(target: Target) | RecvDone(res: int, bid: Option<nat>)

  datatype RecvOp = RecvOp(fd: int, state: RecvState)

  datatype SendState = SendWaiting(target: Target) | SendDone(res: int)

  datatype SendOp = SendOp(fd: int, data: Bytes, state: SendState)

  /** The operations outstanding on one context: submitted, and not yet taken from the completion queue. */
  datatype Port = Port(recvs: seq<RecvOp>, sends: seq<SendOp>)

  const NO_OPS := Port([], [])

  datatype AcceptOp = AcceptWaiting | AcceptDone(res: int)

  datatype NotifyOp = NotifyWaiting | NotifyDone

  datatype Ring = Ring(
    ports: map<nat, Port>,
    accepts: seq<AcceptOp>,
    notifies: seq<NotifyOp>,
    free: multiset<nat>,      // provided buffers owned by the kernel
    bufs: seq<Bytes>,         // their memory
    calls: nat)               // io_uring_get_sqe calls so far

  function PortOf(r: Ring, c: nat): Port {
    if c in r.ports then r.ports[c] else NO_OPS
  }

  // Request coroutines.

  datatype CoState = Waiting | Running | Finished | Ready | Resumed

  datatype Coro = Coro(fd: int, connId: nat, request: Request, state: CoState, result: Option<Bytes>, frame: Bytes)

  datatype Pool = Pool(
    coros: seq<Coro>,
    tasks: seq<nat>,          // m_taskQueue
    ready: seq<nat>,          // m_readyCoros
    resuming: seq<nat>)       // what handleNotify has swapped out and not yet resumed

  datatype Server = Server(
    m: Manager,
    r: Ring,
    p: Pool,
    acceptPending: bool,
    notifyPending: bool,
    delivered: map<nat, seq<nat>>)   // history: per connection generation, the coroutines whose frame was queued

  function DeliveredOn(s: Server, i: nat): seq<nat> {
    if i in s.delivered then s.delivered[i] else []
  }

  function PutCtx(s: Server, c: nat, x: Context): Server
    requires c < |s.m.conns|
  {
    s.(m := Put(s.m, c, x))
  }

  /** `t` arms accepting and waking up exactly as `s` does. */
  ghost predicate SameArms(s: Server, t: Server) {
    && Wf(t.m) && |t.m.conns| == |s.m.conns| && t.m.nextId == s.m.nextId
    && t.r.accepts == s.r.accepts && t.r.notifies == s.r.notifies
    && t.acceptPending == s.acceptPending && t.notifyPending == s.notifyPending
  }

  /** `t` differs from `s` only in contexts, ring entries and the descriptor table. */
  ghost predicate SameQueues(s: Server, t: Server) {
    SameArms(s, t) && t.p == s.p
  }

  function CloseConn(s: Server, fd: int): (t: Server)
    requires Wf(s.m)
    ensures SameQueues(s, t)
  {
    s.(m := Close(s.m, fd))
  }

  function GetSqe(s: Server): Server {
    s.(r := s.r.(calls := s.r.calls + 1))
  }

  function PrepRecv(s: Server, c: nat, fd: int): Server
    requires c < |s.m.conns|
  {
    var p := PortOf(s.r, c);
    s.(r := s.r.(ports := s.r.ports[c := p.(recvs := p.recvs + [RecvOp(fd, RecvWaiting(Queued))])]),
       m := OnSubmit(s.m, c))
  }

  function SubmitRecv(e: Config, s: Server, fd: int): (r: (bool, Server))
    requires Wf(s.m)
    ensures SameQueues(s, r.1)
  {
    if fd !in s.m.active then (false, s)
    else if !e.sqe(s.r.calls) then (false, GetSqe(s))
    else (true, PrepRecv(GetSqe(s), s.m.active[fd], fd))
  }

  /** The send entry points into the front of the queue, past what has been written. */
  function PrepSend(s: Server, c: nat, fd: int): Server
    requires c < |s.m.conns| && s.m.conns[c].outQueue != []
  {
    var x, p := s.m.conns[c], PortOf(s.r, c);
    var data := if x.written <= |x.outQueue[0]| then x.outQueue[0][x.written..] else [];
    s.(r := s.r.(ports := s.r.ports[c := p.(sends := p.sends + [SendOp(fd, data, SendWaiting(Queued))])]),
       m := Put(s.m, c, x.(inflight := x.inflight + 1, sending := true)))
  }

  function SubmitSend(e: Config, s: Server, fd: int): (r: (bool, Server))
    requires Wf(s.m)
    ensures SameQueues(s, r.1)
  {
    if fd !in s.m.active then (false, s)
    else
      var c := s.m.active[fd];
      var x := s.m.conns[c];
      if x.outQueue == [] then (true, PutCtx(s, c, x.(sending := false)))
      else if !e.sqe(s.r.calls) then (false, GetSqe(s))
      else (true, PrepSend(GetSqe(s), c, fd))
  }

  function SubmitAccept(e: Config, s: Server): (bool, Server) {
    var s1 := s.(r := s.r.(calls := s.r.calls + 1));
    if !e.sqe(s.r.calls) then (false, s1)
    else (true, s1.(r := s1.r.(accepts := s1.r.accepts + [AcceptWaiting])))
  }

  function SubmitNotifyRead(e: Config, s: Server): (bool, Server) {
    var s1 := s.(r := s.r.(calls := s.r.calls + 1));
    if !e.sqe(s.r.calls) then (false, s1)
    else (true, s1.(r := s1.r.(notifies := s1.r.notifies + [NotifyWaiting])))
  }

  function RearmAccept(e: Config, s: Server): Server {
    var (ok, s1) := SubmitAccept(e, s);
    if ok then s1 else s1.(acceptPending := true)
  }

  function HandleAccept(e: Config, s: Server, res: int): Server
    requires Wf(s.m)
  {
    if res < 0 then RearmAccept(e, s)
    else
      var (c, m1) := Acquire(s.m, res);
      var (ok, s2) := SubmitRecv(e, s.(m := m1), res);
      RearmAccept(e, if ok then s2 else CloseConn(s2, res))
  }

  /** The coroutines that a list of parsed requests starts. */
  function Spawn(fd: int, connId: nat, requests: seq<Request>): (r: seq<Coro>)
    ensures |r| == |requests|
  {
    if requests == [] then []
    else [Coro(fd, connId, requests[0], Waiting, None, [])] + Spawn(fd, connId, requests[1..])
  }

  function Ids(lo: nat, n: nat): (r: seq<nat>)
    ensures |r| == n
    ensures forall k :: 0 <= k < n ==> r[k] == lo + k
    decreases n
  {
    if n == 0 then [] else [lo] + Ids(lo + 1, n - 1)
  }

  /** Dispatching requests: count them in flight, start their coroutines, queue their tasks. */
  function DispatchAll(s: Server, c: nat, requests: seq<Request>, rest: Bytes): Server
    requires c < |s.m.conns|
  {
    var x := s.m.conns[c];
    PutCtx(s, c, x.(input := rest, pendingReqs := x.pendingReqs + |requests|))
    .(p := s.p.(coros := s.p.coros + Spawn(x.fd, x.connId, requests),
                tasks := s.p.tasks + Ids(|s.p.coros|, |requests|)))
  }

  /** tryHandleRequest: false means that the buffer holds no complete request. */
  function HandleRequest(g: Registry, s: Server, c: nat, fd: int): (r: (bool, Server))
    requires Wf(s.m) && c < |s.m.conns|
    ensures Wf(r.1.m) && |r.1.m.conns| == |s.m.conns|
    ensures r.0 && fd in r.1.m.active ==> |r.1.m.conns[c].input| < |s.m.conns[c].input|
  {
    var input := s.m.conns[c].input;
    match TryParse(g, input)
    case NeedMore => (false, s)
    case Reject(k) => (true, CloseConn(DispatchAll(s, c, [], input[k..]), fd))
    case Dispatch(r, k) => (true, DispatchAll(s, c, [r], input[k..]))
  }

  /** The drain loop from its first test on; false means that it closed the connection. */
  function DrainLoop(g: Registry, s: Server, c: nat, fd: int): (bool, Server)
    requires Wf(s.m) && c < |s.m.conns|
    decreases |s.m.conns[c].input|, 1
  {
    var (more, t) := HandleRequest(g, s, c, fd);
    if !more then (true, t) else if fd !in t.m.active then (false, t) else DrainLoop(g, t, c, fd)
  }

  function RearmRecv(e: Config, s: Server, fd: int): (t: Server)
    requires Wf(s.m)
    ensures SameQueues(s, t)
  {
    var (ok, s1) := SubmitRecv(e, s, fd);
    if ok then s1 else CloseConn(s1, fd)
  }

  /** The end of handleRecv: pause reading at the limit, otherwise arm the next recv. */
  function ReadOn(e: Config, s: Server, c: nat): (t: Server)
    requires Wf(s.m) && c < |s.m.conns|
    ensures SameQueues(s, t)
  {
    var x := s.m.conns[c];
    if x.pendingReqs >= MAX_INFLIGHT_PER_CONN then PutCtx(s, c, x.(readPaused := true))
    else RearmRecv(e, s, x.fd)
  }

  /** Bytes arrived: the drain loop dispatches what parses and closes at the first frame that does not. */
  function HandleData(e: Config, s: Server, c: nat): (t: Server)
    requires Wf(s.m) && c < |s.m.conns|
    ensures SameArms(s, t)
  {
    var d := Drain(e.registry, s.m.conns[c].input);
    var s1 := DispatchAll(s, c, d.requests, d.rest);
    if d.closed then CloseConn(s1, s.m.conns[c].fd) else ReadOn(e, s1, c)
  }

  function HandleRecv(e: Config, s: Server, c: nat, res: int): (t: Server)
    requires Wf(s.m) && c < |s.m.conns|
    ensures SameArms(s, t)
  {
    var x := s.m.conns[c];
    if x.closing then s
    else if res > 0 then HandleData(e, s, c)
    else if res == -ENOBUFS then RearmRecv(e, s, x.fd)
    else CloseConn(s, x.fd)
  }

  function ContinueSend(e: Config, s: Server, c: nat, fd: int): (t: Server)
    requires Wf(s.m) && c < |s.m.conns|
    ensures SameQueues(s, t)
  {
    var x := s.m.conns[c];
    if x.outQueue == [] then PutCtx(s, c, x.(sending := false))
    else
      var (ok, s1) := SubmitSend(e, s, fd);
      if ok then s1 else CloseConn(s1, fd)
  }

  function PopFront(x: Context): Context
    requires x.outQueue != []
  {
    x.(written := 0, outQueue := x.outQueue[1..], pendingReqs := x.pendingReqs - 1)
  }

  /** Reading again after backpressure, then going on sending. */
  function ResumeReading(e: Config, s: Server, c: nat, fd: int): (t: Server)
    requires Wf(s.m) && c < |s.m.conns|
    ensures SameQueues(s, t)
  {
    var (ok, s1) := SubmitRecv(e, s, fd);
    if ok then ContinueSend(e, s1, c, fd) else CloseConn(s1, fd)
  }

  function Advance(x: Context, res: int): Context
    requires res > 0
  {
    x.(written := x.written + res)
  }

  function PartlySent(e: Config, s: Server, c: nat, res: int): (t: Server)
    requires Wf(s.m) && c < |s.m.conns| && res > 0
    ensures SameQueues(s, t)
  {
    ContinueSend(e, PutCtx(s, c, Advance(s.m.conns[c], res)), c, s.m.conns[c].fd)
  }

  /** The front frame is out: pop it, and read again if that released the backpressure. */
  function FrameSent(e: Config, s: Server, c: nat): (t: Server)
    requires Wf(s.m) && c < |s.m.conns| && s.m.conns[c].outQueue != []
    ensures SameQueues(s, t)
  {
    var y := PopFront(s.m.conns[c]);
    if y.readPaused && y.pendingReqs < MAX_INFLIGHT_PER_CONN
    then ResumeReading(e, PutCtx(s, c, y.(readPaused := false)), c, y.fd)
    else ContinueSend(e, PutCtx(s, c, y), c, y.fd)
  }

  /** handleSend; taking the front of an empty queue would be undefined, and never happens (see SendBufferIntact in
      ReactorTheorems). */
  function HandleSend(e: Config, s: Server, c: nat, res: int): (t: Server)
    requires Wf(s.m) && c < |s.m.conns|
    ensures SameQueues(s, t)
  {
    var x := s.m.conns[c];
    if res <= 0 then CloseConn(s, x.fd)
    else if x.outQueue == [] then s
    else if x.written + res < |x.outQueue[0]|
    then PartlySent(e, s, c, res)
    else FrameSent(e, s, c)
  }

  /** deliverResponse for coroutine co: only a connection of the same generation takes the frame. */
  function DeliverResponse(e: Config, s: Server, co: nat): (t: Server)
    requires Wf(s.m) && co < |s.p.coros|
    ensures SameQueues(s, t)
  {
    var k := s.p.coros[co];
    if k.fd !in s.m.active || s.m.conns[s.m.active[k.fd]].connId != k.connId then s
    else
      var c := s.m.active[k.fd];
      var x := s.m.conns[c];
      var s1 := PutCtx(s, c, x.(outQueue := x.outQueue + [k.frame]))
                .(delivered := s.delivered[x.connId := DeliveredOn(s, x.connId) + [co]]);
      if x.sending then s1
      else
        var (ok, s2) := SubmitSend(e, s1, k.fd);
        if ok then s2 else CloseConn(s2, k.fd)
  }

  /** The coroutine's second half: deliver its frame unless serialisation failed. */
  function ResumeCoro(e: Config, s: Server, co: nat): (t: Server)
    requires Wf(s.m) && co < |s.p.coros|
    ensures SameArms(s, t)
  {
    var s1 := s.(p := s.p.(coros := s.p.coros[co := s.p.coros[co].(state := Resumed)]));
    if s.p.coros[co].frame == [] then s1 else DeliverResponse(e, s1, co)
  }

  ghost predicate PoolWf(p: Pool) {
    && (forall k :: 0 <= k < |p.tasks| ==> p.tasks[k] < |p.coros|)
    && (forall k :: 0 <= k < |p.ready| ==> p.ready[k] < |p.coros|)
    && (forall k :: 0 <= k < |p.resuming| ==> p.resuming[k] < |p.coros|)
  }

  function ResumeFirst(e: Config, s: Server): (t: Server)
    requires Wf(s.m) && PoolWf(s.p) && s.p.resuming != []
    ensures Wf(t.m) && PoolWf(t.p) && t.p.resuming == s.p.resuming[1..] && |t.p.coros| == |s.p.coros|
    ensures t.p.ready == s.p.ready && SameArms(s, t)
  {
    ResumeCoro(e, s.(p := s.p.(resuming := s.p.resuming[1..])), s.p.resuming[0])
  }

  function ResumeAll(e: Config, s: Server): (t: Server)
    requires Wf(s.m) && PoolWf(s.p)
    ensures PoolWf(t.p) && t.p.resuming == [] && SameArms(s, t)
    decreases |s.p.resuming|
  {
    if s.p.resuming == [] then s else ResumeAll(e, ResumeFirst(e, s))
  }

  function HandleNotify(e: Config, s: Server): (t: Server)
    requires Wf(s.m) && PoolWf(s.p)
    ensures SameArms(s, t)
  {
    ResumeAll(e, s.(p := s.p.(resuming := s.p.ready, ready := [])))
  }

  function RearmNotify(e: Config, s: Server): Server {
    var (ok, s1) := SubmitNotifyRead(e, s);
    if ok then s1 else s1.(notifyPending := true)
  }

  // The event loop's treatment of one completion.

  function RemoveAt<T>(q: seq<T>, j: nat): (r: seq<T>)
    requires j < |q|
    ensures |r| == |q| - 1
  {
    q[..j] + q[j + 1..]
  }

  /** The bytes a recv completion carries: the head of its provided buffer. */
  function ChunkOf(bufs: seq<Bytes>, done: RecvState): Bytes
    requires done.RecvDone?
  {
    if done.res > 0 && done.bid.Some? && done.bid.value < |bufs| && done.res <= |bufs[done.bid.value]|
    then bufs[done.bid.value][..done.res] else []
  }

  /** Copies the buffer of a recv out, unless the connection is closing, and only then gives it back. */
  function TakeBuffer(s: Server, c: nat, done: RecvState): (t: Server)
    requires done.RecvDone? && c < |s.m.conns|
    ensures done.bid.None? ==> t == s
  {
    if done.bid.None? then s
    else
      var x := s.m.conns[c];
      var y := if x.closing then x else x.(input := x.input + ChunkOf(s.r.bufs, done));
      s.(r := s.r.(free := s.r.free + multiset{done.bid.value}), m := Put(s.m, c, y))
  }

  function ProcessRecv(e: Config, s: Server, c: nat, j: nat): Server
    requires Wf(s.m) && c < |s.m.conns| && j < |PortOf(s.r, c).recvs| && PortOf(s.r, c).recvs[j].state.RecvDone?
  {
    var p := PortOf(s.r, c);
    var done := p.recvs[j].state;
    var s1 := s.(r := s.r.(ports := s.r.ports[c := p.(recvs := RemoveAt(p.recvs, j))]));
    var s2 := TakeBuffer(s1, c, done);
    var (recycled, m3) := OnComplete(s2.m, c);
    var s3 := s2.(m := m3);
    if recycled then s3 else HandleRecv(e, s3, c, done.res)
  }

  function ProcessSend(e: Config, s: Server, c: nat, j: nat): Server
    requires Wf(s.m) && c < |s.m.conns| && j < |PortOf(s.r, c).sends| && PortOf(s.r, c).sends[j].state.SendDone?
  {
    var p := PortOf(s.r, c);
    var s1 := s.(r := s.r.(ports := s.r.ports[c := p.(sends := RemoveAt(p.sends, j))]));
    var (recycled, m2) := OnComplete(s1.m, c);
    var s2 := s1.(m := m2);
    if recycled then s2 else HandleSend(e, s2, c, p.sends[j].state.res)
  }

  function ProcessAccept(e: Config, s: Server, j: nat): Server
    requires Wf(s.m) && j < |s.r.accepts| && s.r.accepts[j].AcceptDone?
  {
    HandleAccept(e, s.(r := s.r.(accepts := RemoveAt(s.r.accepts, j))), s.r.accepts[j].res)
  }

  function ProcessNotify(e: Config, s: Server, j: nat): Server
    requires Wf(s.m) && PoolWf(s.p) && j < |s.r.notifies| && s.r.notifies[j].NotifyDone?
  {
    RearmNotify(e, HandleNotify(e, s.(r := s.r.(notifies := RemoveAt(s.r.notifies, j)))))
  }

  /** After the submission queue was flushed: retry an accept or notify read that found no entry before. */
  function Retry(e: Config, s: Server): Server {
    RetryNotify(e, RetryAccept(e, s))
  }

  function RetryAccept(e: Config, s: Server): (t: Server)
    ensures t.p == s.p && t.m == s.m && t.r.notifies == s.r.notifies && t.notifyPending == s.notifyPending
    ensures !s.acceptPending ==> t == s
  {
    if s.acceptPending then
      var (ok, t) := SubmitAccept(e, s);
      if ok then t.(acceptPending := false) else t
    else s
  }

  function RetryNotify(e: Config, s: Server): (t: Server)
    ensures t.p == s.p && t.m == s.m && t.r.accepts == s.r.accepts && t.acceptPending == s.acceptPending
    ensures !s.notifyPending ==> t == s
  {
    if s.notifyPending then
      var (ok, t) := SubmitNotifyRead(e, s);
      if ok then t.(notifyPending := false) else t
    else s
  }

  /** The state in which Run enters the event loop, with n provided buffers in the ring, when both first
      submissions found an entry. */
  function Boot(n: nat): Server {
    Server(
      Manager([], map[], [], 1, Descriptors(map[], [], 0)),
      Ring(map[], [AcceptWaiting], [NotifyWaiting], multiset(Ids(0, n)),
           seq(n, _ => Zeros(BUF_SIZE)), 0),
      Pool([], [], [], []),
      false, false, map[])
  }
}
