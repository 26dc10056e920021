/**
  Runs of the reactor: the server, the kernel and the worker pool taking steps in any order.

  The kernel completes what it likes in any order, with any result; accept returns any descriptor that is not
  open; io_uring_get_sqe fails as Config says. Sockets are numbered in the order they are accepted, which is also
  the order in which acquire numbers connections.
 */
module ReactorRun {
  import opened ByteStrings
  import opened Wire
  import opened Connections
  import opened Reactor

  /** What passed over one socket: bytes the kernel handed to recvs, and bytes it took from sends. */
  datatype Sock = Sock(received: Bytes, accepted: Bytes)

  datatype World = World(
    s: Server,
    socks: seq<Sock>,
    eventfd: nat,
    unsignalled: nat,     // workers between pushing a coroutine and writing the eventfd
    busy: nat,            // workers that hold a task
    live: nat,            // workers that have not returned
    stopped: bool,        // m_poolStop: the destructor has run past the event loop
    clean: bool)          // history: no accept has returned a descriptor that an unflushed entry still names

  const WORKERS: nat := 4

  function Begin(buffers: nat, workers: nat): World {
    World(Boot(buffers), [Sock([], [])], 0, 0, 0, workers, false, true)
  }

  ghost predicate Initial(w: World) {
    w == Begin(BUF_RING_ENTRIES, WORKERS)
  }

  datatype KernelEvent =
    | RecvData(c: nat, j: nat, data: Bytes, bid: nat)
    | RecvFail(c: nat, j: nat, res: int, lent: Option<nat>)
    | SendData(c: nat, j: nat, n: nat)
    | SendFail(c: nat, j: nat, res: int)
    | AcceptConn(fd: int)
    | AcceptFail(res: int)
    | NotifyRead
    | NotifySpurious

  datatype LoopEvent =
    | Submit                  // the kernel takes the queued entries; the loop waits, or begins again if that failed
    | Flush                   // it takes them, and the wait is over because some completion is posted
    | TakeRecv(c: nat, j: nat)
    | TakeSend(c: nat, j: nat)
    | TakeAccept
    | TakeNotify

  datatype WorkerEvent =
    | PopTask
    | RunDone(co: nat, result: Option<Bytes>)
    | PushReady(co: nat)
    | WriteEventfd
    | StopPool
    | WorkerExit

  datatype Event = Kernel(k: KernelEvent) | Loop(l: LoopEvent) | Worker(v: WorkerEvent)

  // Kernel steps.

  function Lookup(files: map<int, nat>, fd: int, t: Target): Target {
    if t != Queued then t else if fd in files then Socket(files[fd]) else NoFile
  }

  function FlushRecv(files: map<int, nat>, op: RecvOp): RecvOp {
    if op.state.RecvWaiting? then op.(state := RecvWaiting(Lookup(files, op.fd, op.state.target))) else op
  }

  function FlushSend(files: map<int, nat>, op: SendOp): SendOp {
    if op.state.SendWaiting? then op.(state := SendWaiting(Lookup(files, op.fd, op.state.target))) else op
  }

  function FlushPort(files: map<int, nat>, p: Port): Port {
    Port(seq(|p.recvs|, k requires 0 <= k < |p.recvs| => FlushRecv(files, p.recvs[k])),
         seq(|p.sends|, k requires 0 <= k < |p.sends| => FlushSend(files, p.sends[k])))
  }

  /** io_uring_submit: every queued entry is handed to the kernel, which only now looks its descriptor up. */
  function FlushAll(r: Ring, files: map<int, nat>): Ring {
    r.(ports := map c | c in r.ports :: FlushPort(files, r.ports[c]))
  }

  function PutRecv(s: Server, c: nat, j: nat, state: RecvState): Server
    requires j < |PortOf(s.r, c).recvs|
  {
    var p := PortOf(s.r, c);
    s.(r := s.r.(ports := s.r.ports[c := p.(recvs := p.recvs[j := p.recvs[j].(state := state)])]))
  }

  function PutSend(s: Server, c: nat, j: nat, state: SendState): Server
    requires j < |PortOf(s.r, c).sends|
  {
    var p := PortOf(s.r, c);
    s.(r := s.r.(ports := s.r.ports[c := p.(sends := p.sends[j := p.sends[j].(state := state)])]))
  }

  function Lend(s: Server, bid: nat, data: Bytes): Server
    requires bid < |s.r.bufs| && |data| <= |s.r.bufs[bid]|
  {
    s.(r := s.r.(free := s.r.free - multiset{bid},
                 bufs := s.r.bufs[bid := data + s.r.bufs[bid][|data|..]]))
  }

  /** Some entry not yet flushed names fd. */
  ghost predicate Named(r: Ring, fd: int) {
    exists c :: c in r.ports && NamedBy(r.ports[c], fd)
  }

  ghost predicate NamedBy(p: Port, fd: int) {
    || (exists k :: 0 <= k < |p.recvs| && p.recvs[k] == RecvOp(fd, RecvWaiting(Queued)))
    || (exists k :: 0 <= k < |p.sends| && p.sends[k].fd == fd && p.sends[k].state == SendWaiting(Queued))
  }

  predicate LiveRecv(s: Server, c: nat, j: nat) {
    c in s.r.ports && c < |s.m.conns| && j < |s.r.ports[c].recvs|
  }

  predicate LiveSend(s: Server, c: nat, j: nat) {
    c in s.r.ports && c < |s.m.conns| && j < |s.r.ports[c].sends|
  }

  predicate CanLend(r: Ring, lent: Option<nat>) {
    lent.Some? ==> lent.value in r.free && lent.value < |r.bufs| && |r.bufs[lent.value]| == BUF_SIZE
  }

  predicate KernelEnabled(w: World, ev: KernelEvent) {
    var s := w.s;
    match ev
    case RecvData(c, j, data, bid) =>
      && LiveRecv(s, c, j) && s.r.ports[c].recvs[j].state.RecvWaiting?
      && s.r.ports[c].recvs[j].state.target.Socket? && s.r.ports[c].recvs[j].state.target.sock < |w.socks|
      && 0 < |data| <= BUF_SIZE && CanLend(s.r, Some(bid))
    case RecvFail(c, j, res, lent) =>
      && LiveRecv(s, c, j) && s.r.ports[c].recvs[j].state.RecvWaiting? && s.r.ports[c].recvs[j].state.target != Queued
      && res <= 0 && CanLend(s.r, lent)
    case SendData(c, j, n) =>
      && LiveSend(s, c, j) && s.r.ports[c].sends[j].state.SendWaiting?
      && s.r.ports[c].sends[j].state.target.Socket? && s.r.ports[c].sends[j].state.target.sock < |w.socks|
      && 0 < n <= |s.r.ports[c].sends[j].data|
    case SendFail(c, j, res) =>
      && LiveSend(s, c, j) && s.r.ports[c].sends[j].state.SendWaiting? && s.r.ports[c].sends[j].state.target != Queued
      && res <= 0
    case AcceptConn(fd) => s.r.accepts == [AcceptWaiting] && fd >= 0 && fd !in s.m.os.files
    case AcceptFail(res) => s.r.accepts == [AcceptWaiting] && res < 0
    case NotifyRead => s.r.notifies == [NotifyWaiting] && w.eventfd > 0
    case NotifySpurious => s.r.notifies == [NotifyWaiting]
  }

  ghost predicate PortPosted(p: Port) {
    || (exists j :: 0 <= j < |p.recvs| && p.recvs[j].state.RecvDone?)
    || (exists j :: 0 <= j < |p.sends| && p.sends[j].state.SendDone?)
  }

  /** Some completion is posted and not yet taken: what io_uring_submit_and_wait waits for. */
  ghost predicate Posted(r: Ring) {
    || (exists c :: c in r.ports && PortPosted(r.ports[c]))
    || (exists k :: 0 <= k < |r.accepts| && r.accepts[k].AcceptDone?)
    || NotifyDone in r.notifies
  }

  ghost predicate LoopEnabled(w: World, ev: LoopEvent) {
    var s := w.s;
    && !w.stopped
    && match ev
       case Submit => true
       case Flush => Posted(s.r)
       case TakeRecv(c, j) => LiveRecv(s, c, j) && s.r.ports[c].recvs[j].state.RecvDone?
       case TakeSend(c, j) => LiveSend(s, c, j) && s.r.ports[c].sends[j].state.SendDone?
       case TakeAccept => |s.r.accepts| > 0 && s.r.accepts[0].AcceptDone?
       case TakeNotify => |s.r.notifies| > 0 && s.r.notifies[0].NotifyDone?
  }

  predicate WorkerEnabled(w: World, ev: WorkerEvent) {
    var p := w.s.p;
    match ev
    case PopTask => p.tasks != [] && w.busy < w.live
    case RunDone(co, _) => co < |p.coros| && p.coros[co].state.Running?
    case PushReady(co) => co < |p.coros| && p.coros[co].state.Finished?
    case WriteEventfd => w.unsignalled > 0 && w.busy > 0
    case StopPool => !w.stopped
    case WorkerExit => w.stopped && p.tasks == [] && w.busy < w.live
  }

  ghost predicate Enabled(w: World, ev: Event) {
    match ev
    case Kernel(k) => KernelEnabled(w, k)
    case Loop(l) => LoopEnabled(w, l)
    case Worker(v) => WorkerEnabled(w, v)
  }

  // What each step does.

  /** A recv completes, with the buffer the kernel took from the ring for it, if any. */
  function PostRecv(s: Server, c: nat, j: nat, res: int, lent: Option<nat>, data: Bytes): Server
    requires j < |PortOf(s.r, c).recvs| && CanLend(s.r, lent) && |data| <= BUF_SIZE
  {
    var s1 := PutRecv(s, c, j, RecvDone(res, lent));
    if lent.Some? then Lend(s1, lent.value, data) else s1
  }

  function Receive(socks: seq<Sock>, i: nat, data: Bytes): seq<Sock>
    requires i < |socks|
  {
    socks[i := socks[i].(received := socks[i].received + data)]
  }

  function Transmit(socks: seq<Sock>, i: nat, data: Bytes): seq<Sock>
    requires i < |socks|
  {
    socks[i := socks[i].(accepted := socks[i].accepted + data)]
  }

  function Land(s: Server, fd: int, sock: nat): Server {
    s.(r := s.r.(accepts := [AcceptDone(fd)]), m := s.m.(os := s.m.os.(files := s.m.os.files[fd := sock])))
  }

  ghost function Landed(w: World, fd: int): World {
    w.(s := Land(w.s, fd, |w.socks|), socks := w.socks + [Sock([], [])], clean := w.clean && !Named(w.s.r, fd))
  }

  function AcceptPosted(s: Server, res: int): Server {
    s.(r := s.r.(accepts := [AcceptDone(res)]))
  }

  function NotifyPosted(s: Server): Server {
    s.(r := s.r.(notifies := [NotifyDone]))
  }

  ghost function KernelNext(w: World, ev: KernelEvent): World
    requires KernelEnabled(w, ev)
  {
    var s := w.s;
    match ev
    case RecvData(c, j, data, bid) =>
      w.(s := PostRecv(s, c, j, |data|, Some(bid), data),
         socks := Receive(w.socks, s.r.ports[c].recvs[j].state.target.sock, data))
    case RecvFail(c, j, res, lent) => w.(s := PostRecv(s, c, j, res, lent, []))
    case SendData(c, j, n) =>
      var op := s.r.ports[c].sends[j];
      w.(s := PutSend(s, c, j, SendDone(n)), socks := Transmit(w.socks, op.state.target.sock, op.data[..n]))
    case SendFail(c, j, res) => w.(s := PutSend(s, c, j, SendDone(res)))
    case AcceptConn(fd) =>
      Landed(w, fd)
    case AcceptFail(res) => w.(s := AcceptPosted(s, res))
    case NotifyRead => w.(s := NotifyPosted(s), eventfd := 0)
    case NotifySpurious => w.(s := NotifyPosted(s))
  }

  function LoopNext(e: Config, w: World, ev: LoopEvent): World
    requires LoopEnabled(w, ev) && Wf(w.s.m) && PoolWf(w.s.p)
  {
    var s := w.s;
    w.(s := match ev
            case Submit => s.(r := FlushAll(s.r, s.m.os.files))
            case Flush => Retry(e, s.(r := FlushAll(s.r, s.m.os.files)))
            case TakeRecv(c, j) => ProcessRecv(e, s, c, j)
            case TakeSend(c, j) => ProcessSend(e, s, c, j)
            case TakeAccept => ProcessAccept(e, s, 0)
            case TakeNotify => ProcessNotify(e, s, 0))
  }

  function FrameFor(k: Coro, result: Option<Bytes>): Bytes {
    if result.Some? then ResponseFrame(k.request.requestId, result.value) else []
  }

  function Start(p: Pool): Pool
    requires p.tasks != [] && p.tasks[0] < |p.coros|
  {
    var co := p.tasks[0];
    p.(tasks := p.tasks[1..], coros := p.coros[co := p.coros[co].(state := Running)])
  }

  function Finish(p: Pool, co: nat, result: Option<Bytes>): Pool
    requires co < |p.coros|
  {
    var k := p.coros[co];
    p.(coros := p.coros[co := k.(state := Finished, result := result, frame := FrameFor(k, result))])
  }

  function Push(p: Pool, co: nat): Pool
    requires co < |p.coros|
  {
    p.(ready := p.ready + [co], coros := p.coros[co := p.coros[co].(state := Ready)])
  }

  function WorkerNext(w: World, ev: WorkerEvent): World
    requires WorkerEnabled(w, ev) && PoolWf(w.s.p)
  {
    match ev
    case PopTask => w.(s := w.s.(p := Start(w.s.p)), busy := w.busy + 1)
    case RunDone(co, result) => w.(s := w.s.(p := Finish(w.s.p, co, result)))
    case PushReady(co) => w.(s := w.s.(p := Push(w.s.p, co)), unsignalled := w.unsignalled + 1)
    case WriteEventfd => w.(unsignalled := w.unsignalled - 1, busy := w.busy - 1, eventfd := w.eventfd + 1)
    case StopPool => w.(stopped := true)
    case WorkerExit => w.(live := w.live - 1)
  }

  ghost function Next(e: Config, w: World, ev: Event): World
    requires Enabled(w, ev) && Wf(w.s.m) && PoolWf(w.s.p)
  {
    match ev
    case Kernel(k) => KernelNext(w, k)
    case Loop(l) => LoopNext(e, w, l)
    case Worker(v) => WorkerNext(w, v)
  }
}
