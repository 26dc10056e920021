/**
  The io_uring provider as an object updated in place.

  Every method is proved to do what the function of the same name in Reactor says, so that all that is proved of
  runs of those functions holds of runs of this code.
 */
module UringRpcProviders {
  import opened ByteStrings
  import opened Wire
  import opened Connections
  import opened ConnectionManagers
  import opened Reactor
  import opened ReactorRun
  import opened ReactorInvariant
  import opened ReactorHandlers
  import opened ReactorProcess
  import opened ReactorSafety
  import opened ReactorStreamSteps

  /** Dispatching one request, then the others. */
  lemma DispatchCons(s: Server, c: nat, r: Request, rest: Bytes, requests: seq<Request>, rest': Bytes)
    requires c < |s.m.conns|
    ensures DispatchAll(DispatchAll(s, c, [r], rest), c, requests, rest') == DispatchAll(s, c, [r] + requests, rest')
  {
    var x := s.m.conns[c];
    DispatchPool(s.p, x.fd, x.connId, r, requests);
    assert AfterDrain(AfterDrain(x, [r], rest), requests, rest') == AfterDrain(x, [r] + requests, rest');
    PutTwice(s.m, c, AfterDrain(x, [r], rest), AfterDrain(x, [r] + requests, rest'));
  }

  /** The pool after dispatching one request, and after dispatching the others too. */
  lemma DispatchPool(p: Pool, fd: int, connId: nat, r: Request, requests: seq<Request>)
    ensures var p' := p.(coros := p.coros + Spawn(fd, connId, [r]), tasks := p.tasks + Ids(|p.coros|, 1));
      && p'.coros + Spawn(fd, connId, requests) == p.coros + Spawn(fd, connId, [r] + requests)
      && p'.tasks + Ids(|p'.coros|, |requests|) == p.tasks + Ids(|p.coros|, |[r] + requests|)
  {
    assert ([r] + requests)[1..] == requests;
    assert Spawn(fd, connId, [r]) == [Coro(fd, connId, r, Waiting, None, [])];
    assert Ids(|p.coros|, 1) == [|p.coros|];
  }

  /** Dispatching nothing only consumes bytes. */
  lemma DispatchNone(s: Server, c: nat, requests: seq<Request>, rest: Bytes, rest': Bytes)
    requires c < |s.m.conns|
    ensures var t := DispatchAll(s, c, requests, rest);
      PutCtx(t, c, t.m.conns[c].(input := rest')) == DispatchAll(s, c, requests, rest')
    ensures DispatchAll(s, c, [], s.m.conns[c].input) == s
  {
    var t := DispatchAll(s, c, requests, rest);
    assert t.m.conns[c := t.m.conns[c].(input := rest')] == DispatchAll(s, c, requests, rest').m.conns;
    assert s.m.conns[c := s.m.conns[c]] == s.m.conns;
    assert s.p.coros + [] == s.p.coros && s.p.tasks + [] == s.p.tasks;
  }

  lemma DispatchNothing(s: Server, c: nat, rest: Bytes)
    requires c < |s.m.conns|
    ensures DispatchAll(s, c, [], rest) == PutCtx(s, c, s.m.conns[c].(input := rest))
  {
    assert s.p.coros + [] == s.p.coros && s.p.tasks + [] == s.p.tasks;
  }

  lemma DispatchAfterErase(s: Server, c: nat, rest: Bytes, r: Request)
    requires c < |s.m.conns|
    ensures var t := DispatchAll(s, c, [], rest); DispatchAll(t, c, [r], t.m.conns[c].input) == DispatchAll(s, c, [r], rest)
  {
    DispatchNothing(s, c, rest);
    var x := s.m.conns[c];
    PutTwice(s.m, c, x.(input := rest), AfterDrain(x, [r], rest));
  }

  /** What the whole drain loop does to the buffer of context c; `open` unless it closed the connection. */
  ghost predicate DrainDone(g: Registry, s: Server, c: nat, fd: int, open: bool, t: Server)
    requires Wf(s.m) && c < |s.m.conns|
  {
    var d := Drain(g, s.m.conns[c].input);
    var u := DispatchAll(s, c, d.requests, d.rest);
    open == !d.closed && t == if d.closed then CloseConn(u, fd) else u
  }

  /** The loop, one request after the other, does what Drain says of the whole buffer. */
  lemma {:induction false} DrainLoopDone(g: Registry, s: Server, c: nat, fd: int)
    requires Wf(s.m) && c < |s.m.conns| && fd in s.m.active
    ensures var (open, t) := DrainLoop(g, s, c, fd); DrainDone(g, s, c, fd, open, t)
    decreases |s.m.conns[c].input|
  {
    var input := s.m.conns[c].input;
    match TryParse(g, input)
    case NeedMore => DispatchNone(s, c, [], input, input);
    case Reject(k) =>
    case Dispatch(r, k) =>
      var t := DispatchAll(s, c, [r], input[k..]);
      var d := Drain(g, input[k..]);
      DrainLoopDone(g, t, c, fd);
      DrainStep(g, input, r, k);
      DispatchCons(s, c, r, input[k..], d.requests, d.rest);
  }

  /** A recv completion taken off and its buffer returned, before its handler runs: was the context recycled, and what
      is the state. */
  ghost function AfterRecv(s: Server, c: nat, j: nat): (bool, Server)
    requires c < |s.m.conns| && j < |PortOf(s.r, c).recvs| && PortOf(s.r, c).recvs[j].state.RecvDone?
  {
    var p := PortOf(s.r, c);
    var s2 := Reactor.TakeBuffer(s.(r := s.r.(ports := s.r.ports[c := p.(recvs := RemoveAt(p.recvs, j))])), c, p.recvs[j].state);
    var (recycled, m3) := Connections.OnComplete(s2.m, c);
    (recycled, s2.(m := m3))
  }

  lemma RecvInTwo(e: Config, s: Server, c: nat, j: nat)
    requires Wf(s.m) && c < |s.m.conns| && j < |PortOf(s.r, c).recvs| && PortOf(s.r, c).recvs[j].state.RecvDone?
    ensures var (recycled, t) := AfterRecv(s, c, j);
      && Wf(t.m) && |t.m.conns| == |s.m.conns|
      && ProcessRecv(e, s, c, j) == if recycled then t else Reactor.HandleRecv(e, t, c, PortOf(s.r, c).recvs[j].state.res)
  {
  }

  class UringRpcProvider {
    const config: Config
    const connMgr: ConnectionManager
    var ring: Ring
    var coros: seq<Coro>
    var taskQueue: seq<nat>
    var readyCoros: seq<nat>
    ghost var resuming: seq<nat>      // what HandleNotify holds in its local list
    var acceptPending: bool
    var notifyPending: bool
    ghost var delivered: map<nat, seq<nat>>

    ghost predicate Valid()
      reads this, connMgr, connMgr.contexts
    {
      connMgr.Valid()
    }

    ghost function View(): Server
      reads this, connMgr
    {
      Server(connMgr.now, ring, Pool(coros, taskQueue, readyCoros, resuming), acceptPending, notifyPending, delivered)
    }

    /** The object is the active context of its descriptor. */
    ghost predicate Active(ctx: ConnectionContext)
      reads this, connMgr, ctx
    {
      connMgr.Owns(ctx) && ctx.fd in connMgr.now.active && connMgr.now.active[ctx.fd] == ctx.slot
    }

    constructor (config: Config, buffers: nat)
      ensures Valid() && this.config == config && View() == Boot(buffers)
      ensures fresh(connMgr) && connMgr.contexts == {}
    {
      this.config := config;
      connMgr := new ConnectionManager(Descriptors(map[], [], 0));
      ring := Ring(map[], [AcceptWaiting], [NotifyWaiting], multiset(Ids(0, buffers)),
                   seq(buffers, _ => Zeros(BUF_SIZE)), 0);
      coros, taskQueue, readyCoros, resuming, delivered := [], [], [], [], map[];
      acceptPending, notifyPending := false, false;
    }

    // Submissions.

    method GetSqe() returns (ok: bool)
      requires Valid()
      modifies this`ring
      ensures ok == config.sqe(old(ring).calls) && Valid() && View() == Reactor.GetSqe(old(View()))
    {
      ok := config.sqe(ring.calls);
      ring := ring.(calls := ring.calls + 1);
    }

    method SubmitAccept() returns (ok: bool)
      requires Valid()
      modifies this`ring
      ensures Valid() && (ok, View()) == Reactor.SubmitAccept(config, old(View()))
    {
      ok := GetSqe();
      if ok {
        ring := ring.(accepts := ring.accepts + [AcceptWaiting]);
      }
    }

    method SubmitNotifyRead() returns (ok: bool)
      requires Valid()
      modifies this`ring
      ensures Valid() && (ok, View()) == Reactor.SubmitNotifyRead(config, old(View()))
    {
      ok := GetSqe();
      if ok {
        ring := ring.(notifies := ring.notifies + [NotifyWaiting]);
      }
    }

    method PrepRecv(fd: int, ctx: ConnectionContext)
      requires Valid() && connMgr.Owns(ctx)
      modifies this`ring, connMgr`now, ctx
      ensures Valid() && View() == Reactor.PrepRecv(old(View()), ctx.slot, fd)
    {
      var p := PortOf(ring, ctx.slot);
      ring := ring.(ports := ring.ports[ctx.slot := p.(recvs := p.recvs + [RecvOp(fd, RecvWaiting(Queued))])]);
      connMgr.OnSubmit(ctx);
    }

    method SubmitRecv(fd: int) returns (ok: bool)
      requires Valid()
      modifies this`ring, connMgr`now, connMgr.contexts
      ensures Valid() && (ok, View()) == Reactor.SubmitRecv(config, old(View()), fd)
    {
      var ctx := connMgr.Find(fd);
      if ctx == null {
        return false;
      }
      ok := GetSqe();
      if ok {
        PrepRecv(fd, ctx);
      }
    }

    /** Fills the entry with the unsent rest of the front frame: the kernel reads the queue's own bytes. */
    method PrepSend(fd: int, ctx: ConnectionContext)
      requires Valid() && connMgr.Owns(ctx) && |ctx.outQueue| > 0
      modifies this`ring, connMgr`now, ctx
      ensures Valid() && View() == Reactor.PrepSend(old(View()), ctx.slot, fd)
    {
      var front := ctx.outQueue[0];
      var data := if ctx.written <= |front| then front[ctx.written..] else [];
      var p := PortOf(ring, ctx.slot);
      ring := ring.(ports := ring.ports[ctx.slot := p.(sends := p.sends + [SendOp(fd, data, SendWaiting(Queued))])]);
      MarkSending(ctx);
    }

    method MarkSending(ctx: ConnectionContext)
      requires Valid() && connMgr.Owns(ctx)
      modifies connMgr`now, ctx
      ensures Valid()
      ensures var x := old(ctx.Snapshot());
        connMgr.now == Put(old(connMgr.now), ctx.slot, x.(inflight := x.inflight + 1, sending := true))
    {
      connMgr.OnSubmit(ctx);
      ctx.sending := true;
      connMgr.Sync(ctx);
    }

    method SubmitSend(fd: int) returns (ok: bool)
      requires Valid()
      modifies this`ring, connMgr`now, connMgr.contexts
      ensures Valid() && (ok, View()) == Reactor.SubmitSend(config, old(View()), fd)
    {
      var ctx := connMgr.Find(fd);
      if ctx == null {
        return false;
      }
      if |ctx.outQueue| == 0 {
        ctx.sending := false;
        connMgr.Sync(ctx);
        return true;
      }
      ok := GetSqe();
      if ok {
        PrepSend(fd, ctx);
      }
    }

    // Accepting.

    method RearmAccept()
      requires Valid()
      modifies this`ring, this`acceptPending
      ensures Valid() && View() == Reactor.RearmAccept(config, old(View()))
    {
      var ok := SubmitAccept();
      if !ok {
        acceptPending := true;
      }
    }

    method HandleAccept(result: int)
      requires Valid()
      modifies this`ring, this`acceptPending, connMgr, connMgr.contexts
      ensures Valid() && fresh(connMgr.contexts - old(connMgr.contexts))
      ensures View() == Reactor.HandleAccept(config, old(View()), result)
    {
      if result < 0 {
        RearmAccept();
        return;
      }
      NewConnection(result);
      RearmAccept();
    }

    method NewConnection(connfd: int)
      requires Valid()
      modifies this`ring, connMgr, connMgr.contexts
      ensures Valid() && fresh(connMgr.contexts - old(connMgr.contexts))
      ensures var s := old(View());
        var (ok, t) := Reactor.SubmitRecv(config, s.(m := Connections.Acquire(s.m, connfd).1), connfd);
        View() == if ok then t else CloseConn(t, connfd)
    {
      var ctx := connMgr.Acquire(connfd);
      var ok := SubmitRecv(connfd);
      if !ok {
        connMgr.Close(connfd);
      }
    }

    // Receiving.

    method SubmitTask(task: nat)
      requires Valid()
      modifies this`taskQueue
      ensures Valid() && View() == old(View()).(p := old(View()).p.(tasks := old(taskQueue) + [task]))
    {
      taskQueue := taskQueue + [task];
    }

    /** Starts the request's coroutine, which runs to its first suspension: its task is in the queue. */
    method HandleRpc(fd: int, connId: nat, request: Request)
      requires Valid()
      modifies this`coros, this`taskQueue
      ensures Valid()
      ensures var s := old(View());
        View() == s.(p := s.p.(coros := s.p.coros + Spawn(fd, connId, [request]), tasks := s.p.tasks + Ids(|s.p.coros|, 1)))
    {
      assert Spawn(fd, connId, [request]) == [Coro(fd, connId, request, Waiting, None, [])];
      assert Ids(|coros|, 1) == [|coros|];
      coros := coros + [Coro(fd, connId, request, Waiting, None, [])];
      SubmitTask(|coros| - 1);
    }

    /** Looks the method up, decodes its arguments and dispatches; anything unknown closes the connection. */
    method Route(fd: int, ctx: ConnectionContext, h: Header, args: Bytes)
      requires Valid() && Active(ctx) && ctx.fd == fd
      modifies this`coros, this`taskQueue, connMgr`active, connMgr`idlePool, connMgr`now, connMgr.contexts
      ensures Valid()
      ensures View() ==
        if Known(config.registry, h, args)
        then DispatchAll(old(View()), ctx.slot, [RequestOf(h, args)], old(ctx.input))
        else CloseConn(old(View()), fd)
    {
      if h.serviceName !in config.registry.services {
        connMgr.Close(fd);
        return;
      }
      var methods := config.registry.services[h.serviceName];
      if h.methodName !in methods {
        connMgr.Close(fd);
        return;
      }
      if !config.registry.argsParse(h.serviceName, h.methodName, args) {
        connMgr.Close(fd);
        return;
      }
      Dispatch(fd, ctx, RequestOf(h, args));
    }

    method Dispatch(fd: int, ctx: ConnectionContext, request: Request)
      requires Valid() && connMgr.Owns(ctx) && ctx.fd == fd
      modifies this`coros, this`taskQueue, connMgr`now, ctx
      ensures Valid() && View() == DispatchAll(old(View()), ctx.slot, [request], old(ctx.input))
    {
      ctx.pendingReqs := ctx.pendingReqs + 1;
      connMgr.Sync(ctx);
      HandleRpc(fd, ctx.connId, request);
    }

    method Erase(ctx: ConnectionContext, n: nat)
      requires Valid() && Active(ctx) && n <= |ctx.input|
      modifies connMgr`now, ctx`input
      ensures Valid() && Active(ctx) && ctx.input == old(ctx.input)[n..]
      ensures View() == DispatchAll(old(View()), ctx.slot, [], old(ctx.input)[n..])
    {
      ghost var s := View();
      ctx.input := ctx.input[n..];
      connMgr.Sync(ctx);
      DispatchNone(s, ctx.slot, [], old(ctx.input), ctx.input);
    }

    /** The checks in the order that keeps a hostile length from growing the buffer. */
    method ReadFrame(ctx: ConnectionContext) returns (f: Framed)
      ensures f == NextFrame(config.registry, ctx.input)
    {
      if |ctx.input| < 4 {
        return Short;
      }
      var headerSize := FromLE(ctx.input[..4]);
      if headerSize > MAX_HEADER_SIZE {
        return Malformed;
      }
      if |ctx.input| < 4 + headerSize {
        return Short;
      }
      var header := config.registry.parseHeader(ctx.input[4..4 + headerSize]);
      if header.None? {
        return Malformed;
      }
      if header.value.argsSize > MAX_BODY_SIZE {
        return Malformed;
      }
      var size := 4 + headerSize + header.value.argsSize;
      if |ctx.input| < size {
        return Short;
      }
      return Whole(header.value, ctx.input[4 + headerSize..size], size);
    }

    method TakeFrame(fd: int, ctx: ConnectionContext, h: Header, args: Bytes, size: nat)
      requires Valid() && Active(ctx) && ctx.fd == fd && size <= |ctx.input|
      modifies this`coros, this`taskQueue, connMgr`active, connMgr`idlePool, connMgr`now, connMgr.contexts
      ensures Valid()
      ensures var s, c, rest := old(View()), ctx.slot, old(ctx.input)[size..];
        View() == if Known(config.registry, h, args) then DispatchAll(s, c, [RequestOf(h, args)], rest)
                  else CloseConn(DispatchAll(s, c, [], rest), fd)
    {
      ghost var s, rest := View(), ctx.input[size..];
      Erase(ctx, size);
      Route(fd, ctx, h, args);
      DispatchAfterErase(s, ctx.slot, rest, RequestOf(h, args));
    }

    /** One turn of the drain loop: true means a request was dispatched, or the connection closed. */
    method TryHandleRequest(fd: int, ctx: ConnectionContext) returns (more: bool)
      requires Valid() && Active(ctx) && ctx.fd == fd
      modifies this`coros, this`taskQueue, connMgr`active, connMgr`idlePool, connMgr`now, connMgr.contexts
      ensures Valid() && (more, View()) == HandleRequest(config.registry, old(View()), ctx.slot, fd)
      ensures fd in connMgr.now.active ==> Active(ctx) && ctx.fd == fd
    {
      ghost var s := View();
      var f := ReadFrame(ctx);
      match f
      case Short =>
        return false;
      case Malformed =>
        DispatchNone(s, ctx.slot, [], ctx.input, ctx.input);
        connMgr.Close(fd);
        return true;
      case Whole(h, args, size) =>
        TakeFrame(fd, ctx, h, args, size);
        return true;
    }

    method RearmRecv(fd: int)
      requires Valid()
      modifies this`ring, connMgr`active, connMgr`idlePool, connMgr`now, connMgr.contexts
      ensures Valid() && View() == Reactor.RearmRecv(config, old(View()), fd)
    {
      var ok := SubmitRecv(fd);
      if !ok {
        connMgr.Close(fd);
      }
    }

    /** Dispatches every complete request in the buffer; false means that the connection was closed. */
    method DrainInput(fd: int, ctx: ConnectionContext) returns (open: bool)
      requires Valid() && Active(ctx) && ctx.fd == fd
      modifies this`coros, this`taskQueue, connMgr`active, connMgr`idlePool, connMgr`now, connMgr.contexts
      ensures Valid() && (open, View()) == DrainLoop(config.registry, old(View()), ctx.slot, fd)
      ensures open ==> Active(ctx) && ctx.fd == fd
    {
      ghost var r := DrainLoop(config.registry, View(), ctx.slot, fd);
      while true
        invariant Valid() && Active(ctx) && ctx.fd == fd
        invariant r == DrainLoop(config.registry, View(), ctx.slot, fd)
        decreases |View().m.conns[ctx.slot].input|
      {
        var more := TryHandleRequest(fd, ctx);
        if !more {
          return true;
        }
        if connMgr.Find(fd) == null {
          return false;
        }
      }
    }

    /** The end of handleRecv: pause at the limit, otherwise arm the next recv at once. */
    method ReadOn(ctx: ConnectionContext)
      requires Valid() && connMgr.Owns(ctx)
      modifies this`ring, connMgr`active, connMgr`idlePool, connMgr`now, connMgr.contexts
      ensures Valid() && View() == Reactor.ReadOn(config, old(View()), ctx.slot)
    {
      if ctx.pendingReqs >= MAX_INFLIGHT_PER_CONN {
        ctx.readPaused := true;
        connMgr.Sync(ctx);
        return;
      }
      RearmRecv(ctx.fd);
    }

    method HandleRecv(ctx: ConnectionContext, result: int)
      requires Valid() && connMgr.Owns(ctx) && (ctx.closing || Active(ctx))
      modifies this`ring, this`coros, this`taskQueue, connMgr`active, connMgr`idlePool, connMgr`now, connMgr.contexts
      ensures Valid() && View() == Reactor.HandleRecv(config, old(View()), ctx.slot, result)
    {
      var fd := ctx.fd;
      if ctx.closing {
        return;
      }
      if result <= 0 {
        if result == -ENOBUFS {
          RearmRecv(fd);
          return;
        }
        connMgr.Close(fd);
        return;
      }
      HandleData(ctx);
    }

    method HandleData(ctx: ConnectionContext)
      requires Valid() && Active(ctx)
      modifies this`ring, this`coros, this`taskQueue, connMgr`active, connMgr`idlePool, connMgr`now, connMgr.contexts
      ensures Valid() && View() == Reactor.HandleData(config, old(View()), ctx.slot)
    {
      DrainLoopDone(config.registry, View(), ctx.slot, ctx.fd);
      var open := DrainInput(ctx.fd, ctx);
      if open {
        ReadOn(ctx);
      }
    }

    // Sending.

    method ContinueSend(fd: int, ctx: ConnectionContext)
      requires Valid() && connMgr.Owns(ctx)
      modifies this`ring, connMgr`active, connMgr`idlePool, connMgr`now, connMgr.contexts
      ensures Valid() && View() == Reactor.ContinueSend(config, old(View()), ctx.slot, fd)
    {
      if |ctx.outQueue| == 0 {
        ctx.sending := false;
        connMgr.Sync(ctx);
        return;
      }
      var ok := SubmitSend(fd);
      if !ok {
        connMgr.Close(fd);
      }
    }

    method ResumeReading(fd: int, ctx: ConnectionContext)
      requires Valid() && connMgr.Owns(ctx)
      modifies this`ring, connMgr`active, connMgr`idlePool, connMgr`now, connMgr.contexts
      ensures Valid() && View() == Reactor.ResumeReading(config, old(View()), ctx.slot, fd)
    {
      var ok := SubmitRecv(fd);
      if !ok {
        connMgr.Close(fd);
        return;
      }
      ContinueSend(fd, ctx);
    }

    method FrameSent(fd: int, ctx: ConnectionContext)
      requires Valid() && connMgr.Owns(ctx) && |ctx.outQueue| > 0 && fd == ctx.fd
      modifies this`ring, connMgr`active, connMgr`idlePool, connMgr`now, connMgr.contexts
      ensures Valid()
      ensures View() == Reactor.FrameSent(config, old(View()), ctx.slot)
    {
      ghost var m, y := connMgr.now, PopFront(ctx.Snapshot());
      Pop(ctx);
      if ctx.readPaused && ctx.pendingReqs < MAX_INFLIGHT_PER_CONN {
        ctx.readPaused := false;
        connMgr.Sync(ctx);
        PutTwice(m, ctx.slot, y, y.(readPaused := false));
        ResumeReading(fd, ctx);
      } else {
        ContinueSend(fd, ctx);
      }
    }

    method Pop(ctx: ConnectionContext)
      requires Valid() && connMgr.Owns(ctx) && |ctx.outQueue| > 0
      modifies connMgr`now, ctx
      ensures Valid() && ctx.Snapshot() == PopFront(old(ctx.Snapshot()))
      ensures connMgr.now == Put(old(connMgr.now), ctx.slot, ctx.Snapshot())
    {
      ctx.outQueue := ctx.outQueue[1..];
      ctx.written := 0;
      ctx.pendingReqs := ctx.pendingReqs - 1;
      connMgr.Sync(ctx);
    }

    /** Never tests `closing`: that no send completes on a closing connection with others outstanding is an
        invariant of the whole machine, and so is that the queue is not empty. */
    method HandleSend(ctx: ConnectionContext, result: int)
      requires Valid() && connMgr.Owns(ctx) && (result > 0 ==> |ctx.outQueue| > 0)
      modifies this`ring, connMgr`active, connMgr`idlePool, connMgr`now, connMgr.contexts
      ensures Valid() && View() == Reactor.HandleSend(config, old(View()), ctx.slot, result)
    {
      var fd := ctx.fd;
      if result <= 0 {
        connMgr.Close(fd);
        return;
      }
      if ctx.written + result >= |ctx.outQueue[0]| {
        FrameSent(fd, ctx);
      } else {
        PartlySent(fd, ctx, result);
      }
    }

    method AdvanceWritten(ctx: ConnectionContext, result: int)
      requires Valid() && connMgr.Owns(ctx) && result > 0
      modifies connMgr`now, ctx`written
      ensures Valid() && View() == PutCtx(old(View()), ctx.slot, Advance(old(ctx.Snapshot()), result))
      ensures ctx.Snapshot() == Advance(old(ctx.Snapshot()), result)
    {
      ctx.written := ctx.written + result;
      connMgr.Sync(ctx);
    }

    method PartlySent(fd: int, ctx: ConnectionContext, result: int)
      requires Valid() && connMgr.Owns(ctx) && fd == ctx.fd && result > 0
      modifies this`ring, connMgr`active, connMgr`idlePool, connMgr`now, connMgr.contexts
      ensures Valid() && View() == Reactor.PartlySent(config, old(View()), ctx.slot, result)
    {
      AdvanceWritten(ctx, result);
      ContinueSend(fd, ctx);
    }

    // Resuming coroutines.

    method DeliverResponse(fd: int, connId: nat, data: Bytes, ghost co: nat)
      requires Valid() && co < |coros| && coros[co].fd == fd && coros[co].connId == connId && coros[co].frame == data
      modifies this`ring, this`delivered, connMgr`active, connMgr`idlePool, connMgr`now, connMgr.contexts
      ensures Valid() && View() == Reactor.DeliverResponse(config, old(View()), co)
    {
      var ctx := connMgr.Find(fd);
      if ctx == null || ctx.connId != connId {
        return;
      }
      Enqueue(ctx, data, co);
      if !ctx.sending {
        var ok := SubmitSend(fd);
        if !ok {
          connMgr.Close(fd);
        }
      }
    }

    method Enqueue(ctx: ConnectionContext, data: Bytes, ghost co: nat)
      requires Valid() && connMgr.Owns(ctx) && co < |coros| && coros[co].frame == data
      modifies this`delivered, connMgr`now, ctx
      ensures Valid() && View() == WithFrame(old(View()), ctx.slot, co) && ctx.sending == old(ctx.sending)
    {
      ctx.outQueue := ctx.outQueue + [data];
      connMgr.Sync(ctx);
      delivered := delivered[ctx.connId := DeliveredOn(View(), ctx.connId) + [co]];
    }

    /** The second half of handleRpc: the frame was written by the worker before it handed the coroutine back. */
    method Resume(co: nat)
      requires Valid() && co < |coros|
      modifies this`ring, this`coros, this`delivered, connMgr`active, connMgr`idlePool, connMgr`now, connMgr.contexts
      ensures Valid() && View() == ResumeCoro(config, old(View()), co)
    {
      coros := coros[co := coros[co].(state := Resumed)];
      var k := coros[co];
      if |k.frame| > 0 {
        DeliverResponse(k.fd, k.connId, k.frame, co);
      }
    }

    method HandleNotify()
      requires Valid() && PoolWf(View().p)
      modifies this`ring, this`coros, this`readyCoros, this`resuming, this`delivered
      modifies connMgr`active, connMgr`idlePool, connMgr`now, connMgr.contexts
      ensures Valid() && View() == Reactor.HandleNotify(config, old(View()))
    {
      var ready := readyCoros;
      readyCoros := [];
      resuming := ready;
      ghost var t := ResumeAll(config, View());
      for i := 0 to |ready|
        invariant Valid() && PoolWf(View().p) && resuming == ready[i..]
        invariant t == ResumeAll(config, View())
      {
        ResumeNext(ready[i]);
      }
    }

    method ResumeNext(co: nat)
      requires Valid() && PoolWf(View().p) && |resuming| > 0 && co == resuming[0]
      modifies this`ring, this`coros, this`resuming, this`delivered
      modifies connMgr`active, connMgr`idlePool, connMgr`now, connMgr.contexts
      ensures Valid() && View() == ResumeFirst(config, old(View()))
    {
      resuming := resuming[1..];
      Resume(co);
    }

    // Worker threads, each step under its lock.

    /** What a worker does once its wait is over: there is a task, or the pool was stopped. It leaves only when the pool
        was stopped and no task is left. */
    method PopTask(stop: bool) returns (co: Option<nat>)
      requires Valid() && PoolWf(View().p) && (stop || |taskQueue| > 0)
      modifies this`taskQueue, this`coros
      ensures Valid() && (co.None? <==> stop && old(taskQueue) == [])
      ensures if co.Some? then co.value == old(taskQueue)[0] && View() == old(View()).(p := Start(old(View()).p))
              else View() == old(View())
    {
      if stop && |taskQueue| == 0 {
        return None;
      }
      co := Some(taskQueue[0]);
      taskQueue := taskQueue[1..];
      coros := coros[co.value := coros[co.value].(state := Running)];
    }

    /** The service has called `done`: a response that serialised is framed, one that did not leaves no frame. */
    method OnPoolDone(co: nat, response: Option<Bytes>)
      requires Valid() && co < |coros| && coros[co].frame == []
      modifies this`coros
      ensures Valid() && View() == old(View()).(p := Finish(old(View()).p, co, response))
    {
      var k := coros[co].(state := Finished, result := response);
      if response.Some? {
        var responseSize := 8 + |response.value|;
        k := k.(frame := k.frame + LE(responseSize, 4));
        k := k.(frame := k.frame + LE(k.request.requestId, 8));
        k := k.(frame := k.frame + response.value);
        assert k.frame == ResponseFrame(k.request.requestId, response.value);
      }
      coros := coros[co := k];
    }

    /** The coroutine goes into the ready list, and the eventfd is written after that. */
    method ResumeOnReactor(co: nat, eventfd: nat) returns (written: nat)
      requires Valid() && co < |coros|
      modifies this`readyCoros, this`coros
      ensures Valid() && View() == old(View()).(p := Push(old(View()).p, co)) && written == eventfd + 1
    {
      readyCoros := readyCoros + [co];
      coros := coros[co := coros[co].(state := Ready)];
      written := eventfd + 1;
    }

    // The event loop.

    /** Takes a recv off the completion queue: its bytes are copied out before its buffer goes back. */
    method TakeBuffer(ctx: ConnectionContext, done: RecvState)
      requires Valid() && connMgr.Owns(ctx) && done.RecvDone?
      requires done.bid.Some? ==> done.bid.value < |ring.bufs| && done.res <= |ring.bufs[done.bid.value]|
      modifies this`ring, connMgr`now, ctx`input
      ensures Valid() && View() == Reactor.TakeBuffer(old(View()), ctx.slot, done)
    {
      if done.bid.None? {
        return;
      }
      var bid := done.bid.value;
      assert ctx.input + [] == ctx.input;
      if done.res > 0 && !ctx.closing {
        ctx.input := ctx.input + ring.bufs[bid][..done.res];
      }
      connMgr.Sync(ctx);
      ring := ring.(free := ring.free + multiset{bid});
    }

    method TakeRecv(ctx: ConnectionContext, j: nat)
      requires Valid() && Inv(config, View()) && connMgr.Owns(ctx)
      requires LiveRecv(View(), ctx.slot, j) && ring.ports[ctx.slot].recvs[j].state.RecvDone?
      modifies this, connMgr, connMgr.contexts
      ensures Valid() && connMgr.contexts == old(connMgr.contexts)
      ensures View() == ProcessRecv(config, old(View()), ctx.slot, j)
    {
      RecvOfActive(config, View(), ctx.slot, j);
      RecvInTwo(config, View(), ctx.slot, j);
      var recycled, res := RecvSeen(ctx, j);
      if !recycled {
        HandleRecv(ctx, res);
      }
    }

    method RecvSeen(ctx: ConnectionContext, j: nat) returns (recycled: bool, res: int)
      requires Valid() && connMgr.Owns(ctx) && (ctx.closing || Active(ctx))
      requires j < |PortOf(ring, ctx.slot).recvs| && PortOf(ring, ctx.slot).recvs[j].state.RecvDone?
      requires var done := PortOf(ring, ctx.slot).recvs[j].state;
        done.bid.Some? ==> done.bid.value < |ring.bufs| && done.res <= |ring.bufs[done.bid.value]|
      modifies this`ring, connMgr`idlePool, connMgr`now, ctx
      ensures Valid() && (!recycled ==> ctx.closing || Active(ctx))
      ensures (recycled, View()) == AfterRecv(old(View()), ctx.slot, j) && res == old(PortOf(ring, ctx.slot).recvs[j].state.res)
    {
      var p := PortOf(ring, ctx.slot);
      var done := p.recvs[j].state;
      ring := ring.(ports := ring.ports[ctx.slot := p.(recvs := RemoveAt(p.recvs, j))]);
      TakeBuffer(ctx, done);
      recycled := connMgr.OnComplete(ctx);
      res := done.res;
    }

    method TakeSend(ctx: ConnectionContext, j: nat)
      requires Valid() && Inv(config, View()) && connMgr.Owns(ctx)
      requires LiveSend(View(), ctx.slot, j) && ring.ports[ctx.slot].sends[j].state.SendDone?
      modifies this, connMgr, connMgr.contexts
      ensures Valid() && connMgr.contexts == old(connMgr.contexts)
      ensures View() == ProcessSend(config, old(View()), ctx.slot, j)
    {
      SendOfActive(config, View(), ctx.slot, j);
      var p := PortOf(ring, ctx.slot);
      var res := p.sends[j].state.res;
      ring := ring.(ports := ring.ports[ctx.slot := p.(sends := RemoveAt(p.sends, j))]);
      var recycled := connMgr.OnComplete(ctx);
      if !recycled {
        HandleSend(ctx, res);
      }
    }

    method TakeAccept()
      requires Valid() && |ring.accepts| > 0 && ring.accepts[0].AcceptDone?
      modifies this, connMgr, connMgr.contexts
      ensures Valid() && fresh(connMgr.contexts - old(connMgr.contexts))
      ensures View() == ProcessAccept(config, old(View()), 0)
    {
      var res := ring.accepts[0].res;
      ring := ring.(accepts := RemoveAt(ring.accepts, 0));
      HandleAccept(res);
    }

    method TakeNotify()
      requires Valid() && PoolWf(View().p) && |ring.notifies| > 0 && ring.notifies[0].NotifyDone?
      modifies this, connMgr, connMgr.contexts
      ensures Valid() && connMgr.contexts == old(connMgr.contexts)
      ensures View() == ProcessNotify(config, old(View()), 0)
    {
      ring := ring.(notifies := RemoveAt(ring.notifies, 0));
      HandleNotify();
      var ok := SubmitNotifyRead();
      if !ok {
        notifyPending := true;
      }
    }

    /** io_uring_submit_and_wait hands the queued entries to the kernel, which looks their descriptors up in
        `files`, and unless it fails returns once a completion is posted; then whatever found no entry is retried. */
    method Flush(files: map<int, nat>, failed: bool)
      requires Valid() && files == connMgr.now.os.files && (!failed ==> Posted(ring))
      modifies this`ring, this`acceptPending, this`notifyPending
      ensures Valid()
      ensures var flushed := old(View()).(r := FlushAll(old(ring), files));
        View() == if failed then flushed else Retry(config, flushed)
    {
      ring := FlushAll(ring, files);
      if failed {
        return;
      }
      if acceptPending {
        var ok := SubmitAccept();
        if ok {
          acceptPending := false;
        }
      }
      if notifyPending {
        var ok := SubmitNotifyRead();
        if ok {
          notifyPending := false;
        }
      }
    }

    method Handle(ev: LoopEvent, files: map<int, nat>, ghost w: World)
      requires Valid() && RunInv(config, w) && View() == w.s && LoopEnabled(w, ev) && files == w.s.m.os.files
      modifies this, connMgr, connMgr.contexts
      ensures Valid() && fresh(connMgr.contexts - old(connMgr.contexts))
      ensures View() == LoopNext(config, w, ev).s
    {
      match ev
      case Submit => Flush(files, true);
      case Flush => Flush(files, false);
      case TakeRecv(c, j) => TakeRecv(connMgr.allConns[c], j);
      case TakeSend(c, j) => TakeSend(connMgr.allConns[c], j);
      case TakeAccept => TakeAccept();
      case TakeNotify => TakeNotify();
    }

    /** One step of the event loop is one step of the machine whose runs are studied, and keeps its invariant. */
    method React(ev: LoopEvent, files: map<int, nat>, ghost w: World)
      requires Valid() && RunInv(config, w) && View() == w.s && LoopEnabled(w, ev) && files == w.s.m.os.files
      modifies this, connMgr, connMgr.contexts
      ensures Valid() && fresh(connMgr.contexts - old(connMgr.contexts))
      ensures View() == LoopNext(config, w, ev).s && RunInv(config, LoopNext(config, w, ev))
    {
      Handle(ev, files, w);
      LoopKeeps(config, w, ev);
    }
  }
}
