/** The operations of an open connection are queued or handed to its socket: none of them misses its file. */
module ReactorTargets {
  import opened ByteStrings
  import opened Wire
  import opened Connections
  import opened Reactor
  import opened ReactorRun
  import opened ReactorInvariant
  import opened ReactorCoroutines
  import opened ReactorHandlers
  import opened ReactorProcess
  import opened ReactorSafety
  import opened ReactorLocality
  import opened ReactorStreams
  import opened ReactorStreamSteps
  import opened ReactorStreamRun
  import opened ReactorStreamSafety
  import ReactorStarved

  ghost predicate HasFile(p: Port) {
    && (forall k :: 0 <= k < |p.recvs| ==> p.recvs[k].state != RecvWaiting(NoFile))
    && (forall k :: 0 <= k < |p.sends| ==> p.sends[k].state != SendWaiting(NoFile))
  }

  ghost predicate Filed(s: Server) {
    forall c :: 0 <= c < |s.m.conns| && IsActive(s.m, c) ==> HasFile(PortOf(s.r, c))
  }

  lemma LocalFiled(s: Server, t: Server, c: nat)
    requires Filed(s) && LocalTo(s, t, c) && (IsActive(t.m, c) ==> HasFile(PortOf(t.r, c)))
    ensures Filed(t)
  {
  }

  lemma CalmFiled(s: Server, t: Server, c: nat)
    requires Filed(s) && Calm(s, t, c) && IsActive(s.m, c)
    ensures Filed(t)
  {
    LocalFiled(s, t, c);
  }

  lemma DispatchFiled(s: Server, c: nat, requests: seq<Request>, rest: Bytes)
    requires Filed(s) && c < |s.m.conns|
    ensures Filed(DispatchAll(s, c, requests, rest))
  {
  }

  lemma HandleDataFiled(e: Config, s: Server, c: nat)
    requires Filed(s) && Hosted(s.m, c)
    ensures Filed(HandleData(e, s, c))
  {
    var all := Drain(e.registry, s.m.conns[c].input);
    HandleDataCalm(e, s, c, all);
    DispatchFiled(s, c, all.requests, all.rest);
    CalmFiled(DispatchAll(s, c, all.requests, all.rest), HandleData(e, s, c), c);
  }

  lemma HandleRecvFiled(e: Config, s: Server, c: nat, res: int)
    requires Filed(s) && Hosted(s.m, c)
    ensures Filed(HandleRecv(e, s, c, res))
  {
    var y := s.m.conns[c];
    if !y.closing && res > 0 {
      HandleDataFiled(e, s, c);
    } else {
      var t, u := RearmRecv(e, s, y.fd), CloseConn(s, y.fd);
      RearmRecvCalm(e, s, c);
      CalmFiled(s, t, c);
      CloseCalm(s, c);
      CalmFiled(s, u, c);
    }
  }

  lemma ProcessRecvFiled(e: Config, s: Server, c: nat, j: nat)
    requires Inv(e, s) && Filed(s) && LiveRecv(s, c, j) && PortOf(s.r, c).recvs[j].state.RecvDone?
    ensures Filed(ProcessRecv(e, s, c, j))
  {
    RecvOfActive(e, s, c, j);
    if IsActive(s.m, c) {
      RecvOffFields(s, c);
      ProcessRecvIs(e, s, c, 0);
      LocalFiled(s, RecvOff(s, c, 0), c);
      HandleRecvFiled(e, RecvOff(s, c, 0), c, PortOf(s.r, c).recvs[0].state.res);
    } else {
      DrainedRecv(e, s, c);
      ProcessRecvKeeps(e, s, c, 0);
      PooledFiled(e, s, ProcessRecv(e, s, c, 0), c);
    }
  }

  lemma PooledFiled(e: Config, s: Server, t: Server, c: nat)
    requires Filed(s) && LocalTo(s, t, c) && Settled(e, t) && c in t.m.idle
    ensures Filed(t)
  {
    assert CtxOk(e, t, c);
    LocalFiled(s, t, c);
  }

  lemma ProcessSendFiled(e: Config, s: Server, c: nat, j: nat)
    requires Inv(e, s) && Filed(s) && LiveSend(s, c, j) && PortOf(s.r, c).sends[j].state.SendDone?
    ensures Filed(ProcessSend(e, s, c, j))
  {
    SendOfActive(e, s, c, j);
    var t := ProcessSend(e, s, c, j);
    if IsActive(s.m, c) {
      SendCountedFields(s, c);
      SendCountedLocal(s, c);
      ActiveProcessSend(e, s, c);
      HandleSendCalm(e, SendOff(s, c, 0), c, PortOf(s.r, c).sends[0].state.res);
      LocalFiled(s, SendCounted(s, c, 0), c);
      CalmFiled(SendCounted(s, c, 0), t, c);
    } else {
      DrainedSend(e, s, c, j);
      ProcessSendKeeps(e, s, c, j);
      PooledFiled(e, s, t, c);
    }
  }

  lemma ArrivedFiled(e: Config, s: Server, fd: int)
    requires Inv(e, s) && Filed(s) && Arriving(s.r, fd)
    ensures Filed(RearmRecv(e, Arrived(s, fd), fd))
  {
    var c, u := Acquire(s.m, fd).0, Arrived(s, fd);
    AcquireKeeps(e, s, fd);
    forall d | 0 <= d < |u.m.conns| && IsActive(u.m, d)
      ensures HasFile(PortOf(u.r, d))
    {
      if d != c {
        assert d !in u.m.idle;
        ArrivedFields(s, fd, d);
      }
    }
    RearmRecvCalm(e, u, c);
    CalmFiled(u, RearmRecv(e, u, fd), c);
  }

  /** Accepts, notify reads and the pool do not matter. */
  lemma SameFiled(s: Server, t: Server)
    requires Filed(s) && t.r.ports == s.r.ports && t.m.conns == s.m.conns && t.m.active == s.m.active
    ensures Filed(t)
  {
    forall c | 0 <= c < |t.m.conns| && IsActive(t.m, c)
      ensures HasFile(PortOf(t.r, c))
    {
      assert IsActive(s.m, c);
    }
  }

  lemma ProcessAcceptFiled(e: Config, s: Server)
    requires Inv(e, s) && Filed(s) && |s.r.accepts| > 0 && s.r.accepts[0].AcceptDone?
    ensures Filed(ProcessAccept(e, s, 0))
  {
    var res := s.r.accepts[0].res;
    ReactorStarved.AcceptIs(e, s);
    if res < 0 {
      SameFiled(s, ProcessAccept(e, s, 0));
    } else {
      ArrivedFiled(e, s, res);
      SameFiled(RearmRecv(e, Arrived(s, res), res), ProcessAccept(e, s, 0));
    }
  }

  lemma ResumeFirstFiled(e: Config, s: Server)
    requires Settled(e, s) && s.p.resuming != [] && Filed(s)
    ensures Filed(ResumeFirst(e, s))
  {
    var co := s.p.resuming[0];
    var k, s1 := s.p.coros[co], MarkFirst(s);
    if k.frame == [] || !Routed(s, k) {
      assert ResumeFirst(e, s) == s1;
    } else {
      var c := s.m.active[k.fd];
      assert CtxOk(e, s, c);
      DeliverFiled(e, s1, c, co);
      assert ResumeFirst(e, s) == DeliverResponse(e, s1, co);
    }
  }

  lemma DeliverFiled(e: Config, s: Server, c: nat, co: nat)
    requires Hosted(s.m, c) && co < |s.p.coros| && Filed(s)
    requires var y, k := s.m.conns[c], s.p.coros[co];
      && k.fd == y.fd && k.connId == y.connId && k.frame != []
      && (if y.outQueue == [] then y.written == 0 else y.written < |y.outQueue[0]|)
    ensures Filed(DeliverResponse(e, s, co))
  {
    DeliverCalm(e, s, c, co);
    assert Filed(WithFrame(s, c, co));
    CalmFiled(WithFrame(s, c, co), DeliverResponse(e, s, co), c);
  }

  lemma {:induction false} ResumeAllFiled(e: Config, s: Server)
    requires Settled(e, s) && Filed(s)
    ensures Filed(ResumeAll(e, s))
    decreases |s.p.resuming|
  {
    if s.p.resuming != [] {
      ResumeFirstKeeps(e, s);
      ResumeFirstFiled(e, s);
      ResumeAllFiled(e, ResumeFirst(e, s));
    }
  }

  lemma ProcessNotifyFiled(e: Config, s: Server)
    requires Inv(e, s) && Filed(s) && |s.r.notifies| > 0 && s.r.notifies[0].NotifyDone?
    ensures Filed(ProcessNotify(e, s, 0))
  {
    var s0 := s.(r := s.r.(notifies := RemoveAt(s.r.notifies, 0)));
    ArmsKeep(e, s, s0);
    SwapFiled(e, s0);
    RearmFiled(e, HandleNotify(e, s0));
  }

  lemma RearmFiled(e: Config, s: Server)
    requires Filed(s)
    ensures Filed(RearmNotify(e, s))
  {
    SameFiled(s, RearmNotify(e, s));
  }

  lemma SwapFiled(e: Config, s: Server)
    requires Settled(e, s) && s.p.resuming == [] && Filed(s)
    ensures Filed(HandleNotify(e, s))
  {
    SwapKeeps(e, s);
    ResumeAllFiled(e, s.(p := s.p.(resuming := s.p.ready, ready := [])));
  }

  // Handing over.

  lemma FlushFiles(x: Context, p: Port, files: map<int, nat>)
    requires x.fd in files && RecvsOk(x, p) && QueueOk(x, p) && HasFile(p)
    ensures HasFile(FlushPort(files, p))
  {
  }

  lemma FlushFiled(e: Config, s: Server)
    requires Inv(e, s) && Filed(s)
    ensures var t := s.(r := FlushAll(s.r, s.m.os.files)); Filed(t) && Filed(Retry(e, t))
  {
    var t := s.(r := FlushAll(s.r, s.m.os.files));
    forall c | 0 <= c < |t.m.conns| && IsActive(t.m, c)
      ensures HasFile(PortOf(t.r, c))
    {
      assert CtxOk(e, s, c);
      FlushedPort(s, t, c);
      FlushFiles(s.m.conns[c], PortOf(s.r, c), s.m.os.files);
    }
    SameFiled(t, Retry(e, t));
  }

  lemma LoopFiled(e: Config, w: World, ev: LoopEvent)
    requires RunInv(e, w) && LoopEnabled(w, ev) && Filed(w.s)
    ensures Filed(LoopNext(e, w, ev).s)
  {
    match ev
    case Submit => FlushFiled(e, w.s);
    case Flush => FlushFiled(e, w.s);
    case TakeRecv(c, j) => ProcessRecvFiled(e, w.s, c, j);
    case TakeSend(c, j) => ProcessSendFiled(e, w.s, c, j);
    case TakeAccept => ProcessAcceptFiled(e, w.s);
    case TakeNotify => ProcessNotifyFiled(e, w.s);
  }

  /** A completion is posted on context c. */
  lemma PostedFiled(s: Server, t: Server, c: nat)
    requires Filed(s) && t.m == s.m && c < |s.m.conns| && (HasFile(PortOf(s.r, c)) ==> HasFile(PortOf(t.r, c)))
    requires forall d :: d != c ==> PortOf(t.r, d) == PortOf(s.r, d)
    ensures Filed(t)
  {
  }

  lemma KernelFiled(w: World, ev: KernelEvent)
    requires KernelEnabled(w, ev) && Filed(w.s)
    ensures Filed(KernelNext(w, ev).s)
  {
    var t := KernelNext(w, ev).s;
    match ev
    case RecvData(c, j, data, bid) => PostedFiled(w.s, t, c);
    case RecvFail(c, j, res, lent) => PostedFiled(w.s, t, c);
    case SendData(c, j, n) => PostedFiled(w.s, t, c);
    case SendFail(c, j, res) => PostedFiled(w.s, t, c);
    case AcceptConn(fd) => LandFiled(w.s, fd, |w.socks|);
    case AcceptFail(res) => SameFiled(w.s, t);
    case NotifyRead => SameFiled(w.s, t);
    case NotifySpurious => SameFiled(w.s, t);
  }

  lemma LandFiled(s: Server, fd: int, sock: nat)
    requires Filed(s)
    ensures Filed(Land(s, fd, sock))
  {
    SameFiled(s, Land(s, fd, sock));
  }

  lemma WorkerFiled(e: Config, w: World, ev: WorkerEvent)
    requires PoolWf(w.s.p) && WorkerEnabled(w, ev) && Filed(w.s)
    ensures Filed(WorkerNext(w, ev).s)
  {
    SameFiled(w.s, WorkerNext(w, ev).s);
  }

  lemma StepFiled(e: Config, w: World, ev: Event, v: World)
    requires RunInv(e, w) && Step(e, w, ev, v) && Filed(w.s)
    ensures Filed(v.s)
  {
    match ev
    case Kernel(k) => KernelFiled(w, k);
    case Loop(l) => LoopFiled(e, w, l);
    case Worker(y) => WorkerFiled(e, w, y);
  }

  lemma {:induction false} RunsKeepFiled(e: Config, evs: seq<Event>, w: World)
    requires Leads(e, evs, w)
    ensures RunInv(e, w) && Filed(w.s)
    decreases |evs|
  {
    if evs == [] {
      BeginOk(e, w);
    } else {
      var w0 :| LeadsVia(e, evs, w0, w);
      RunsKeepFiled(e, evs[..|evs| - 1], w0);
      StepFiled(e, w0, evs[|evs| - 1], w);
      AfterStep(e, w0, evs[|evs| - 1], w);
    }
  }

  lemma ReachableFiled(e: Config, w: World)
    requires Reachable(e, w)
    ensures Filed(w.s)
  {
    var evs :| Leads(e, evs, w);
    RunsKeepFiled(e, evs, w);
  }

  /** Whatever an open connection has outstanding is, once submitted, an operation on its own socket. */
  ghost predicate OnOwnSocket(x: Context, p: Port) {
    && (forall k :: 0 <= k < |p.recvs| && p.recvs[k].state.RecvWaiting? ==> p.recvs[k].state.target == Socket(x.connId))
    && (forall k :: 0 <= k < |p.sends| && p.sends[k].state.SendWaiting? ==> p.sends[k].state.target == Socket(x.connId))
  }

  /** When the loop has submitted, in a clean run, every operation of an open connection is on the connection's own
      socket; nothing else of it changed. */
  lemma SubmitHandsOver(e: Config, w: World, c: nat)
    requires Reachable(e, w) && w.clean && !w.stopped && Wf(w.s.m) && PoolWf(w.s.p) && c < |w.s.m.conns| && IsActive(w.s.m, c)
    ensures var t := LoopNext(e, w, Submit).s; var p, q := PortOf(w.s.r, c), PortOf(t.r, c);
      && t.m == w.s.m && t.p == w.s.p && OnOwnSocket(w.s.m.conns[c], q) && |q.recvs| == |p.recvs| && |q.sends| == |p.sends|
      && (forall k :: 0 <= k < |p.recvs| && p.recvs[k].state.RecvDone? ==> q.recvs[k] == p.recvs[k])
      && (forall k :: 0 <= k < |p.sends| ==> q.sends[k].data == p.sends[k].data)
      && (forall k :: 0 <= k < |p.sends| && p.sends[k].state.SendDone? ==> q.sends[k] == p.sends[k])
  {
    ReachableFiled(e, w);
    ReachableClean(e, w);
    assert CtxOk(e, w.s, c) && StreamCtx(e, w.s, w.socks, c);
    var t := LoopNext(e, w, Submit).s;
    FlushedPort(w.s, t, c);
    HandedOver(w.s.m.conns[c], PortOf(w.s.r, c), w.s.m.os.files);
  }

  lemma HandedOver(x: Context, p: Port, files: map<int, nat>)
    requires x.fd in files && files[x.fd] == x.connId && RecvsOk(x, p) && QueueOk(x, p) && HasFile(p) && TargetsOk(x, p, false)
    ensures var q := FlushPort(files, p);
      && OnOwnSocket(x, q) && |q.recvs| == |p.recvs| && |q.sends| == |p.sends|
      && (forall k :: 0 <= k < |p.recvs| && p.recvs[k].state.RecvDone? ==> q.recvs[k] == p.recvs[k])
      && (forall k :: 0 <= k < |p.sends| ==> q.sends[k].data == p.sends[k].data)
      && (forall k :: 0 <= k < |p.sends| && p.sends[k].state.SendDone? ==> q.sends[k] == p.sends[k])
  {
  }
}
