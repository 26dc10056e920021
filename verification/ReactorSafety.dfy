/** Safety of the reactor over all runs. */
module ReactorSafety {
  import opened ByteStrings
  import opened Wire
  import opened Connections
  import opened Reactor
  import opened ReactorRun
  import opened ReactorInvariant
  import opened ReactorPrimitives
  import opened ReactorCoroutines
  import opened ReactorHandlers
  import opened ReactorProcess

  // Kernel steps.

  lemma {:induction false} HoldsPointwise(a: seq<RecvOp>, a': seq<RecvOp>, b: nat)
    requires |a| == |a'|
    requires forall k :: 0 <= k < |a| ==>
      ((a[k].state.RecvDone? && a[k].state.bid == Some(b)) <==> (a'[k].state.RecvDone? && a'[k].state.bid == Some(b)))
    ensures Holds(a, b) == Holds(a', b)
  {
    if a != [] {
      assert forall k :: 0 <= k < |a| - 1 ==> a[1..][k] == a[k + 1] && a'[1..][k] == a'[k + 1];
      HoldsPointwise(a[1..], a'[1..], b);
    }
  }

  lemma FlushOk(e: Config, x: Context, p: Port, files: map<int, nat>)
    ensures ActiveOk(e, x, p) ==> ActiveOk(e, x, FlushPort(files, p))
    ensures DrainingOk(x, p) ==> DrainingOk(x, FlushPort(files, p))
    ensures p == NO_OPS ==> FlushPort(files, p) == NO_OPS
  {
    FlushRecvs(x, p, files);
    FlushSends(x, p, files);
  }

  lemma FlushRecvs(x: Context, p: Port, files: map<int, nat>)
    ensures |FlushPort(files, p).recvs| == |p.recvs|
    ensures RecvsOk(x, p) ==> RecvsOk(x, FlushPort(files, p))
  {
  }

  lemma FlushSends(x: Context, p: Port, files: map<int, nat>)
    ensures |FlushPort(files, p).sends| == |p.sends|
    ensures QueueOk(x, p) ==> QueueOk(x, FlushPort(files, p))
  {
    var q := FlushPort(files, p);
    forall k | 0 <= k < |q.sends|
      ensures q.sends[k].fd == p.sends[k].fd && q.sends[k].data == p.sends[k].data
      ensures q.sends[k].state.SendDone? ==> q.sends[k].state == p.sends[k].state
    {
      assert q.sends[k] == FlushSend(files, p.sends[k]);
    }
  }

  lemma FlushKeeps(e: Config, s: Server)
    requires Inv(e, s)
    ensures Inv(e, s.(r := FlushAll(s.r, s.m.os.files)))
  {
    var t := s.(r := FlushAll(s.r, s.m.os.files));
    forall c | 0 <= c < |s.m.conns|
      ensures PortOf(t.r, c) == FlushPort(s.m.os.files, PortOf(s.r, c))
    {
    }
    forall c, b: nat | 0 <= c < |s.m.conns|
      ensures Holds(PortOf(t.r, c).recvs, b) == Holds(PortOf(s.r, c).recvs, b)
    {
      HoldsPointwise(PortOf(s.r, c).recvs, PortOf(t.r, c).recvs, b);
    }
    BufsFrame(s, t);
    forall d | 0 <= d < |t.m.conns|
      ensures CtxOk(e, t, d)
    {
      assert CtxOk(e, s, d);
      FlushOk(e, s.m.conns[d], PortOf(s.r, d), s.m.os.files);
    }
  }

  lemma {:induction false} HoldsAt(ops: seq<RecvOp>, j: nat, op: RecvOp, b: nat)
    requires j < |ops| && !ops[j].state.RecvDone? && op.state.RecvDone?
    ensures Holds(ops[j := op], b) == Holds(ops, b) + if op.state.bid == Some(b) then 1 else 0
  {
    if j == 0 {
      assert ops[j := op][1..] == ops[1..];
    } else {
      assert ops[j := op][1..] == ops[1..][j - 1 := op];
      HoldsAt(ops[1..], j - 1, op, b);
    }
  }

  lemma RecvPostedBufs(s: Server, c: nat, j: nat, res: int, lent: Option<nat>, data: Bytes)
    requires BufsOk(s) && LiveRecv(s, c, j) && PortOf(s.r, c).recvs[j].state.RecvWaiting?
    requires CanLend(s.r, lent) && |data| <= BUF_SIZE
    ensures BufsOk(PostRecv(s, c, j, res, lent, data))
  {
    var t := PostRecv(s, c, j, res, lent, data);
    forall b: nat | b < BUF_RING_ENTRIES
      ensures t.r.free[b] + Held(t.r, |t.m.conns|, b) == 1
    {
      HeldPut(s.r, t.r, c, |s.m.conns|, b);
      HoldsAt(PortOf(s.r, c).recvs, j, PortOf(t.r, c).recvs[j], b);
    }
  }

  lemma RecvPostedOk(e: Config, x: Context, p: Port, j: nat, state: RecvState)
    requires j < |p.recvs| && p.recvs[j].state.RecvWaiting? && RecvOk(RecvOp(x.fd, state))
    ensures var p' := p.(recvs := p.recvs[j := p.recvs[j].(state := state)]);
      (ActiveOk(e, x, p) ==> ActiveOk(e, x, p')) && (DrainingOk(x, p) ==> DrainingOk(x, p'))
  {
  }

  lemma RecvPostedKeeps(e: Config, s: Server, c: nat, j: nat, res: int, lent: Option<nat>, data: Bytes)
    requires Inv(e, s) && LiveRecv(s, c, j) && PortOf(s.r, c).recvs[j].state.RecvWaiting?
    requires CanLend(s.r, lent) && |data| <= BUF_SIZE
    requires res > 0 ==> lent.Some? && res <= BUF_SIZE
    ensures Inv(e, PostRecv(s, c, j, res, lent, data))
  {
    var t := PostRecv(s, c, j, res, lent, data);
    RecvPostedBufs(s, c, j, res, lent, data);
    TouchOnlyKeeps(e, s, t, c);
    RecvPostedCtx(e, s, t, c, j, RecvDone(res, lent));
  }

  lemma RecvPostedCtx(e: Config, s: Server, t: Server, c: nat, j: nat, done: RecvState)
    requires c < |s.m.conns| && CtxOk(e, s, c) && j < |PortOf(s.r, c).recvs| && t.m == s.m && t.p == s.p
    requires PortOf(t.r, c) == PortOf(s.r, c).(recvs := PortOf(s.r, c).recvs[j := PortOf(s.r, c).recvs[j].(state := done)])
    requires PortOf(s.r, c).recvs[j].state.RecvWaiting? && RecvOk(RecvOp(s.m.conns[c].fd, done))
    ensures CtxOk(e, t, c)
  {
    RecvPostedOk(e, s.m.conns[c], PortOf(s.r, c), j, done);
  }

  lemma SendPostedOk(e: Config, x: Context, p: Port, j: nat, res: int)
    requires j < |p.sends| && res <= |p.sends[j].data|
    ensures var p' := p.(sends := p.sends[j := p.sends[j].(state := SendDone(res))]);
      (ActiveOk(e, x, p) ==> ActiveOk(e, x, p')) && (DrainingOk(x, p) ==> DrainingOk(x, p'))
  {
  }

  lemma SendPostedKeeps(e: Config, s: Server, c: nat, j: nat, res: int)
    requires Inv(e, s) && LiveSend(s, c, j) && res <= |PortOf(s.r, c).sends[j].data|
    ensures Inv(e, PutSend(s, c, j, SendDone(res)))
  {
    var t := PutSend(s, c, j, SendDone(res));
    TouchKeeps(e, s, t, c);
    assert CtxOk(e, s, c);
    SendPostedOk(e, s.m.conns[c], PortOf(s.r, c), j, res);
    assert CtxOk(e, t, c);
  }

  lemma LandKeeps(e: Config, s: Server, fd: int)
    requires Inv(e, s) && s.r.accepts == [AcceptWaiting] && fd >= 0 && fd !in s.m.os.files
    ensures Inv(e, Land(s, fd, s.m.nextId))
  {
    var t := Land(s, fd, s.m.nextId);
    BufsFrame(s, t);
    LandFiles(s.m, s.r, t.m, t.r, fd);
    forall d | 0 <= d < |t.m.conns|
      ensures CtxOk(e, t, d)
    {
      assert CtxOk(e, s, d);
    }
  }

  lemma LandFiles(m: Manager, r: Ring, m': Manager, r': Ring, fd: int)
    requires Tables(m) && FilesOk(m, r) && r.accepts == [AcceptWaiting] && fd >= 0 && fd !in m.os.files
    requires r'.accepts == [AcceptDone(fd)] && m' == m.(os := m.os.(files := m.os.files[fd := m.nextId]))
    ensures Tables(m') && FilesOk(m', r')
  {
  }

  // Worker steps.

  /** A coroutine not yet resumed moves on: no context can tell. */
  lemma CoroStepKeeps(e: Config, s: Server, p': Pool, co: nat)
    requires Settled(e, s) && co < |s.p.coros| && |p'.coros| == |s.p.coros|
    requires p'.coros == s.p.coros[co := p'.coros[co]]
    requires p'.coros[co].connId == s.p.coros[co].connId && p'.coros[co].fd == s.p.coros[co].fd
    requires !s.p.coros[co].state.Resumed? && !p'.coros[co].state.Resumed?
    requires TasksOk(p') && ReadyOk(p') && FrameOk(p'.coros[co])
    ensures Settled(e, s.(p := p'))
  {
    var t := s.(p := p');
    BufsFrame(s, t);
    forall d | 0 <= d < |t.m.conns|
      ensures CtxOk(e, t, d)
    {
      assert CtxOk(e, s, d);
      CountsUpdate(s.p.coros, co, p'.coros[co], s.m.conns[d].connId);
    }
    forall i | i in t.delivered
      ensures DeliveredTo(t.p, i, t.delivered[i])
    {
      assert DeliveredTo(s.p, i, s.delivered[i]);
    }
  }

  // The whole machine.

  predicate InHand(k: Coro) {
    k.state.Running? || k.state.Finished?
  }

  /** How many coroutines a worker has in hand before pushing them. */
  function Working(coros: seq<Coro>): nat {
    if coros == [] then 0 else Working(coros[..|coros| - 1]) + if InHand(coros[|coros| - 1]) then 1 else 0
  }

  lemma {:induction false} WorkingUpdate(coros: seq<Coro>, co: nat, k: Coro)
    requires co < |coros|
    ensures Working(coros[co := k]) + (if InHand(coros[co]) then 1 else 0) == Working(coros) + (if InHand(k) then 1 else 0)
  {
    var n := |coros| - 1;
    if co == n {
      assert coros[co := k][..n] == coros[..n];
    } else {
      assert coros[co := k][..n] == coros[..n][co := k];
      WorkingUpdate(coros[..n], co, k);
    }
  }

  lemma {:induction false} WorkingAppend(coros: seq<Coro>, more: seq<Coro>)
    requires forall k :: 0 <= k < |more| ==> more[k].state.Waiting?
    ensures Working(coros + more) == Working(coros)
  {
    if more == [] {
      assert coros + more == coros;
    } else {
      var n := |more| - 1;
      WorkingAppend(coros, more[..n]);
      assert (coros + more)[..|coros + more| - 1] == coros + more[..n];
    }
  }

  predicate Landing(r: Ring) {
    |r.accepts| == 1 && r.accepts[0].AcceptDone? && r.accepts[0].res >= 0
  }

  /** A coroutine to resume has been announced on the eventfd, or is about to be. */
  ghost predicate Awake(w: World) {
    w.s.p.ready != [] ==> w.eventfd > 0 || w.unsignalled > 0 || NotifyDone in w.s.r.notifies
  }

  /** Workers leave only after the pool was stopped and its queue drained. */
  ghost predicate WorkersOk(w: World) {
    && w.busy == Working(w.s.p.coros) + w.unsignalled
    && w.busy <= w.live <= WORKERS
    && (w.live < WORKERS ==> w.stopped && w.s.p.tasks == [])
  }

  ghost predicate RunInv(e: Config, w: World) {
    && Inv(e, w.s)
    && |w.socks| == w.s.m.nextId + (if Landing(w.s.r) then 1 else 0)
    && Awake(w) && WorkersOk(w)
  }

  // Event loop steps, seen from the workers.

  lemma RecvOkAt(e: Config, s: Server, c: nat, j: nat)
    requires Settled(e, s) && LiveRecv(s, c, j)
    ensures RecvOk(PortOf(s.r, c).recvs[j])
  {
    assert CtxOk(e, s, c);
  }

  lemma RecvPool(e: Config, s: Server, c: nat, j: nat)
    requires Wf(s.m) && LiveRecv(s, c, j) && PortOf(s.r, c).recvs[j].state.RecvDone? && RecvOk(PortOf(s.r, c).recvs[j])
    ensures var t := ProcessRecv(e, s, c, j);
      t.p.ready == s.p.ready && Working(t.p.coros) == Working(s.p.coros) && SameArms(s, t)
  {
    ProcessRecvIs(e, s, c, j);
    HandleRecvPool(e, RecvOff(s, c, j), c, PortOf(s.r, c).recvs[j].state.res);
  }

  lemma HandleRecvPool(e: Config, s: Server, c: nat, res: int)
    requires Wf(s.m) && c < |s.m.conns|
    ensures var t := HandleRecv(e, s, c, res);
      t.p.ready == s.p.ready && Working(t.p.coros) == Working(s.p.coros)
  {
    var x := s.m.conns[c];
    if !x.closing && res > 0 {
      var d := Drain(e.registry, x.input);
      assert HandleRecv(e, s, c, res).p == DispatchAll(s, c, d.requests, d.rest).p;
      forall k | 0 <= k < |d.requests|
        ensures Spawn(x.fd, x.connId, d.requests)[k].state.Waiting?
      {
        SpawnIndex(x.fd, x.connId, d.requests, k);
      }
      WorkingAppend(s.p.coros, Spawn(x.fd, x.connId, d.requests));
    }
  }

  lemma {:induction false} ResumeAllPool(e: Config, s: Server)
    requires Settled(e, s)
    ensures var t := ResumeAll(e, s); t.p.ready == s.p.ready && Working(t.p.coros) == Working(s.p.coros)
    decreases |s.p.resuming|
  {
    if s.p.resuming != [] {
      var co := s.p.resuming[0];
      assert Due(s.p)[0] == co;
      WorkingUpdate(s.p.coros, co, s.p.coros[co].(state := Resumed));
      assert ResumeFirst(e, s).p == MarkFirst(s).p;
      ResumeFirstKeeps(e, s);
      ResumeAllPool(e, ResumeFirst(e, s));
    }
  }

  /** Steps that leave the pool, the connection counter and the arming alone keep the rest of the invariant. */
  lemma ServerStep(e: Config, w: World, t: Server, socks: seq<Sock>)
    requires RunInv(e, w) && Inv(e, t)
    requires t.p == w.s.p && t.m.nextId == w.s.m.nextId && |socks| == |w.socks|
    requires Landing(t.r) == Landing(w.s.r) && (NotifyDone in w.s.r.notifies ==> NotifyDone in t.r.notifies)
    ensures RunInv(e, w.(s := t, socks := socks))
  {
  }

  lemma TakeRecvKeeps(e: Config, w: World, c: nat, j: nat)
    requires RunInv(e, w) && LoopEnabled(w, TakeRecv(c, j))
    ensures RunInv(e, w.(s := ProcessRecv(e, w.s, c, j)))
  {
    ProcessRecvKeeps(e, w.s, c, j);
    RecvOkAt(e, w.s, c, j);
    RecvPool(e, w.s, c, j);
  }

  lemma SendPool(e: Config, s: Server, c: nat, j: nat)
    requires Wf(s.m) && LiveSend(s, c, j) && PortOf(s.r, c).sends[j].state.SendDone?
    ensures var t := ProcessSend(e, s, c, j);
      t.p == s.p && t.m.nextId == s.m.nextId && t.r.accepts == s.r.accepts && t.r.notifies == s.r.notifies
  {
  }

  lemma TakeSendKeeps(e: Config, w: World, c: nat, j: nat)
    requires RunInv(e, w) && LoopEnabled(w, TakeSend(c, j))
    ensures RunInv(e, w.(s := ProcessSend(e, w.s, c, j)))
  {
    ProcessSendKeeps(e, w.s, c, j);
    SendPool(e, w.s, c, j);
    ServerStep(e, w, ProcessSend(e, w.s, c, j), w.socks);
  }

  lemma TakeAcceptKeeps(e: Config, w: World)
    requires RunInv(e, w) && LoopEnabled(w, TakeAccept)
    ensures RunInv(e, w.(s := ProcessAccept(e, w.s, 0)))
  {
    ProcessAcceptKeeps(e, w.s);
    AcceptPool(e, w.s);
  }

  lemma AcceptPool(e: Config, s: Server)
    requires Wf(s.m) && |s.r.accepts| == 1 && s.r.accepts[0].AcceptDone?
    ensures var t := ProcessAccept(e, s, 0);
      && t.p == s.p && t.r.notifies == s.r.notifies
      && t.m.nextId == s.m.nextId + (if s.r.accepts[0].res >= 0 then 1 else 0)
      && !Landing(t.r)
  {
    assert RemoveAt(s.r.accepts, 0) == [];
  }

  lemma TakeNotifyKeeps(e: Config, w: World)
    requires RunInv(e, w) && LoopEnabled(w, TakeNotify)
    ensures RunInv(e, w.(s := ProcessNotify(e, w.s, 0)))
  {
    ProcessNotifyKeeps(e, w.s);
    NotifyPool(e, w.s);
  }

  lemma NotifyPool(e: Config, s: Server)
    requires Inv(e, s) && |s.r.notifies| == 1 && s.r.notifies[0].NotifyDone?
    ensures var t := ProcessNotify(e, s, 0);
      t.p.ready == [] && t.p.tasks == s.p.tasks && Working(t.p.coros) == Working(s.p.coros)
      && t.r.accepts == s.r.accepts && t.m.nextId == s.m.nextId
  {
    var s0 := s.(r := s.r.(notifies := RemoveAt(s.r.notifies, 0)));
    var s1 := s0.(p := s0.p.(resuming := s0.p.ready, ready := []));
    assert RemoveAt(s.r.notifies, 0) == [];
    ArmsKeep(e, s, s0);
    SwapKeeps(e, s0);
    ResumeAllPool(e, s1);
    ResumeAllTasks(e, s1);
    NotifiedPool(e, s0, s1);
  }

  lemma NotifiedPool(e: Config, s0: Server, s1: Server)
    requires Wf(s0.m) && PoolWf(s0.p) && s1 == s0.(p := s0.p.(resuming := s0.p.ready, ready := []))
    ensures PoolWf(s1.p)
    ensures var t, u := RearmNotify(e, HandleNotify(e, s0)), ResumeAll(e, s1);
      t.p == u.p && t.r.accepts == s0.r.accepts && t.m.nextId == s0.m.nextId
  {
  }

  lemma {:induction false} ResumeAllTasks(e: Config, s: Server)
    requires Wf(s.m) && PoolWf(s.p)
    ensures ResumeAll(e, s).p.tasks == s.p.tasks
    decreases |s.p.resuming|
  {
    if s.p.resuming != [] {
      ResumeAllTasks(e, ResumeFirst(e, s));
    }
  }

  // Worker steps, seen from the server.

  lemma StartKeeps(e: Config, s: Server)
    requires Inv(e, s) && s.p.tasks != []
    ensures Inv(e, s.(p := Start(s.p))) && Working(Start(s.p).coros) == Working(s.p.coros) + 1
  {
    var co := s.p.tasks[0];
    assert co == |s.p.coros| - |s.p.tasks|;
    assert Due(Start(s.p)) == Due(s.p);
    CoroStepKeeps(e, s, Start(s.p), co);
    WorkingUpdate(s.p.coros, co, Start(s.p).coros[co]);
  }

  lemma FinishKeeps(e: Config, s: Server, co: nat, result: Option<Bytes>)
    requires Inv(e, s) && co < |s.p.coros| && s.p.coros[co].state.Running?
    ensures Inv(e, s.(p := Finish(s.p, co, result))) && Working(Finish(s.p, co, result).coros) == Working(s.p.coros)
  {
    FinishOk(s.p, co, result);
    CoroStepKeeps(e, s, Finish(s.p, co, result), co);
    WorkingUpdate(s.p.coros, co, Finish(s.p, co, result).coros[co]);
  }

  lemma FinishOk(p: Pool, co: nat, result: Option<Bytes>)
    requires TasksOk(p) && ReadyOk(p) && co < |p.coros| && p.coros[co].state.Running?
    ensures TasksOk(Finish(p, co, result)) && ReadyOk(Finish(p, co, result)) && FrameOk(Finish(p, co, result).coros[co])
  {
    assert Due(Finish(p, co, result)) == Due(p);
  }

  lemma PushOk(p: Pool, co: nat)
    requires ReadyOk(p) && co < |p.coros| && p.coros[co].state.Finished?
    ensures ReadyOk(Push(p, co))
  {
    var p' := Push(p, co);
    assert Due(p') == Due(p) + [co];
    forall k | 0 <= k < |Due(p)|
      ensures Due(p)[k] != co
    {
      assert p.coros[Due(p)[k]].state.Ready?;
    }
    forall d | 0 <= d < |p'.coros| && p'.coros[d].state.Ready?
      ensures d in Due(p')
    {
      assert d != co ==> d in Due(p);
      assert Due(p')[|Due(p)|] == co;
    }
  }

  lemma PushKeeps(e: Config, s: Server, co: nat)
    requires Inv(e, s) && co < |s.p.coros| && s.p.coros[co].state.Finished?
    ensures Inv(e, s.(p := Push(s.p, co))) && Working(Push(s.p, co).coros) + 1 == Working(s.p.coros)
  {
    PushOk(s.p, co);
    CoroStepKeeps(e, s, Push(s.p, co), co);
    WorkingUpdate(s.p.coros, co, Push(s.p, co).coros[co]);
  }

  // Every step, every run.

  lemma KernelIoKeeps(e: Config, w: World, ev: KernelEvent)
    requires RunInv(e, w) && KernelEnabled(w, ev)
    requires ev.RecvData? || ev.RecvFail? || ev.SendData? || ev.SendFail?
    ensures RunInv(e, KernelNext(w, ev))
  {
    match ev
    case RecvData(c, j, data, bid) =>
      var t := PostRecv(w.s, c, j, |data|, Some(bid), data);
      RecvPostedKeeps(e, w.s, c, j, |data|, Some(bid), data);
      ServerStep(e, w, t, Receive(w.socks, w.s.r.ports[c].recvs[j].state.target.sock, data));
    case RecvFail(c, j, res, lent) =>
      RecvPostedKeeps(e, w.s, c, j, res, lent, []);
      ServerStep(e, w, PostRecv(w.s, c, j, res, lent, []), w.socks);
    case SendData(c, j, n) =>
      var op := w.s.r.ports[c].sends[j];
      SendPostedKeeps(e, w.s, c, j, n);
      ServerStep(e, w, PutSend(w.s, c, j, SendDone(n)), Transmit(w.socks, op.state.target.sock, op.data[..n]));
    case SendFail(c, j, res) =>
      SendPostedKeeps(e, w.s, c, j, res);
      ServerStep(e, w, PutSend(w.s, c, j, SendDone(res)), w.socks);
  }

  lemma LandedKeeps(e: Config, w: World, fd: int)
    requires RunInv(e, w) && KernelEnabled(w, AcceptConn(fd))
    ensures RunInv(e, Landed(w, fd))
  {
    LandKeeps(e, w.s, fd);
    var t := Land(w.s, fd, w.s.m.nextId);
    assert Landed(w, fd).s == t;
    assert !Landing(w.s.r) && Landing(t.r) && t.p == w.s.p && t.m.nextId == w.s.m.nextId;
  }

  lemma AcceptPostedKeeps(e: Config, w: World, res: int)
    requires RunInv(e, w) && KernelEnabled(w, AcceptFail(res))
    ensures RunInv(e, w.(s := AcceptPosted(w.s, res)))
  {
    ArmsKeep(e, w.s, AcceptPosted(w.s, res));
    ServerStep(e, w, AcceptPosted(w.s, res), w.socks);
  }

  lemma NotifyPostedKeeps(e: Config, w: World)
    requires RunInv(e, w) && KernelEnabled(w, NotifySpurious)
    ensures RunInv(e, w.(s := NotifyPosted(w.s))) && RunInv(e, w.(s := NotifyPosted(w.s), eventfd := 0))
  {
    ArmsKeep(e, w.s, NotifyPosted(w.s));
    assert NotifyPosted(w.s).r.notifies[0] == NotifyDone;
    ServerStep(e, w, NotifyPosted(w.s), w.socks);
  }

  lemma KernelKeeps(e: Config, w: World, ev: KernelEvent)
    requires RunInv(e, w) && KernelEnabled(w, ev)
    ensures RunInv(e, KernelNext(w, ev))
  {
    match ev
    case RecvData(_, _, _, _) => KernelIoKeeps(e, w, ev);
    case RecvFail(_, _, _, _) => KernelIoKeeps(e, w, ev);
    case SendData(_, _, _) => KernelIoKeeps(e, w, ev);
    case SendFail(_, _, _) => KernelIoKeeps(e, w, ev);
    case AcceptConn(fd) => LandedKeeps(e, w, fd);
    case AcceptFail(res) => AcceptPostedKeeps(e, w, res);
    case NotifyRead => NotifyPostedKeeps(e, w);
    case NotifySpurious => NotifyPostedKeeps(e, w);
  }

  lemma RetryEffect(e: Config, s: Server)
    requires Armed(s)
    ensures var t := Retry(e, s);
      t.p == s.p && t.m == s.m && Landing(t.r) == Landing(s.r) && (NotifyDone in s.r.notifies ==> NotifyDone in t.r.notifies)
  {
    var s1 := RetryAccept(e, s);
    assert s.acceptPending ==> s.r.accepts == [];
    assert s.notifyPending ==> s.r.notifies == [];
    assert Landing(s1.r) == Landing(s.r);
  }

  lemma FlushStepKeeps(e: Config, w: World)
    requires RunInv(e, w)
    ensures RunInv(e, w.(s := Retry(e, w.s.(r := FlushAll(w.s.r, w.s.m.os.files)))))
  {
    var s1 := w.s.(r := FlushAll(w.s.r, w.s.m.os.files));
    FlushKeeps(e, w.s);
    RetryKeeps(e, s1);
    RetryEffect(e, s1);
    ServerStep(e, w, Retry(e, s1), w.socks);
  }

  lemma SubmitKeeps(e: Config, w: World)
    requires RunInv(e, w)
    ensures RunInv(e, w.(s := w.s.(r := FlushAll(w.s.r, w.s.m.os.files))))
  {
    FlushKeeps(e, w.s);
    ServerStep(e, w, w.s.(r := FlushAll(w.s.r, w.s.m.os.files)), w.socks);
  }

  lemma LoopKeeps(e: Config, w: World, ev: LoopEvent)
    requires RunInv(e, w) && LoopEnabled(w, ev)
    ensures RunInv(e, LoopNext(e, w, ev))
  {
    match ev
    case Submit => SubmitKeeps(e, w);
    case Flush => FlushStepKeeps(e, w);
    case TakeRecv(c, j) => TakeRecvKeeps(e, w, c, j);
    case TakeSend(c, j) => TakeSendKeeps(e, w, c, j);
    case TakeAccept => TakeAcceptKeeps(e, w);
    case TakeNotify => TakeNotifyKeeps(e, w);
  }

  lemma WorkerKeeps(e: Config, w: World, ev: WorkerEvent)
    requires RunInv(e, w) && WorkerEnabled(w, ev)
    ensures RunInv(e, WorkerNext(w, ev))
  {
    match ev
    case PopTask => StartKeeps(e, w.s);
    case RunDone(co, result) => FinishKeeps(e, w.s, co, result);
    case PushReady(co) => PushKeeps(e, w.s, co);
    case WriteEventfd =>
    case StopPool =>
    case WorkerExit =>
  }

  lemma StepKeeps(e: Config, w: World, ev: Event)
    requires RunInv(e, w) && Enabled(w, ev)
    ensures RunInv(e, Next(e, w, ev))
  {
    match ev
    case Kernel(k) => KernelKeeps(e, w, k);
    case Loop(l) => LoopKeeps(e, w, l);
    case Worker(v) => WorkerKeeps(e, w, v);
  }

  /** One step of the machine. */
  ghost predicate Step(e: Config, w: World, ev: Event, w': World) {
    Wf(w.s.m) && PoolWf(w.s.p) && Enabled(w, ev) && w' == Next(e, w, ev)
  }

  /** The events lead from an initial world to w. */
  ghost predicate Leads(e: Config, evs: seq<Event>, w: World)
    decreases |evs|, 1
  {
    if evs == [] then Initial(w) else exists w0 :: LeadsVia(e, evs, w0, w)
  }

  ghost predicate LeadsVia(e: Config, evs: seq<Event>, w0: World, w: World)
    requires evs != []
    decreases |evs|, 0
  {
    Leads(e, evs[..|evs| - 1], w0) && Step(e, w0, evs[|evs| - 1], w)
  }

  ghost predicate Reachable(e: Config, w: World) {
    exists evs :: Leads(e, evs, w)
  }

  lemma {:induction false} IdsCount(lo: nat, n: nat, b: nat)
    ensures multiset(Ids(lo, n))[b] == if lo <= b < lo + n then 1 else 0
    decreases n
  {
    if n > 0 {
      assert Ids(lo, n) == [lo] + Ids(lo + 1, n - 1);
      IdsCount(lo + 1, n - 1, b);
    }
  }

  lemma BootBufs(n: nat)
    ensures var s := Boot(n);
      && Unborn(s) && |s.r.bufs| == n
      && (forall b: nat :: b < n ==> |s.r.bufs[b]| == BUF_SIZE && s.r.free[b] == 1)
  {
    forall b: nat | b < n
      ensures Boot(n).r.free[b] == 1
    {
      IdsCount(0, n, b);
    }
  }

  /** No connection yet, accepting and the eventfd armed. */
  ghost predicate Unborn(s: Server) {
    && s.m == Manager([], map[], [], 1, Descriptors(map[], [], 0)) && s.p == Pool([], [], [], []) && s.delivered == map[]
    && s.r.ports == map[] && s.r.accepts == [AcceptWaiting] && s.r.notifies == [NotifyWaiting]
    && !s.acceptPending && !s.notifyPending
  }

  lemma BootOk(e: Config, s: Server)
    requires Unborn(s) && |s.r.bufs| == BUF_RING_ENTRIES
    requires forall b: nat :: b < BUF_RING_ENTRIES ==> |s.r.bufs[b]| == BUF_SIZE && s.r.free[b] == 1
    ensures Inv(e, s)
  {
    UnbornTables(s);
    UnbornBufs(s);
    UnbornCoros(s);
  }

  lemma UnbornTables(s: Server)
    requires Unborn(s)
    ensures Tables(s.m) && FilesOk(s.m, s.r) && Armed(s)
  {
  }

  lemma UnbornBufs(s: Server)
    requires Unborn(s) && |s.r.bufs| == BUF_RING_ENTRIES
    requires forall b: nat :: b < BUF_RING_ENTRIES ==> |s.r.bufs[b]| == BUF_SIZE && s.r.free[b] == 1
    ensures BufsOk(s)
  {
  }

  lemma UnbornCoros(s: Server)
    requires Unborn(s)
    ensures CorosOk(s) && DeliveryOk(s)
  {
    assert Due(s.p) == [];
  }

  lemma BeginOk(e: Config, w: World)
    requires Initial(w)
    ensures RunInv(e, w)
  {
    BootBufs(BUF_RING_ENTRIES);
    BootOk(e, w.s);
  }

  lemma AfterStep(e: Config, w: World, ev: Event, w': World)
    requires RunInv(e, w) && Step(e, w, ev, w')
    ensures RunInv(e, w')
  {
    StepKeeps(e, w, ev);
  }

  lemma {:induction false} RunsKeepInv(e: Config, evs: seq<Event>, w: World)
    requires Leads(e, evs, w)
    ensures RunInv(e, w)
    decreases |evs|
  {
    if evs == [] {
      BeginOk(e, w);
    } else {
      var w0 :| LeadsVia(e, evs, w0, w);
      RunsKeepInv(e, evs[..|evs| - 1], w0);
      AfterStep(e, w0, evs[|evs| - 1], w);
    }
  }

  /** The invariant holds in every reachable world. */
  lemma ReachableOk(e: Config, w: World)
    requires Reachable(e, w)
    ensures RunInv(e, w)
  {
    var evs :| Leads(e, evs, w);
    RunsKeepInv(e, evs, w);
  }

  // How a run goes on.

  /** The events, each of a kind that may happen, lead from w to v. */
  ghost predicate Continues(e: Config, may: Event -> bool, evs: seq<Event>, w: World, v: World)
    decreases |evs|, 1
  {
    if evs == [] then v == w else exists u :: ContinuesVia(e, may, evs, w, u, v)
  }

  ghost predicate ContinuesVia(e: Config, may: Event -> bool, evs: seq<Event>, w: World, u: World, v: World)
    requires evs != []
    decreases |evs|, 0
  {
    var ev := evs[|evs| - 1];
    Continues(e, may, evs[..|evs| - 1], w, u) && Step(e, u, ev, v) && may(ev)
  }

  predicate Anything(ev: Event) {
    true
  }

  predicate NoAccept(ev: Event) {
    !(ev.Kernel? && ev.k.AcceptConn?)
  }

  /** One more step of a run. */
  lemma OneMore(e: Config, may: Event -> bool, evs: seq<Event>, w: World, u: World, ev: Event, v: World)
    requires Continues(e, may, evs, w, u) && Step(e, u, ev, v) && may(ev)
    ensures Continues(e, may, evs + [ev], w, v)
  {
    var all := evs + [ev];
    assert all[..|all| - 1] == evs && all[|all| - 1] == ev;
    assert ContinuesVia(e, may, all, w, u, v);
  }
}
