/**
  Connections that are open and never read again.

  A response that does not serialise is dropped, and nothing takes its request off the count of pending ones. Once 256
  have been dropped and everything else has been answered, no operation is outstanding on the connection, and no step
  of anyone ever adds one.
 */
module ReactorStarved {
  import opened ByteStrings
  import opened Wire
  import opened Connections
  import opened Reactor
  import opened ReactorRun
  import opened ReactorInvariant
  import opened ReactorCoroutines
  import opened ReactorHandlers
  import opened ReactorProcess
  import opened ReactorSafety
  import opened ReactorLocality
  import opened ReactorStreamSteps
  import opened ReactorStreamRun
  import ReactorTheorems

  /** Every coroutine of connection generation i has been resumed. */
  ghost predicate Spent(coros: seq<Coro>, i: nat) {
    forall co :: 0 <= co < |coros| && coros[co].connId == i ==> coros[co].state.Resumed?
  }

  /** Context d is open as it was, with no operation outstanding and nothing under way that could add one. */
  ghost predicate Still(s: Server, d: nat, x: Context) {
    && d < |s.m.conns| && s.m.conns[d] == x && IsActive(s.m, d) && PortOf(s.r, d) == NO_OPS
    && Spent(s.p.coros, x.connId)
  }

  lemma {:induction false} NoneUnresumed(coros: seq<Coro>, i: nat)
    requires Unresumed(coros, i) == 0
    ensures Spent(coros, i)
  {
    if coros != [] {
      NoneUnresumed(coros[..|coros| - 1], i);
    }
  }

  lemma LocalStill(s: Server, t: Server, c: nat, d: nat, x: Context)
    requires Still(s, d, x) && LocalTo(s, t, c) && d != c && Spent(t.p.coros, x.connId)
    ensures Still(t, d, x)
  {
  }

  /** A coroutine that is not resumed belongs to another connection. */
  lemma CoroStill(s: Server, co: nat, k: Coro, d: nat, x: Context)
    requires Still(s, d, x) && co < |s.p.coros| && !s.p.coros[co].state.Resumed? && k.connId == s.p.coros[co].connId
    ensures Spent(s.p.coros[co := k], x.connId)
  {
  }

  lemma DispatchStill(s: Server, c: nat, requests: seq<Request>, rest: Bytes, d: nat, x: Context)
    requires Still(s, d, x) && Tables(s.m) && c < |s.m.conns| && c != d && c !in s.m.idle
    ensures Still(DispatchAll(s, c, requests, rest), d, x)
  {
    var y := s.m.conns[c];
    assert d !in s.m.idle && y.connId != x.connId;
    forall k | 0 <= k < |requests|
      ensures Spawn(y.fd, y.connId, requests)[k].connId == y.connId
    {
      SpawnIndex(y.fd, y.connId, requests, k);
    }
  }

  // Completions of other contexts.

  lemma HandleRecvStill(e: Config, s: Server, c: nat, res: int, d: nat, x: Context)
    requires Still(s, d, x) && Hosted(s.m, c) && c !in s.m.idle && c != d
    ensures Still(HandleRecv(e, s, c, res), d, x)
  {
    var y := s.m.conns[c];
    if !y.closing && res > 0 {
      var all := Drain(e.registry, y.input);
      DispatchStill(s, c, all.requests, all.rest, d, x);
      HandleDataCalm(e, s, c, all);
      LocalStill(DispatchAll(s, c, all.requests, all.rest), HandleData(e, s, c), c, d, x);
    } else {
      RearmRecvCalm(e, s, c);
      CloseCalm(s, c);
    }
  }

  lemma ProcessRecvStill(e: Config, s: Server, c: nat, j: nat, d: nat, x: Context)
    requires Inv(e, s) && Still(s, d, x) && LiveRecv(s, c, j) && PortOf(s.r, c).recvs[j].state.RecvDone?
    ensures Still(ProcessRecv(e, s, c, j), d, x)
  {
    RecvOfActive(e, s, c, j);
    if IsActive(s.m, c) {
      RecvOffFields(s, c);
      ProcessRecvIs(e, s, c, 0);
      LocalStill(s, RecvOff(s, c, 0), c, d, x);
      HandleRecvStill(e, RecvOff(s, c, 0), c, PortOf(s.r, c).recvs[0].state.res, d, x);
    } else {
      DrainedRecv(e, s, c);
      LocalStill(s, ProcessRecv(e, s, c, 0), c, d, x);
    }
  }

  lemma ProcessSendStill(e: Config, s: Server, c: nat, j: nat, d: nat, x: Context)
    requires Inv(e, s) && Still(s, d, x) && LiveSend(s, c, j) && PortOf(s.r, c).sends[j].state.SendDone?
    ensures Still(ProcessSend(e, s, c, j), d, x)
  {
    SendOfActive(e, s, c, j);
    var t := ProcessSend(e, s, c, j);
    if IsActive(s.m, c) {
      SendCountedFields(s, c);
      SendCountedLocal(s, c);
      ActiveProcessSend(e, s, c);
      HandleSendCalm(e, SendOff(s, c, 0), c, PortOf(s.r, c).sends[0].state.res);
      LocalStill(s, SendCounted(s, c, 0), c, d, x);
      LocalStill(SendCounted(s, c, 0), t, c, d, x);
    } else {
      DrainedSend(e, s, c, j);
      LocalStill(s, t, c, d, x);
    }
  }

  // A connection arrives.

  lemma ArrivedStill(e: Config, s: Server, fd: int, d: nat, x: Context)
    requires Inv(e, s) && Still(s, d, x) && Arriving(s.r, fd)
    ensures Still(RearmRecv(e, Arrived(s, fd), fd), d, x)
  {
    var c, u := Acquire(s.m, fd).0, Arrived(s, fd);
    AcquireEffect(s.m, fd);
    assert d !in s.m.idle;
    ArrivedFields(s, fd, d);
    AcquireKeeps(e, s, fd);
    RearmRecvCalm(e, u, c);
    LocalStill(u, RearmRecv(e, u, fd), c, d, x);
  }

  lemma RearmStill(e: Config, s: Server, d: nat, x: Context)
    requires Still(s, d, x)
    ensures Still(RearmAccept(e, s), d, x) && Still(RearmNotify(e, s), d, x)
  {
  }

  lemma AcceptIs(e: Config, s: Server)
    requires Wf(s.m) && |s.r.accepts| == 1 && s.r.accepts[0].AcceptDone?
    ensures var res := s.r.accepts[0].res;
      ProcessAccept(e, s, 0) ==
      RearmAccept(e, if res < 0 then s.(r := s.r.(accepts := [])) else RearmRecv(e, Arrived(s, res), res))
  {
    assert RemoveAt(s.r.accepts, 0) == [];
  }

  lemma ProcessAcceptStill(e: Config, s: Server, d: nat, x: Context)
    requires Inv(e, s) && Still(s, d, x) && |s.r.accepts| > 0 && s.r.accepts[0].AcceptDone?
    ensures Still(ProcessAccept(e, s, 0), d, x)
  {
    var res := s.r.accepts[0].res;
    AcceptIs(e, s);
    if res < 0 {
      RearmStill(e, s.(r := s.r.(accepts := [])), d, x);
    } else {
      ArrivedStill(e, s, res, d, x);
      RearmStill(e, RearmRecv(e, Arrived(s, res), res), d, x);
    }
  }

  // Coroutines resume.

  lemma ResumeFirstStill(e: Config, s: Server, d: nat, x: Context)
    requires Settled(e, s) && s.p.resuming != [] && Still(s, d, x)
    ensures Still(ResumeFirst(e, s), d, x)
  {
    var co := s.p.resuming[0];
    var k, s1 := s.p.coros[co], MarkFirst(s);
    assert Due(s.p)[0] == co && k.state.Ready?;
    CoroStill(s, co, s1.p.coros[co], d, x);
    if k.frame == [] || !Routed(s, k) {
      assert ResumeFirst(e, s) == s1;
    } else {
      var c := s.m.active[k.fd];
      assert CtxOk(e, s, c);
      DeliverStill(e, s1, c, co, d, x);
      assert ResumeFirst(e, s) == DeliverResponse(e, s1, co);
    }
  }

  lemma DeliverStill(e: Config, s: Server, c: nat, co: nat, d: nat, x: Context)
    requires Hosted(s.m, c) && co < |s.p.coros| && Still(s, d, x) && c != d
    requires var y, k := s.m.conns[c], s.p.coros[co];
      && k.fd == y.fd && k.connId == y.connId && k.frame != []
      && (if y.outQueue == [] then y.written == 0 else y.written < |y.outQueue[0]|)
    ensures Still(DeliverResponse(e, s, co), d, x)
  {
    DeliverCalm(e, s, c, co);
    assert Still(WithFrame(s, c, co), d, x);
    LocalStill(WithFrame(s, c, co), DeliverResponse(e, s, co), c, d, x);
  }

  lemma {:induction false} ResumeAllStill(e: Config, s: Server, d: nat, x: Context)
    requires Settled(e, s) && Still(s, d, x)
    ensures Still(ResumeAll(e, s), d, x)
    decreases |s.p.resuming|
  {
    if s.p.resuming != [] {
      ResumeFirstKeeps(e, s);
      ResumeFirstStill(e, s, d, x);
      ResumeAllStill(e, ResumeFirst(e, s), d, x);
    }
  }

  lemma ProcessNotifyStill(e: Config, s: Server, d: nat, x: Context)
    requires Inv(e, s) && Still(s, d, x) && |s.r.notifies| > 0 && s.r.notifies[0].NotifyDone?
    ensures Still(ProcessNotify(e, s, 0), d, x)
  {
    var s0 := s.(r := s.r.(notifies := RemoveAt(s.r.notifies, 0)));
    ArmsKeep(e, s, s0);
    SwapStill(e, s0, d, x);
    RearmStill(e, HandleNotify(e, s0), d, x);
  }

  lemma SwapStill(e: Config, s: Server, d: nat, x: Context)
    requires Settled(e, s) && s.p.resuming == [] && Still(s, d, x)
    ensures Still(HandleNotify(e, s), d, x)
  {
    SwapKeeps(e, s);
    ResumeAllStill(e, s.(p := s.p.(resuming := s.p.ready, ready := [])), d, x);
  }

  // Every step, every run.

  lemma FlushStill(e: Config, s: Server, d: nat, x: Context)
    requires Still(s, d, x)
    ensures var t := s.(r := FlushAll(s.r, s.m.os.files)); Still(t, d, x) && Still(Retry(e, t), d, x)
  {
    FlushOk(e, x, NO_OPS, s.m.os.files);
  }

  lemma LoopStill(e: Config, w: World, ev: LoopEvent, d: nat, x: Context)
    requires RunInv(e, w) && LoopEnabled(w, ev) && Still(w.s, d, x)
    ensures Still(LoopNext(e, w, ev).s, d, x)
  {
    match ev
    case Submit => FlushStill(e, w.s, d, x);
    case Flush => FlushStill(e, w.s, d, x);
    case TakeRecv(c, j) => ProcessRecvStill(e, w.s, c, j, d, x);
    case TakeSend(c, j) => ProcessSendStill(e, w.s, c, j, d, x);
    case TakeAccept => ProcessAcceptStill(e, w.s, d, x);
    case TakeNotify => ProcessNotifyStill(e, w.s, d, x);
  }

  /** The kernel completes operations of other contexts only. */
  lemma KernelStill(w: World, ev: KernelEvent, d: nat, x: Context)
    requires KernelEnabled(w, ev) && Still(w.s, d, x)
    ensures Still(KernelNext(w, ev).s, d, x)
  {
  }

  lemma WorkerStill(e: Config, w: World, ev: WorkerEvent, d: nat, x: Context)
    requires RunInv(e, w) && WorkerEnabled(w, ev) && Still(w.s, d, x)
    ensures Still(WorkerNext(w, ev).s, d, x)
  {
    match ev
    case PopTask => CoroStill(w.s, w.s.p.tasks[0], Start(w.s.p).coros[w.s.p.tasks[0]], d, x);
    case RunDone(co, result) => CoroStill(w.s, co, Finish(w.s.p, co, result).coros[co], d, x);
    case PushReady(co) => CoroStill(w.s, co, Push(w.s.p, co).coros[co], d, x);
    case WriteEventfd =>
    case StopPool =>
    case WorkerExit =>
  }

  lemma StepStill(e: Config, w: World, ev: Event, v: World, d: nat, x: Context)
    requires RunInv(e, w) && Step(e, w, ev, v) && Still(w.s, d, x)
    ensures Still(v.s, d, x)
  {
    match ev
    case Kernel(k) => KernelStill(w, k, d, x);
    case Loop(l) => LoopStill(e, w, l, d, x);
    case Worker(y) => WorkerStill(e, w, y, d, x);
  }

  lemma {:induction false} RemainsStill(e: Config, evs: seq<Event>, w: World, v: World, d: nat, x: Context)
    requires RunInv(e, w) && Still(w.s, d, x) && Continues(e, Anything, evs, w, v)
    ensures RunInv(e, v) && Still(v.s, d, x)
    decreases |evs|
  {
    if evs != [] {
      var u :| ContinuesVia(e, Anything, evs, w, u, v);
      RemainsStill(e, evs[..|evs| - 1], w, u, d, x);
      StepStill(e, u, evs[|evs| - 1], v, d, x);
      AfterStep(e, u, evs[|evs| - 1], v);
    }
  }

  /** Context c of w is still open in v, unchanged, and has no operation outstanding. */
  ghost predicate Deaf(w: World, v: World, c: nat)
    requires c < |w.s.m.conns|
  {
    && c < |v.s.m.conns| && v.s.m.conns[c] == w.s.m.conns[c]
    && IsActive(v.s.m, c) && PortOf(v.s.r, c) == NO_OPS
  }

  /** An open connection with nothing to send and nothing under way is never read again, nor written, nor closed,
      whatever happens, exactly when 256 of its responses were dropped because they did not serialise. */
  lemma StarvedExactlyByDrops(e: Config, w: World, c: nat)
    requires Reachable(e, w) && c < |w.s.m.conns| && IsActive(w.s.m, c)
    requires var x := w.s.m.conns[c]; Unresumed(w.s.p.coros, x.connId) == 0 && x.outQueue == []
    ensures (forall evs, v :: Continues(e, Anything, evs, w, v) ==> Deaf(w, v, c))
       <==> Dropped(w.s.p.coros, w.s.m.conns[c].connId) >= MAX_INFLIGHT_PER_CONN
  {
    var x := w.s.m.conns[c];
    ReactorTheorems.ActiveOperations(e, w, c);
    ReactorTheorems.PendingRequests(e, w, c, 4);
    if Dropped(w.s.p.coros, x.connId) >= MAX_INFLIGHT_PER_CONN {
      ReachableOk(e, w);
      NoneUnresumed(w.s.p.coros, x.connId);
      forall evs, v | Continues(e, Anything, evs, w, v)
        ensures Deaf(w, v, c)
      {
        RemainsStill(e, evs, w, v, c, x);
      }
    } else {
      assert Continues(e, Anything, [], w, w);
    }
  }
}
