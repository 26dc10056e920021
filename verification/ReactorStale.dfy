/**
  The one thing the byte streams depend on that the reactor does not ensure.

  A submission entry names its descriptor by number, and the number is looked up when the queue is flushed. A
  connection can be closed while an entry of it is still queued; if the kernel accepts a new connection under the
  same number before the flush, the old entry acts on the new socket. The generation check of deliverResponse does
  not help: it guards the output queue, not the entries.
 */
module ReactorStale {
  import opened ByteStrings
  import opened Wire
  import opened Connections
  import opened Reactor
  import opened ReactorRun
  import opened ReactorInvariant
  import opened ReactorProcess
  import opened ReactorSafety
  import opened ReactorLocality
  import opened ReactorStreams
  import opened ReactorStreamSteps
  import opened ReactorStreamRun
  import opened ReactorStreamSafety

  /** What has passed over every socket is right: over those of open and closing connections exactly what their state
      says, over each only frames and requests of its own, and nothing over a socket that is not set up yet. */
  ghost predicate BytesRight(e: Config, s: Server, socks: seq<Sock>) {
    && (forall c :: 0 <= c < |s.m.conns| && c !in s.m.idle ==> CtxBytes(e, s, socks, c))
    && Socks(e, s, socks) && Unused(s, socks)
  }

  ghost predicate CtxBytes(e: Config, s: Server, socks: seq<Sock>, c: nat)
    requires c < |s.m.conns|
  {
    var x, p := s.m.conns[c], PortOf(s.r, c);
    && x.connId < |socks|
    && SentOk(x, p, FramesOf(s.p.coros, DeliveredOn(s, x.connId)), socks[x.connId].accepted)
    && (IsActive(s.m, c) ==>
          ReadOk(e.registry, x, Arrivals(s.r.bufs, p), RequestsOf(s.p.coros, x.connId), socks[x.connId].received))
  }

  /** The world after the kernel has accepted a connection under fd and the loop has flushed its queue. */
  ghost function LandedAndFlushed(e: Config, w: World, fd: int): World {
    var t := Landed(w, fd);
    t.(s := Retry(e, t.s.(r := FlushAll(t.s.r, t.s.m.os.files))))
  }

  // No entry names the descriptor: the streams stay right.

  lemma StreamsAreBytes(e: Config, s: Server, socks: seq<Sock>)
    requires StreamInv(e, s, socks)
    ensures BytesRight(e, s, socks)
  {
    forall c | 0 <= c < |s.m.conns| && c !in s.m.idle
      ensures CtxBytes(e, s, socks, c)
    {
      assert StreamCtx(e, s, socks, c);
    }
  }

  lemma OnwardStep(e: Config, u: World, ev: Event, v: World)
    requires RunInv(e, u) && StreamInv(e, u.s, u.socks) && Step(e, u, ev, v) && NoAccept(ev)
    ensures RunInv(e, v) && StreamInv(e, v.s, v.socks)
  {
    StepKeeps(e, u, ev);
    match ev
    case Kernel(k) => KernelStreams(e, u, k);
    case Loop(l) => LoopStreams(e, u, l);
    case Worker(x) => WorkerStreams(e, u, x);
  }

  lemma {:induction false} OnwardStreams(e: Config, evs: seq<Event>, w: World, v: World)
    requires RunInv(e, w) && StreamInv(e, w.s, w.socks) && Continues(e, NoAccept, evs, w, v)
    ensures RunInv(e, v) && StreamInv(e, v.s, v.socks)
    decreases |evs|
  {
    if evs != [] {
      var u :| ContinuesVia(e, NoAccept, evs, w, u, v);
      OnwardStreams(e, evs[..|evs| - 1], w, u);
      OnwardStep(e, u, evs[|evs| - 1], v);
    }
  }

  lemma LandsRight(e: Config, w: World, fd: int)
    requires RunInv(e, w) && KernelEnabled(w, AcceptConn(fd))
    ensures RunInv(e, LandedAndFlushed(e, w, fd))
    ensures StreamInv(e, w.s, w.socks) && !Named(w.s.r, fd) ==>
      StreamInv(e, LandedAndFlushed(e, w, fd).s, LandedAndFlushed(e, w, fd).socks)
  {
    LandedKeeps(e, w, fd);
    FlushStepKeeps(e, Landed(w, fd));
    if StreamInv(e, w.s, w.socks) && !Named(w.s.r, fd) {
      LandedStreams(e, w.s, w.socks, fd);
      FlushStepStreams(e, Landed(w, fd).s, Landed(w, fd).socks);
    }
  }

  // An entry names it: some next step puts bytes where they do not belong.

  /** An operation of context c has been handed to a socket that no connection is set up on. */
  ghost predicate Strayed(w: World, c: nat) {
    && c in w.s.r.ports && c < |w.s.m.conns|
    && ((exists k :: 0 <= k < |w.s.r.ports[c].recvs| && Stray(w, RecvTargetOf(w.s.r.ports[c].recvs[k]))) ||
        (exists k :: 0 <= k < |w.s.r.ports[c].sends| && Stray(w, SendTargetOf(w.s.r.ports[c].sends[k]))))
  }

  function RecvTargetOf(op: RecvOp): Target {
    if op.state.RecvWaiting? then op.state.target else NoFile
  }

  function SendTargetOf(op: SendOp): Target {
    if op.state.SendWaiting? then op.state.target else NoFile
  }

  predicate Stray(w: World, t: Target) {
    t.Socket? && w.s.m.nextId <= t.sock < |w.socks|
  }

  lemma FlushedPorts(e: Config, s: Server, c: nat, files: map<int, nat>)
    requires c in s.r.ports && files == s.m.os.files
    ensures var t := Retry(e, s.(r := FlushAll(s.r, files)));
      t.m == s.m && c in t.r.ports && t.r.ports[c] == FlushPort(files, s.r.ports[c])
  {
  }

  lemma NamedStrays(e: Config, w: World, fd: int, c: nat)
    requires RunInv(e, w) && KernelEnabled(w, AcceptConn(fd)) && c in w.s.r.ports && NamedBy(w.s.r.ports[c], fd)
    ensures Strayed(LandedAndFlushed(e, w, fd), c)
  {
    var t, p := LandedAndFlushed(e, w, fd), w.s.r.ports[c];
    var files := w.s.m.os.files[fd := |w.socks|];
    FlushedPorts(e, Landed(w, fd).s, c, files);
    var q := FlushPort(files, p);
    if k :| 0 <= k < |p.recvs| && p.recvs[k] == RecvOp(fd, RecvWaiting(Queued)) {
      assert Stray(t, RecvTargetOf(q.recvs[k]));
    } else {
      var k :| 0 <= k < |p.sends| && p.sends[k].fd == fd && p.sends[k].state == SendWaiting(Queued);
      assert Stray(t, SendTargetOf(q.sends[k]));
    }
  }

  /** A socket that is not set up yet has carried something. */
  lemma Touched(e: Config, s: Server, socks: seq<Sock>, i: nat)
    requires s.m.nextId <= i < |socks| && socks[i] != Sock([], [])
    ensures !BytesRight(e, s, socks)
  {
  }

  lemma SendStrays(e: Config, w: World, c: nat, k: nat) returns (ev: Event, v: World)
    requires RunInv(e, w) && LiveSend(w.s, c, k) && Stray(w, SendTargetOf(w.s.r.ports[c].sends[k]))
    ensures Step(e, w, ev, v) && NoAccept(ev) && !BytesRight(e, v.s, v.socks)
  {
    var op := w.s.r.ports[c].sends[k];
    assert CtxOk(e, w.s, c);
    assert PortOf(w.s.r, c) == w.s.r.ports[c];
    assert op.data != [];
    ev := Kernel(SendData(c, k, 1));
    v := KernelNext(w, SendData(c, k, 1));
    var i := op.state.target.sock;
    assert v.socks[i].accepted == w.socks[i].accepted + op.data[..1];
    Touched(e, v.s, v.socks, i);
  }

  lemma RecvStrays(e: Config, w: World, c: nat, k: nat, b: nat) returns (ev: Event, v: World)
    requires RunInv(e, w) && LiveRecv(w.s, c, k) && Stray(w, RecvTargetOf(w.s.r.ports[c].recvs[k]))
    requires b < BUF_RING_ENTRIES && b in w.s.r.free
    ensures Step(e, w, ev, v) && NoAccept(ev) && !BytesRight(e, v.s, v.socks)
  {
    ev := Kernel(RecvData(c, k, [0], b));
    v := KernelNext(w, RecvData(c, k, [0], b));
    var i := w.s.r.ports[c].recvs[k].state.target.sock;
    assert v.socks[i].received == w.socks[i].received + [0];
    Touched(e, v.s, v.socks, i);
  }

  // When every buffer is taken, one comes back first.

  lemma {:induction false} HeldSomewhere(r: Ring, n: nat, b: nat) returns (c: nat, k: nat)
    requires Held(r, n, b) > 0
    ensures c < n && k < |PortOf(r, c).recvs|
    ensures PortOf(r, c).recvs[k].state.RecvDone? && PortOf(r, c).recvs[k].state.bid == Some(b)
  {
    if Holds(PortOf(r, n - 1).recvs, b) > 0 {
      c := n - 1;
      k := HeldAt(PortOf(r, c).recvs, b);
    } else {
      c, k := HeldSomewhere(r, n - 1, b);
    }
  }

  lemma {:induction false} HeldAt(ops: seq<RecvOp>, b: nat) returns (k: nat)
    requires Holds(ops, b) > 0
    ensures k < |ops| && ops[k].state.RecvDone? && ops[k].state.bid == Some(b)
  {
    if ops[0].state.RecvDone? && ops[0].state.bid == Some(b) {
      k := 0;
    } else {
      k := HeldAt(ops[1..], b);
      k := k + 1;
    }
  }

  /** The operations of context d and the buffers are as they were. */
  ghost predicate Spares(s: Server, t: Server, d: nat) {
    PortOf(t.r, d) == PortOf(s.r, d) && t.r.free == s.r.free && |t.m.conns| == |s.m.conns| && t.m.nextId == s.m.nextId
  }

  lemma CloseSpares(s: Server, fd: int, d: nat)
    requires Wf(s.m)
    ensures Spares(s, CloseConn(s, fd), d)
  {
  }

  lemma RearmSpares(e: Config, s: Server, c: nat, d: nat)
    requires Hosted(s.m, c) && d != c
    ensures Spares(s, RearmRecv(e, s, s.m.conns[c].fd), d)
  {
    var fd := s.m.conns[c].fd;
    CloseSpares(SubmitRecv(e, s, fd).1, fd, d);
  }

  lemma ReadOnSpares(e: Config, s: Server, c: nat, d: nat)
    requires Hosted(s.m, c) && d != c
    ensures Spares(s, ReadOn(e, s, c), d)
  {
    RearmSpares(e, s, c, d);
  }

  lemma DataSpares(e: Config, s: Server, c: nat, d: nat)
    requires Hosted(s.m, c) && d != c
    ensures Spares(s, HandleData(e, s, c), d)
  {
    var x := Drain(e.registry, s.m.conns[c].input);
    var s1 := DispatchAll(s, c, x.requests, x.rest);
    PutTables(s.m, c, s1.m.conns[c]);
    CloseSpares(s1, s.m.conns[c].fd, d);
    ReadOnSpares(e, s1, c, d);
  }

  /** A handler touches the operations of its own context only, and no buffer. */
  lemma HandlerSpares(e: Config, s: Server, c: nat, d: nat, res: int)
    requires Hosted(s.m, c) && d != c
    ensures Spares(s, HandleRecv(e, s, c, res), d)
  {
    DataSpares(e, s, c, d);
    RearmSpares(e, s, c, d);
    CloseSpares(s, s.m.conns[c].fd, d);
  }

  lemma BufferBack(e: Config, s: Server, c: nat, d: nat, b: nat)
    requires Inv(e, s) && LiveRecv(s, c, 0) && PortOf(s.r, c).recvs[0].state.RecvDone? && d != c
    requires PortOf(s.r, c).recvs[0].state.bid == Some(b)
    ensures var t := ProcessRecv(e, s, c, 0);
      && PortOf(t.r, d) == PortOf(s.r, d) && b in t.r.free && |t.m.conns| == |s.m.conns| && t.m.nextId == s.m.nextId
  {
    RecvOfActive(e, s, c, 0);
    ProcessRecvIs(e, s, c, 0);
    if IsActive(s.m, c) {
      RecvOffFields(s, c);
      HandlerSpares(e, RecvOff(s, c, 0), c, d, PortOf(s.r, c).recvs[0].state.res);
    }
  }

  /** A buffer that is not in the ring is in a completion that can be taken. */
  lemma HolderOf(e: Config, s: Server, b: nat) returns (c: nat)
    requires Inv(e, s) && b < BUF_RING_ENTRIES && b !in s.r.free
    ensures LiveRecv(s, c, 0) && PortOf(s.r, c).recvs[0].state.RecvDone? && PortOf(s.r, c).recvs[0].state.bid == Some(b)
  {
    var k;
    c, k := HeldSomewhere(s.r, |s.m.conns|, b);
    RecvOfActive(e, s, c, k);
  }

  lemma OtherHolder(e: Config, s: Server, c: nat, d: nat, k: nat)
    requires Inv(e, s) && LiveRecv(s, c, 0) && PortOf(s.r, c).recvs[0].state.RecvDone?
    requires LiveRecv(s, d, k) && s.r.ports[d].recvs[k].state.RecvWaiting?
    ensures c != d
  {
    RecvOfActive(e, s, c, 0);
  }

  lemma RecvStraysLater(e: Config, w: World, c: nat, k: nat) returns (evs: seq<Event>, v: World)
    requires RunInv(e, w) && !w.stopped && LiveRecv(w.s, c, k) && Stray(w, RecvTargetOf(w.s.r.ports[c].recvs[k]))
    requires 0 !in w.s.r.free
    ensures Continues(e, NoAccept, evs, w, v) && !BytesRight(e, v.s, v.socks)
  {
    var c' := HolderOf(e, w.s, 0);
    RecvOfActive(e, w.s, c', 0);
    OtherHolder(e, w.s, c', c, k);
    BufferBack(e, w.s, c', c, 0);
    var ev := Loop(TakeRecv(c', 0));
    var u := w.(s := ProcessRecv(e, w.s, c', 0));
    StepKeeps(e, w, ev);
    OneMore(e, NoAccept, [], w, w, ev, u);
    var ev', v' := RecvStrays(e, u, c, k, 0);
    OneMore(e, NoAccept, [] + [ev], w, u, ev', v');
    evs, v := [] + [ev] + [ev'], v';
  }

  lemma StrayedGoesWrong(e: Config, w: World, c: nat) returns (evs: seq<Event>, v: World)
    requires RunInv(e, w) && !w.stopped && Strayed(w, c)
    ensures Continues(e, NoAccept, evs, w, v) && !BytesRight(e, v.s, v.socks)
  {
    var p, ev := w.s.r.ports[c], Kernel(NotifySpurious);
    if k :| 0 <= k < |p.sends| && Stray(w, SendTargetOf(p.sends[k])) {
      ev, v := SendStrays(e, w, c, k);
      OneMore(e, NoAccept, [], w, w, ev, v);
      evs := [] + [ev];
    } else {
      var k :| 0 <= k < |p.recvs| && Stray(w, RecvTargetOf(p.recvs[k]));
      if 0 in w.s.r.free {
        ev, v := RecvStrays(e, w, c, k, 0);
        OneMore(e, NoAccept, [], w, w, ev, v);
        evs := [] + [ev];
      } else {
        evs, v := RecvStraysLater(e, w, c, k);
      }
    }
  }

  /** The bytes stay right after an accept and the flush that follows it, whatever happens until the next accept, exactly
      when no queued entry names the accepted descriptor. */
  lemma StreamsSurviveIff(e: Config, w: World, fd: int)
    requires RunInv(e, w) && StreamInv(e, w.s, w.socks) && KernelEnabled(w, AcceptConn(fd)) && !w.stopped
    ensures (forall evs, v :: Continues(e, NoAccept, evs, LandedAndFlushed(e, w, fd), v) ==> BytesRight(e, v.s, v.socks))
       <==> !Named(w.s.r, fd)
  {
    var t := LandedAndFlushed(e, w, fd);
    LandsRight(e, w, fd);
    if Named(w.s.r, fd) {
      var c :| c in w.s.r.ports && NamedBy(w.s.r.ports[c], fd);
      NamedStrays(e, w, fd, c);
      var evs, v := StrayedGoesWrong(e, t, c);
      assert Continues(e, NoAccept, evs, t, v);
    } else {
      forall evs, v | Continues(e, NoAccept, evs, t, v)
        ensures BytesRight(e, v.s, v.socks)
      {
        OnwardStreams(e, evs, t, v);
        StreamsAreBytes(e, v.s, v.socks);
      }
    }
  }
}
