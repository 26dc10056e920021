/** A frame that is being sent goes out whole, however the kernel splits it, as long as the ring has entries free. */
module ReactorSplit {
  import opened ByteStrings
  import opened Connections
  import opened Reactor
  import opened ReactorRun
  import opened ReactorInvariant
  import opened ReactorProcess
  import opened ReactorSafety
  import opened ReactorSending
  import opened ReactorTargets
  import ReactorFeed

  /** Submitting, and sends of context c being taken by the kernel and then by the loop. */
  function SendingOf(c: nat): Event -> bool {
    (ev: Event) =>
      match ev
      case Kernel(k) => k.SendData? && k.c == c
      case Loop(l) => l.Submit? || (l.TakeSend? && l.c == c)
      case Worker(v) => false
  }

  /** Entries are free from now on. */
  ghost predicate RoomAfter(e: Config, calls: nat) {
    forall k: nat :: calls <= k ==> e.sqe(k)
  }

  /** An open connection whose front frame the kernel has not yet got all of; `rest` is what it lacks. */
  ghost predicate Outgoing(e: Config, w: World, c: nat, rest: Bytes) {
    && Reachable(e, w) && w.clean && !w.stopped && RoomAfter(e, w.s.r.calls)
    && c < |w.s.m.conns| && IsActive(w.s.m, c) && w.s.m.conns[c].connId < |w.socks|
    && |PortOf(w.s.r, c).sends| == 1 && PortOf(w.s.r, c).sends[0].state.SendWaiting?
    && PortOf(w.s.r, c).sends[0].data == rest
  }

  /** What holds of it in any reachable world. */
  lemma OutgoingOk(e: Config, w: World, c: nat, rest: Bytes)
    requires Outgoing(e, w, c, rest)
    ensures RunInv(e, w) && Wf(w.s.m) && PoolWf(w.s.p) && c in w.s.r.ports
    ensures var x := w.s.m.conns[c];
      x.outQueue != [] && x.written < |x.outQueue[0]| && rest == x.outQueue[0][x.written..]
  {
    ReachableOk(e, w);
    assert CtxOk(e, w.s, c);
  }

  lemma HandedToKernel(e: Config, w: World, c: nat, rest: Bytes) returns (u: World)
    requires Outgoing(e, w, c, rest)
    ensures Step(e, w, Loop(Submit), u) && Outgoing(e, u, c, rest) && u.s.m == w.s.m && u.socks == w.socks
    ensures u.s.r.calls == w.s.r.calls
    ensures PortOf(u.s.r, c).sends[0].state == SendWaiting(Socket(w.s.m.conns[c].connId))
  {
    OutgoingOk(e, w, c, rest);
    SubmitHandsOver(e, w, c);
    u := w.(s := LoopNext(e, w, Submit).s);
    ReactorFeed.OneStep(e, w, Loop(Submit), u);
    FlushedSend(w.s.m.os.files, PortOf(w.s.r, c));
    assert PortOf(u.s.r, c) == FlushPort(w.s.m.os.files, PortOf(w.s.r, c));
  }

  lemma FlushedSend(files: map<int, nat>, p: Port)
    requires |p.sends| == 1 && p.sends[0].state.SendWaiting?
    ensures |FlushPort(files, p).sends| == 1 && FlushPort(files, p).sends[0].state.SendWaiting?
  {
  }

  /** The kernel takes n bytes. */
  lemma TakenByKernel(e: Config, w: World, c: nat, rest: Bytes, n: nat) returns (u: World)
    requires Outgoing(e, w, c, rest) && 0 < n <= |rest|
    requires PortOf(w.s.r, c).sends[0].state == SendWaiting(Socket(w.s.m.conns[c].connId))
    ensures Step(e, w, Kernel(SendData(c, 0, n)), u) && Reachable(e, u)
    ensures u.clean && !u.stopped && u.s.m == w.s.m && u.s.r.calls == w.s.r.calls
    ensures u.socks == Transmit(w.socks, w.s.m.conns[c].connId, rest[..n]) && LiveSend(u.s, c, 0)
    ensures |PortOf(u.s.r, c).sends| == 1 && PortOf(u.s.r, c).sends[0].state == SendDone(n) && PortOf(u.s.r, c).sends[0].data == rest
  {
    OutgoingOk(e, w, c, rest);
    u := KernelNext(w, SendData(c, 0, n));
    ReactorFeed.OneStep(e, w, Kernel(SendData(c, 0, n)), u);
  }

  /** The connection's socket has taken these bytes, and no other socket anything. */
  ghost predicate Passed(w: World, v: World, i: nat, data: Bytes) {
    i < |w.socks| && v.socks == Transmit(w.socks, i, data)
  }

  /** The frame is out: the queue has moved on. */
  ghost predicate Out(w: World, v: World, c: nat) {
    && c < |w.s.m.conns| && c < |v.s.m.conns| && IsActive(v.s.m, c) && w.s.m.conns[c].outQueue != []
    && v.s.m.conns[c].outQueue == w.s.m.conns[c].outQueue[1..] && v.s.m.conns[c].written == 0
    && v.s.m.conns[c].connId == w.s.m.conns[c].connId
  }

  lemma {:induction false} RoomFree(e: Config, calls: nat, n: nat)
    requires RoomAfter(e, calls)
    ensures Free(e, calls, n)
    decreases n
  {
    if n > 0 {
      RoomFree(e, calls + 1, n - 1);
    }
  }

  /** One turn: submitted, taken by the kernel in part or whole, and taken off by the loop. */
  lemma OneTurn(e: Config, start: World, before: seq<Event>, w: World, c: nat, rest: Bytes, n: nat)
    returns (evs: seq<Event>, v: World)
    requires Continues(e, SendingOf(c), before, start, w) && Outgoing(e, w, c, rest) && 0 < n <= |rest|
    ensures Continues(e, SendingOf(c), evs, start, v) && Passed(w, v, w.s.m.conns[c].connId, rest[..n])
    ensures if n < |rest| then Outgoing(e, v, c, rest[n..]) && SameFrame(w, v, c) else Out(w, v, c)
  {
    var w1 := HandedToKernel(e, w, c, rest);
    var w2 := TakenByKernel(e, w1, c, rest, n);
    var ev0, ev1, ev2 := Loop(Submit), Kernel(SendData(c, 0, n)), Loop(TakeSend(c, 0));
    OneMore(e, SendingOf(c), before, start, w, ev0, w1);
    OneMore(e, SendingOf(c), before + [ev0], start, w1, ev1, w2);
    v := TakenByLoop(e, w2, c, rest, n);
    OneMore(e, SendingOf(c), before + [ev0] + [ev1], start, w2, ev2, v);
    evs := before + [ev0] + [ev1] + [ev2];
  }

  ghost predicate SameFrame(w: World, v: World, c: nat) {
    && c < |w.s.m.conns| && c < |v.s.m.conns|
    && v.s.m.conns[c].outQueue == w.s.m.conns[c].outQueue && v.s.m.conns[c].connId == w.s.m.conns[c].connId
  }

  lemma TakenByLoop(e: Config, w: World, c: nat, rest: Bytes, n: nat) returns (v: World)
    requires Reachable(e, w) && w.clean && !w.stopped && RoomAfter(e, w.s.r.calls) && LiveSend(w.s, c, 0)
    requires IsActive(w.s.m, c) && w.s.m.conns[c].connId < |w.socks| && 0 < n <= |rest|
    requires PortOf(w.s.r, c).sends[0].state == SendDone(n) && PortOf(w.s.r, c).sends[0].data == rest
    ensures Step(e, w, Loop(TakeSend(c, 0)), v) && v.socks == w.socks
    ensures if n < |rest| then Outgoing(e, v, c, rest[n..]) && SameFrame(w, v, c) else Out(w, v, c)
  {
    ReachableOk(e, w);
    SendCompletes(e, w, c, 0);
    v := w.(s := LoopNext(e, w, TakeSend(c, 0)).s);
    ReactorFeed.OneStep(e, w, Loop(TakeSend(c, 0)), v);
    RoomToGoOn(e, w.s.r.calls, w.s.m.conns[c], PortOf(w.s.r, c), v.s, c, rest, n);
    CallsGrow(e, w, c);
  }

  lemma RoomToGoOn(e: Config, calls: nat, x: Context, p: Port, t: Server, c: nat, rest: Bytes, n: nat)
    requires RoomAfter(e, calls) && x.outQueue != [] && 0 < n <= |rest|
    requires |p.sends| > 0 && p.sends[0].state == SendDone(n) && p.sends[0].data == rest
    requires if n < |rest| then PartOut(e, calls, x, p, t, c) else FrameOut(e, calls, x, p, t, c)
    ensures c < |t.m.conns| && IsActive(t.m, c) && t.m.conns[c].connId == x.connId
    ensures if n < |rest| then t.m.conns[c].outQueue == x.outQueue && PortOf(t.r, c).sends == [SendOp(x.fd, rest[n..], SendWaiting(Queued))]
      else t.m.conns[c].outQueue == x.outQueue[1..] && t.m.conns[c].written == 0
  {
    RoomFree(e, calls, 0);
    RoomFree(e, calls, 1);
    RoomFree(e, calls, 2);
  }

  lemma CallsGrow(e: Config, w: World, c: nat)
    requires Wf(w.s.m) && PoolWf(w.s.p) && LoopEnabled(w, TakeSend(c, 0))
    ensures LoopNext(e, w, TakeSend(c, 0)).s.r.calls >= w.s.r.calls
  {
    var res := PortOf(w.s.r, c).sends[0].state.res;
    ProcessSendIs(e, w.s, c, 0);
    HandleCalls(e, SendOff(w.s, c, 0), c, res);
  }

  lemma ContinueCalls(e: Config, s: Server, c: nat, fd: int)
    requires Wf(s.m) && c < |s.m.conns|
    ensures ContinueSend(e, s, c, fd).r.calls >= s.r.calls
  {
  }

  lemma ResumeCalls(e: Config, s: Server, c: nat, fd: int)
    requires Wf(s.m) && c < |s.m.conns|
    ensures ResumeReading(e, s, c, fd).r.calls >= s.r.calls
  {
    var (ok, s1) := SubmitRecv(e, s, fd);
    if ok {
      ContinueCalls(e, s1, c, fd);
    }
  }

  lemma HandleCalls(e: Config, s: Server, c: nat, res: int)
    requires Wf(s.m) && c < |s.m.conns|
    ensures HandleSend(e, s, c, res).r.calls >= s.r.calls
  {
    var x := s.m.conns[c];
    if res > 0 && x.outQueue != [] {
      if x.written + res < |x.outQueue[0]| {
        ContinueCalls(e, PutCtx(s, c, Advance(x, res)), c, x.fd);
      } else {
        var y := PopFront(x);
        ResumeCalls(e, PutCtx(s, c, y.(readPaused := false)), c, y.fd);
        ContinueCalls(e, PutCtx(s, c, y), c, y.fd);
      }
    }
  }

  function Sum(parts: seq<nat>): nat {
    if parts == [] then 0 else parts[0] + Sum(parts[1..])
  }

  lemma {:induction false} SplitFrom(e: Config, start: World, before: seq<Event>, w: World, c: nat, rest: Bytes, parts: seq<nat>)
    returns (evs: seq<Event>, v: World)
    requires Continues(e, SendingOf(c), before, start, w) && Outgoing(e, w, c, rest)
    requires (forall k :: 0 <= k < |parts| ==> parts[k] > 0) && Sum(parts) == |rest|
    ensures Continues(e, SendingOf(c), evs, start, v) && Out(w, v, c) && Passed(w, v, w.s.m.conns[c].connId, rest)
    decreases |parts|
  {
    OutgoingOk(e, w, c, rest);
    var n := parts[0];
    evs, v := OneTurn(e, start, before, w, c, rest, n);
    if n < |rest| {
      var u := v;
      evs, v := SplitFrom(e, start, evs, u, c, rest[n..], parts[1..]);
      PassedOn(w, u, v, w.s.m.conns[c].connId, rest, n);
    } else {
      assert rest[..n] == rest;
    }
  }

  lemma PassedOn(w: World, u: World, v: World, i: nat, rest: Bytes, n: nat)
    requires n <= |rest| && Passed(w, u, i, rest[..n]) && Passed(u, v, i, rest[n..])
    ensures Passed(w, v, i, rest)
  {
    assert w.socks[i].accepted + rest[..n] + rest[n..] == w.socks[i].accepted + rest;
    assert v.socks == Transmit(w.socks, i, rest);
  }

  /** The kernel may take a frame in any parts it likes: if they add up to what is missing, all of it has passed over the
      connection's socket in the end and the frame has left the queue, with nobody else taking a step. */
  lemma AnySplit(e: Config, w: World, c: nat, rest: Bytes, parts: seq<nat>) returns (evs: seq<Event>, v: World)
    requires Outgoing(e, w, c, rest) && (forall k :: 0 <= k < |parts| ==> parts[k] > 0) && Sum(parts) == |rest|
    ensures Continues(e, SendingOf(c), evs, w, v) && Out(w, v, c) && Passed(w, v, w.s.m.conns[c].connId, rest)
  {
    evs, v := SplitFrom(e, w, [], w, c, rest, parts);
  }
}
