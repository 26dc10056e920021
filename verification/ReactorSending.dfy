/**
  What becomes of a connection when one of its sends completes, told by its fields alone: nothing less is done than the
  completion calls for, and a frame that is delivered goes out whole however the kernel splits it.
 */
module ReactorSending {
  import opened ByteStrings
  import opened Connections
  import opened Reactor
  import opened ReactorRun
  import opened ReactorInvariant
  import opened ReactorPrimitives
  import opened ReactorProcess
  import opened ReactorSafety
  import opened ReactorLocality
  import opened ReactorStreamSteps

  /** The next n entries asked for are free. */
  ghost predicate Free(e: Config, calls: nat, n: nat)
    decreases n
  {
    n == 0 || (e.sqe(calls) && Free(e, calls + 1, n - 1))
  }

  /** An open connection with context x and operations p has become y and q. */
  ghost predicate Became(s: Server, c: nat, y: Context, q: Port) {
    c < |s.m.conns| && IsActive(s.m, c) && s.m.conns[c] == y && PortOf(s.r, c) == q
  }

  /** The connection of context x has been closed. */
  ghost predicate ClosedNow(s: Server, c: nat, x: Context) {
    && c < |s.m.conns| && !IsActive(s.m, c) && s.m.conns[c].closing && x.fd !in s.m.active
    && x.fd !in s.m.os.files && x.connId in s.m.os.closed
  }

  lemma ClosesNow(s: Server, c: nat, r: Ring)
    requires Hosted(s.m, c) && FilesOk(s.m, r)
    ensures ClosedNow(CloseConn(s, s.m.conns[c].fd), c, s.m.conns[c])
  {
    CloseIs(s.m, Close(s.m, s.m.conns[c].fd), c);
    var closed := s.m.os.closed + [s.m.conns[c].connId];
    assert closed[|s.m.os.closed|] == s.m.conns[c].connId;
  }

  /** The send for the front of the queue. */
  function NextSend(x: Context): SendOp
    requires x.outQueue != [] && x.written <= |x.outQueue[0]|
  {
    SendOp(x.fd, x.outQueue[0][x.written..], SendWaiting(Queued))
  }

  lemma ContinuesSending(e: Config, s: Server, c: nat, x: Context, p: Port)
    requires Hosted(s.m, c) && FilesOk(s.m, s.r) && x == s.m.conns[c] && p == PortOf(s.r, c)
    requires x.outQueue != [] ==> x.written < |x.outQueue[0]|
    ensures var t := ContinueSend(e, s, c, x.fd);
      if x.outQueue == [] then Became(t, c, x.(sending := false), p)
      else if e.sqe(s.r.calls) then Became(t, c, x.(inflight := x.inflight + 1, sending := true), p.(sends := p.sends + [NextSend(x)]))
      else ClosedNow(t, c, x)
  {
    if x.outQueue != [] {
      SubmitSendEffect(e, s, c);
      var t := SubmitSend(e, s, x.fd).1;
      if !e.sqe(s.r.calls) {
        ClosesNow(t, c, s.r);
      }
    }
  }

  lemma ReadsAgain(e: Config, s: Server, c: nat, x: Context, p: Port, t: Server)
    requires Hosted(s.m, c) && FilesOk(s.m, s.r) && x == s.m.conns[c] && p == PortOf(s.r, c) && t == SubmitRecv(e, s, x.fd).1
    ensures SubmitRecv(e, s, x.fd).0 == e.sqe(s.r.calls)
    ensures if e.sqe(s.r.calls)
      then Became(t, c, x.(inflight := x.inflight + 1), p.(recvs := p.recvs + [RecvOp(x.fd, RecvWaiting(Queued))]))
        && Hosted(t.m, c) && FilesOk(t.m, t.r) && t.r.calls == s.r.calls + 1
      else ClosedNow(CloseConn(t, x.fd), c, x)
  {
    SubmitRecvEffect(e, s, c);
    if e.sqe(s.r.calls) {
      TouchTables(s.m, s.r, c, t.m.conns[c]);
    } else {
      ClosesNow(t, c, s.r);
    }
  }

  // The completion.

  /** Part of the front frame went out: the rest of the same buffer is sent, and nothing else changes. */
  ghost predicate PartOut(e: Config, calls: nat, x: Context, p: Port, t: Server, c: nat)
    requires |p.sends| > 0 && p.sends[0].state.SendDone? && 0 < p.sends[0].state.res <= |p.sends[0].data|
  {
    var op := p.sends[0];
    var res := op.state.res;
    if e.sqe(calls)
    then Became(t, c, x.(written := x.written + res), Port(p.recvs, [SendOp(x.fd, op.data[res..], SendWaiting(Queued))]))
    else ClosedNow(t, c, x)
  }

  /** The front frame is out: one request less is pending, which may let the connection read again, and the next frame,
      if there is one, is sent from its first byte on. */
  ghost predicate FrameOut(e: Config, calls: nat, x: Context, p: Port, t: Server, c: nat)
    requires x.outQueue != []
  {
    var rest, again := x.outQueue[1..], x.readPaused && x.pendingReqs - 1 < 256;
    var recvs := if again then [RecvOp(x.fd, RecvWaiting(Queued))] else p.recvs;
    var sends := if rest == [] then [] else [SendOp(x.fd, rest[0], SendWaiting(Queued))];
    if Free(e, calls, (if again then 1 else 0) + |sends|)
    then Became(t, c, x.(outQueue := rest, written := 0, pendingReqs := x.pendingReqs - 1, readPaused := x.readPaused && !again,
                         sending := rest != [], inflight := |recvs| + |sends|), Port(recvs, sends))
    else ClosedNow(t, c, x)
  }

  /** Context x with its send completion taken off. */
  ghost predicate TakenOff(s: Server, c: nat, x: Context, p: Port) {
    && Hosted(s.m, c) && FilesOk(s.m, s.r)
    && s.m.conns[c] == x.(inflight := x.inflight - 1) && PortOf(s.r, c) == p.(sends := [])
    && |p.sends| == 1 && x.inflight == |p.recvs| + 1 && x.sending && x.outQueue != []
    && (forall k :: 0 <= k < |x.outQueue| ==> x.outQueue[k] != [])
    && x.written < |x.outQueue[0]| && p.sends[0].data == x.outQueue[0][x.written..]
    && (x.readPaused ==> p.recvs == [])
  }

  lemma PartTaken(e: Config, s: Server, c: nat, x: Context, p: Port, res: int)
    requires TakenOff(s, c, x, p) && 0 < res < |p.sends[0].data| && p.sends[0].state == SendDone(res)
    ensures PartOut(e, s.r.calls, x, p, HandleSend(e, s, c, res), c)
  {
    var y := Advance(s.m.conns[c], res);
    var v := PutCtx(s, c, y);
    TouchTables(s.m, s.r, c, y);
    ContinuesSending(e, v, c, y, p.(sends := []));
    assert x.outQueue[0][x.written..][res..] == x.outQueue[0][x.written + res..];
    assert [] + [NextSend(y)] == [NextSend(y)];
  }

  lemma WholeTaken(e: Config, s: Server, c: nat, x: Context, p: Port, res: int)
    requires TakenOff(s, c, x, p) && res > 0 && res >= |p.sends[0].data|
    ensures FrameOut(e, s.r.calls, x, p, HandleSend(e, s, c, res), c)
  {
    var y := PopFront(s.m.conns[c]);
    var again := y.readPaused && y.pendingReqs < MAX_INFLIGHT_PER_CONN;
    var z := if again then y.(readPaused := false) else y;
    var v := PutCtx(s, c, z);
    TouchTables(s.m, s.r, c, z);
    if again {
      FrameOutReading(e, v, c, x, z, p);
    } else {
      FrameOutOnly(e, v, c, x, z, p);
    }
  }

  lemma FrameOutOnly(e: Config, v: Server, c: nat, x: Context, z: Context, p: Port)
    requires Hosted(v.m, c) && FilesOk(v.m, v.r) && v.m.conns[c] == z && PortOf(v.r, c) == p.(sends := [])
    requires x.outQueue != [] && x.inflight == |p.recvs| + 1 && !(x.readPaused && x.pendingReqs - 1 < 256) && x.sending
    requires z == PopFront(x).(inflight := x.inflight - 1) && (forall k :: 0 <= k < |x.outQueue| ==> x.outQueue[k] != [])
    ensures FrameOut(e, v.r.calls, x, p, ContinueSend(e, v, c, x.fd), c)
  {
    ContinuesSending(e, v, c, z, p.(sends := []));
    NextWhole(z);
    FreeSoon(e, v.r.calls);
  }

  lemma NextWhole(z: Context)
    requires z.written == 0
    ensures z.outQueue != [] ==> [] + [NextSend(z)] == [SendOp(z.fd, z.outQueue[0], SendWaiting(Queued))]
  {
    if z.outQueue != [] {
      assert z.outQueue[0][0..] == z.outQueue[0];
    }
  }

  lemma FrameOutReading(e: Config, v: Server, c: nat, x: Context, z: Context, p: Port)
    requires Hosted(v.m, c) && FilesOk(v.m, v.r) && v.m.conns[c] == z && PortOf(v.r, c) == p.(sends := [])
    requires x.outQueue != [] && x.inflight == 1 && x.readPaused && x.pendingReqs - 1 < 256 && p.recvs == [] && x.sending
    requires z == PopFront(x).(inflight := 0, readPaused := false) && (forall k :: 0 <= k < |x.outQueue| ==> x.outQueue[k] != [])
    ensures FrameOut(e, v.r.calls, x, p, ResumeReading(e, v, c, x.fd), c)
  {
    var calls, t := v.r.calls, SubmitRecv(e, v, x.fd).1;
    ReadsAgain(e, v, c, z, p.(sends := []), t);
    FreeSoon(e, calls);
    if e.sqe(calls) {
      var recvs := [RecvOp(x.fd, RecvWaiting(Queued))];
      assert [] + recvs == recvs;
      ReadThenSend(e, t, c, x, z.(inflight := 1), p, recvs);
    }
  }

  lemma FreeSoon(e: Config, calls: nat)
    ensures Free(e, calls, 1) == e.sqe(calls) && Free(e, calls, 2) == (e.sqe(calls) && e.sqe(calls + 1))
  {
    assert Free(e, calls + 1, 0) && Free(e, calls + 2, 0);
    assert Free(e, calls + 1, 1) == e.sqe(calls + 1);
  }

  lemma ReadThenSend(e: Config, t: Server, c: nat, x: Context, z: Context, p: Port, recvs: seq<RecvOp>)
    requires Hosted(t.m, c) && FilesOk(t.m, t.r) && t.m.conns[c] == z && PortOf(t.r, c) == Port(recvs, [])
    requires recvs == [RecvOp(x.fd, RecvWaiting(Queued))] && t.r.calls > 0 && e.sqe(t.r.calls - 1)
    requires x.outQueue != [] && x.inflight == 1 && x.readPaused && x.pendingReqs - 1 < 256 && x.sending
    requires z == PopFront(x).(inflight := 1, readPaused := false) && (forall k :: 0 <= k < |x.outQueue| ==> x.outQueue[k] != [])
    ensures FrameOut(e, t.r.calls - 1, x, p, ContinueSend(e, t, c, x.fd), c)
  {
    ContinuesSending(e, t, c, z, Port(recvs, []));
    NextWhole(z);
    FreeSoon(e, t.r.calls - 1);
  }

  /** A send completion on an open connection, in every reachable world: a failure closes it, a partial send goes on with
      the rest, a whole frame gives way to the next; and it is closed otherwise only if the ring is full. */
  lemma SendCompletes(e: Config, w: World, c: nat, j: nat)
    requires Reachable(e, w) && Wf(w.s.m) && PoolWf(w.s.p) && LoopEnabled(w, TakeSend(c, j)) && IsActive(w.s.m, c)
    ensures j == 0 && w.s.m.conns[c].outQueue != [] && |PortOf(w.s.r, c).sends| == 1
    ensures var x, p, t := w.s.m.conns[c], PortOf(w.s.r, c), LoopNext(e, w, TakeSend(c, j)).s;
      var res := p.sends[0].state.res;
      && p.sends[0].state.SendDone? && res <= |p.sends[0].data|
      && LocalTo(w.s, t, c) && t.p == w.s.p && t.delivered == w.s.delivered
      && (if res <= 0 then ClosedNow(t, c, x)
          else if res < |p.sends[0].data| then PartOut(e, w.s.r.calls, x, p, t, c)
          else FrameOut(e, w.s.r.calls, x, p, t, c))
  {
    ReachableOk(e, w);
    SendOfActive(e, w.s, c, j);
    SendTakenOff(e, w.s, c);
    ActiveProcessSend(e, w.s, c);
    SendLocal(e, w.s, c);
    var x, p, u := w.s.m.conns[c], PortOf(w.s.r, c), SendOff(w.s, c, 0);
    var res := p.sends[0].state.res;
    if res <= 0 {
      ClosesNow(u, c, u.r);
    } else if res < |p.sends[0].data| {
      PartTaken(e, u, c, x, p, res);
    } else {
      WholeTaken(e, u, c, x, p, res);
    }
  }

  lemma SendTakenOff(e: Config, s: Server, c: nat)
    requires Inv(e, s) && LiveSend(s, c, 0) && IsActive(s.m, c) && PortOf(s.r, c).sends[0].state.SendDone?
    ensures TakenOff(SendOff(s, c, 0), c, s.m.conns[c], PortOf(s.r, c)) && SendOff(s, c, 0).r.calls == s.r.calls
  {
    assert CtxOk(e, s, c);
    var u := SendOff(s, c, 0);
    TouchTables(s.m, s.r, c, u.m.conns[c]);
    assert RemoveAt(PortOf(s.r, c).sends, 0) == [];
  }

  lemma SendLocal(e: Config, s: Server, c: nat)
    requires Inv(e, s) && LiveSend(s, c, 0) && IsActive(s.m, c) && PortOf(s.r, c).sends[0].state.SendDone?
    ensures var t := ProcessSend(e, s, c, 0); LocalTo(s, t, c) && t.p == s.p && t.delivered == s.delivered
  {
    SendOfActive(e, s, c, 0);
    SendCountedLocal(s, c);
    ActiveProcessSend(e, s, c);
    HandleSendCalm(e, SendOff(s, c, 0), c, PortOf(s.r, c).sends[0].state.res);
  }
}
