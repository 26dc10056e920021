/** What handlers leave alone: other connections, and the data of the one they work on. */
module ReactorLocality {
  import opened Connections
  import opened Reactor
  import opened ReactorInvariant
  import opened ReactorPrimitives

  /** Nothing but context c, its operations and its descriptor changed. */
  ghost predicate LocalTo(s: Server, t: Server, c: nat) {
    && c < |s.m.conns| == |t.m.conns|
    && t.r.bufs == s.r.bufs && t.m.nextId == s.m.nextId
    && (forall d :: 0 <= d < |s.m.conns| && d != c ==>
          t.m.conns[d] == s.m.conns[d] && PortOf(t.r, d) == PortOf(s.r, d) && (d in t.m.idle <==> d in s.m.idle))
    && (forall d :: 0 <= d < |s.m.conns| && d != c ==> (IsActive(t.m, d) <==> IsActive(s.m, d)))
    && (forall fd :: fd in t.m.os.files ==> fd in s.m.os.files)
  }

  /** Context c only submitted operations, or was closed: no byte of it moved. */
  ghost predicate Calm(s: Server, t: Server, c: nat) {
    && LocalTo(s, t, c)
    && t.p == s.p && t.delivered == s.delivered
    && var x, y, p, q := s.m.conns[c], t.m.conns[c], PortOf(s.r, c), PortOf(t.r, c);
       && y.fd == x.fd && y.connId == x.connId && y.input == x.input && y.outQueue == x.outQueue && y.written == x.written
       && (q.recvs == p.recvs || q.recvs == p.recvs + [RecvOp(x.fd, RecvWaiting(Queued))])
       && (q.sends == p.sends ||
           (x.outQueue != [] && x.written <= |x.outQueue[0]|
            && q.sends == p.sends + [SendOp(x.fd, x.outQueue[0][x.written..], SendWaiting(Queued))]))
       && ((IsActive(t.m, c) && c !in t.m.idle) || x.fd !in t.m.os.files)
  }

  /** The context is in the tables, and nothing else is under its descriptor. */
  ghost predicate Hosted(m: Manager, c: nat) {
    Tables(m) && c < |m.conns| && IsActive(m, c)
  }

  lemma CloseCalm(s: Server, c: nat)
    requires Hosted(s.m, c)
    ensures Calm(s, CloseConn(s, s.m.conns[c].fd), c)
  {
    var t := CloseConn(s, s.m.conns[c].fd);
    assert forall d :: d != c ==> (d in t.m.idle <==> d in s.m.idle);
  }

  lemma PutTables(m: Manager, c: nat, x: Context)
    requires Hosted(m, c) && x.fd == m.conns[c].fd && x.connId == m.conns[c].connId
    ensures Hosted(Put(m, c, x), c)
  {
  }

  lemma TouchedCalm(s: Server, t: Server, c: nat)
    requires Hosted(s.m, c) && Touched(s, t, c)
    requires var x, y, p, q := s.m.conns[c], t.m.conns[c], PortOf(s.r, c), PortOf(t.r, c);
      && y.input == x.input && y.outQueue == x.outQueue && y.written == x.written
      && (q.recvs == p.recvs || q.recvs == p.recvs + [RecvOp(x.fd, RecvWaiting(Queued))])
      && (q.sends == p.sends ||
          (x.outQueue != [] && x.written <= |x.outQueue[0]|
           && q.sends == p.sends + [SendOp(x.fd, x.outQueue[0][x.written..], SendWaiting(Queued))]))
    ensures Calm(s, t, c) && Hosted(t.m, c)
  {
    PutTables(s.m, c, t.m.conns[c]);
  }

  lemma SubmitRecvCalm(e: Config, s: Server, c: nat)
    requires Hosted(s.m, c)
    ensures var t := SubmitRecv(e, s, s.m.conns[c].fd).1; Calm(s, t, c) && Hosted(t.m, c)
  {
    SubmitRecvEffect(e, s, c);
    TouchedCalm(s, SubmitRecv(e, s, s.m.conns[c].fd).1, c);
  }

  lemma SubmitSendCalm(e: Config, s: Server, c: nat)
    requires Hosted(s.m, c) && s.m.conns[c].outQueue != [] && s.m.conns[c].written < |s.m.conns[c].outQueue[0]|
    ensures var t := SubmitSend(e, s, s.m.conns[c].fd).1; Calm(s, t, c) && Hosted(t.m, c)
  {
    SubmitSendEffect(e, s, c);
    TouchedCalm(s, SubmitSend(e, s, s.m.conns[c].fd).1, c);
  }

  lemma PutCalm(s: Server, c: nat, y: Context)
    requires Hosted(s.m, c)
    requires var x := s.m.conns[c];
      y.fd == x.fd && y.connId == x.connId && y.input == x.input && y.outQueue == x.outQueue && y.written == x.written
    ensures Calm(s, PutCtx(s, c, y), c) && Hosted(PutCtx(s, c, y).m, c)
  {
  }

  /** After a submission that failed and changed no operation, closing is still calm. */
  lemma ThenClose(s: Server, t: Server, c: nat)
    requires Calm(s, t, c) && Hosted(t.m, c)
    ensures Calm(s, CloseConn(t, s.m.conns[c].fd), c)
  {
    CloseCalm(t, c);
  }

  lemma RearmRecvCalm(e: Config, s: Server, c: nat)
    requires Hosted(s.m, c)
    ensures Calm(s, RearmRecv(e, s, s.m.conns[c].fd), c)
  {
    SubmitRecvCalm(e, s, c);
    ThenClose(s, SubmitRecv(e, s, s.m.conns[c].fd).1, c);
  }

  lemma ReadOnCalm(e: Config, s: Server, c: nat)
    requires Hosted(s.m, c)
    ensures Calm(s, ReadOn(e, s, c), c)
  {
    PutCalm(s, c, s.m.conns[c].(readPaused := true));
    RearmRecvCalm(e, s, c);
  }

  lemma ContinueSendCalm(e: Config, s: Server, c: nat)
    requires Hosted(s.m, c)
    requires s.m.conns[c].outQueue != [] ==> s.m.conns[c].written < |s.m.conns[c].outQueue[0]|
    ensures Calm(s, ContinueSend(e, s, c, s.m.conns[c].fd), c)
  {
    if s.m.conns[c].outQueue == [] {
      PutCalm(s, c, s.m.conns[c].(sending := false));
    } else {
      SubmitSendCalm(e, s, c);
      ThenClose(s, SubmitSend(e, s, s.m.conns[c].fd).1, c);
    }
  }

  /** Reading again with no operation outstanding, then going on sending. */
  lemma ResumeReadingCalm(e: Config, s: Server, c: nat)
    requires Hosted(s.m, c)
    requires s.m.conns[c].outQueue != [] ==> s.m.conns[c].written < |s.m.conns[c].outQueue[0]|
    ensures Calm(s, ResumeReading(e, s, c, s.m.conns[c].fd), c)
  {
    var fd := s.m.conns[c].fd;
    SubmitRecvCalm(e, s, c);
    var (ok, s1) := SubmitRecv(e, s, fd);
    if ok {
      ContinueSendCalm(e, s1, c);
      CalmRecvThenSend(s, s1, ContinueSend(e, s1, c, fd), c);
    } else {
      ThenClose(s, s1, c);
    }
  }

  lemma CalmRecvThenSend(s: Server, t: Server, u: Server, c: nat)
    requires Calm(s, t, c) && Calm(t, u, c)
    requires PortOf(t.r, c).sends == PortOf(s.r, c).sends && PortOf(u.r, c).recvs == PortOf(t.r, c).recvs
    ensures Calm(s, u, c)
  {
  }
}
