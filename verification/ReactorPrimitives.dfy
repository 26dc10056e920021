/** How the building blocks of the handlers act on the invariant, with one context under work exempted. */
module ReactorPrimitives {
  import opened ByteStrings
  import opened Connections
  import opened Reactor
  import opened ReactorInvariant

  // Buffers held by posted completions.

  lemma {:induction false} HeldFrame(r: Ring, t: Ring, n: nat, b: nat)
    requires forall c :: 0 <= c < n ==> Holds(PortOf(r, c).recvs, b) == Holds(PortOf(t, c).recvs, b)
    ensures Held(r, n, b) == Held(t, n, b)
  {
    if n > 0 {
      HeldFrame(r, t, n - 1, b);
      assert Holds(PortOf(r, n - 1).recvs, b) == Holds(PortOf(t, n - 1).recvs, b);
    }
  }

  /** Changing the operations of one context changes the count by what that context holds. */
  lemma {:induction false} HeldPut(r: Ring, t: Ring, c: nat, n: nat, b: nat)
    requires c < n
    requires forall d :: 0 <= d < n && d != c ==> Holds(PortOf(r, d).recvs, b) == Holds(PortOf(t, d).recvs, b)
    ensures Held(t, n, b) + Holds(PortOf(r, c).recvs, b) == Held(r, n, b) + Holds(PortOf(t, c).recvs, b)
  {
    if c == n - 1 {
      HeldFrame(r, t, n - 1, b);
    } else {
      HeldPut(r, t, c, n - 1, b);
      assert Holds(PortOf(r, n - 1).recvs, b) == Holds(PortOf(t, n - 1).recvs, b);
    }
  }

  lemma {:induction false} HoldsAppend(ops: seq<RecvOp>, op: RecvOp, b: nat)
    ensures Holds(ops + [op], b) == Holds(ops, b) + Holds([op], b)
  {
    if ops == [] {
      assert ops + [op] == [op];
    } else {
      HoldsAppend(ops[1..], op, b);
      assert (ops + [op])[1..] == ops[1..] + [op];
    }
  }

  /** The buffer partition survives any change to the ring that moves no completion and frees no buffer. */
  lemma BufsFrame(s: Server, t: Server)
    requires BufsOk(s)
    requires t.r.bufs == s.r.bufs && t.r.free == s.r.free && |t.m.conns| == |s.m.conns|
    requires forall c :: c in t.r.ports ==> c < |t.m.conns|
    requires forall c, b: nat :: 0 <= c < |s.m.conns| ==> Holds(PortOf(t.r, c).recvs, b) == Holds(PortOf(s.r, c).recvs, b)
    ensures BufsOk(t)
  {
    forall b: nat | b < BUF_RING_ENTRIES
      ensures t.r.free[b] + Held(t.r, |t.m.conns|, b) == 1
    {
      HeldFrame(s.r, t.r, |s.m.conns|, b);
    }
  }

  // Touching one context.

  /** `t` is `s` with context c and its outstanding operations changed; buffers may have moved. */
  ghost predicate TouchedOnly(s: Server, t: Server, c: nat) {
    && c < |s.m.conns| && c < |t.m.conns|
    && t.m == Put(s.m, c, t.m.conns[c])
    && t.m.conns[c].fd == s.m.conns[c].fd && t.m.conns[c].connId == s.m.conns[c].connId
    && t.p == s.p && t.delivered == s.delivered
    && t.r.accepts == s.r.accepts
    && (forall d :: 0 <= d < |s.m.conns| && d != c ==> PortOf(t.r, d) == PortOf(s.r, d))
  }

  ghost predicate Touched(s: Server, t: Server, c: nat) {
    && TouchedOnly(s, t, c)
    && t.r.free == s.r.free && t.r.bufs == s.r.bufs
    && (forall d :: d in t.r.ports ==> d in s.r.ports || d == c)
  }

  lemma TouchTables(m: Manager, r: Ring, c: nat, x: Context)
    requires Tables(m) && FilesOk(m, r) && c < |m.conns|
    requires x.fd == m.conns[c].fd && x.connId == m.conns[c].connId
    ensures Tables(Put(m, c, x)) && FilesOk(Put(m, c, x), r)
  {
  }

  lemma TouchOnlyKeeps(e: Config, s: Server, t: Server, c: nat)
    requires Base(s) && Others(e, s, c) && TouchedOnly(s, t, c) && BufsOk(t)
    ensures Base(t) && Others(e, t, c)
  {
    TouchTables(s.m, s.r, c, t.m.conns[c]);
    forall d | 0 <= d < |t.m.conns| && d != c
      ensures CtxOk(e, t, d)
    {
      assert CtxOk(e, s, d);
    }
  }

  lemma TouchKeeps(e: Config, s: Server, t: Server, c: nat)
    requires Base(s) && Others(e, s, c) && Touched(s, t, c)
    requires forall b: nat :: Holds(PortOf(t.r, c).recvs, b) == Holds(PortOf(s.r, c).recvs, b)
    ensures Base(t) && Others(e, t, c)
  {
    BufsFrame(s, t);
    TouchOnlyKeeps(e, s, t, c);
  }

  lemma PutCtxKeeps(e: Config, s: Server, c: nat, x: Context)
    requires Base(s) && Others(e, s, c) && c < |s.m.conns|
    requires x.fd == s.m.conns[c].fd && x.connId == s.m.conns[c].connId
    ensures Base(PutCtx(s, c, x)) && Others(e, PutCtx(s, c, x), c)
  {
    TouchKeeps(e, s, PutCtx(s, c, x), c);
  }

  // Submitting.

  /** What a submission by the context under work leaves alone; a failed one changes nothing but the call count. */
  ghost predicate Submitted(s: Server, t: Server, c: nat, ok: bool) {
    && Touched(s, t, c)
    && (!ok ==> t.m == s.m && PortOf(t.r, c) == PortOf(s.r, c))
  }

  lemma SubmitRecvEffect(e: Config, s: Server, c: nat)
    requires Tables(s.m) && c < |s.m.conns| && IsActive(s.m, c)
    ensures var x, p := s.m.conns[c], PortOf(s.r, c); var (ok, t) := SubmitRecv(e, s, x.fd);
      && Submitted(s, t, c, ok)
      && (ok ==>
            && t.m.conns[c] == x.(inflight := x.inflight + 1)
            && PortOf(t.r, c) == p.(recvs := p.recvs + [RecvOp(x.fd, RecvWaiting(Queued))]))
  {
  }

  lemma SubmitRecvKeeps(e: Config, s: Server, c: nat)
    requires Base(s) && Others(e, s, c) && c < |s.m.conns| && IsActive(s.m, c)
    ensures var t := SubmitRecv(e, s, s.m.conns[c].fd).1; Base(t) && Others(e, t, c)
  {
    SubmitRecvEffect(e, s, c);
    var (ok, t) := SubmitRecv(e, s, s.m.conns[c].fd);
    forall b: nat
      ensures Holds(PortOf(t.r, c).recvs, b) == Holds(PortOf(s.r, c).recvs, b)
    {
      HoldsAppend(PortOf(s.r, c).recvs, RecvOp(s.m.conns[c].fd, RecvWaiting(Queued)), b);
    }
    TouchKeeps(e, s, t, c);
  }

  lemma SubmitSendEffect(e: Config, s: Server, c: nat)
    requires Tables(s.m) && c < |s.m.conns| && IsActive(s.m, c)
    requires s.m.conns[c].outQueue != [] && s.m.conns[c].written < |s.m.conns[c].outQueue[0]|
    ensures var x, p := s.m.conns[c], PortOf(s.r, c); var (ok, t) := SubmitSend(e, s, x.fd);
      && Submitted(s, t, c, ok)
      && PortOf(t.r, c).recvs == p.recvs
      && (ok ==>
            && t.m.conns[c] == x.(inflight := x.inflight + 1, sending := true)
            && PortOf(t.r, c).sends == p.sends + [SendOp(x.fd, x.outQueue[0][x.written..], SendWaiting(Queued))])
  {
  }

  lemma SubmitSendKeeps(e: Config, s: Server, c: nat)
    requires Base(s) && Others(e, s, c) && c < |s.m.conns| && IsActive(s.m, c)
    requires s.m.conns[c].outQueue != [] && s.m.conns[c].written < |s.m.conns[c].outQueue[0]|
    ensures var t := SubmitSend(e, s, s.m.conns[c].fd).1; Base(t) && Others(e, t, c)
  {
    SubmitSendEffect(e, s, c);
    TouchKeeps(e, s, SubmitSend(e, s, s.m.conns[c].fd).1, c);
  }

  // Closing.

  lemma CloseTables(m: Manager, c: nat)
    requires Tables(m) && c < |m.conns| && IsActive(m, c)
    ensures Tables(Close(m, m.conns[c].fd))
  {
    var t := Close(m, m.conns[c].fd);
    assert c !in m.idle;
    assert t.idle == m.idle || t.idle == m.idle + [c];
    assert forall d :: d in t.idle <==> d in m.idle || (d == c && t.idle == m.idle + [c]);
    assert NoDup(t.idle);
  }

  lemma CloseIs(m: Manager, t: Manager, c: nat)
    requires Tables(m) && c < |m.conns| && IsActive(m, c) && m.conns[c].fd in m.os.files
    requires m.os.files[m.conns[c].fd] == m.conns[c].connId && t == Close(m, m.conns[c].fd)
    ensures t.os == Descriptors(m.os.files - {m.conns[c].fd}, m.os.closed + [m.conns[c].connId], m.os.badCloses)
    ensures t.active == m.active - {m.conns[c].fd} && t.nextId == m.nextId
    ensures forall d :: 0 <= d < |m.conns| ==> t.conns[d].connId == m.conns[d].connId
  {
  }

  lemma CloseFiles(m: Manager, r: Ring, c: nat)
    requires Tables(m) && FilesOk(m, r) && c < |m.conns| && IsActive(m, c)
    ensures FilesOk(Close(m, m.conns[c].fd), r)
  {
    var fd := m.conns[c].fd;
    var t := Close(m, fd);
    CloseIs(m, t, c);
    forall f | f in t.active
      ensures t.conns[t.active[f]].connId !in t.os.closed
    {
      assert t.active[f] == m.active[f] != c;
      assert t.active[f] !in m.idle && c !in m.idle;
    }
  }

  /** Closing the context under work completes the invariant: with nothing outstanding it returns to the pool,
      with one operation outstanding it drains. */
  lemma CloseKeeps(e: Config, s: Server, c: nat)
    requires Base(s) && Others(e, s, c) && c < |s.m.conns| && IsActive(s.m, c) && c !in s.m.idle
    requires var x, p := s.m.conns[c], PortOf(s.r, c);
      QueueOk(x, p) && RecvsOk(x, p) && x.inflight == |p.recvs| + |p.sends| <= 1
    ensures var t := CloseConn(s, s.m.conns[c].fd); Base(t) && Others(e, t, -1)
  {
    var t := CloseConn(s, s.m.conns[c].fd);
    CloseTables(s.m, c);
    CloseFiles(s.m, s.r, c);
    BufsFrame(s, t);
    CloseOthers(e, s, t, c);
    CloseOwn(e, s, t, c);
  }

  lemma CloseOthers(e: Config, s: Server, t: Server, c: nat)
    requires Base(s) && Others(e, s, c) && c < |s.m.conns| && IsActive(s.m, c) && t == CloseConn(s, s.m.conns[c].fd)
    ensures Others(e, t, c)
  {
    forall d | 0 <= d < |t.m.conns| && d != c
      ensures CtxOk(e, t, d)
    {
      assert CtxOk(e, s, d);
      assert d in t.m.idle <==> d in s.m.idle;
    }
  }

  lemma CloseOwn(e: Config, s: Server, t: Server, c: nat)
    requires Tables(s.m) && c < |s.m.conns| && IsActive(s.m, c) && t == CloseConn(s, s.m.conns[c].fd)
    requires var x, p := s.m.conns[c], PortOf(s.r, c);
      QueueOk(x, p) && RecvsOk(x, p) && x.inflight == |p.recvs| + |p.sends| <= 1
    ensures CtxOk(e, t, c)
  {
  }

  /** Re-arming the recv of the context under work, or closing it if the ring is full. */
  lemma RearmRecvKeeps(e: Config, s: Server, c: nat)
    requires Base(s) && Others(e, s, c) && c < |s.m.conns| && IsActive(s.m, c) && c !in s.m.idle
    requires var x, p := s.m.conns[c], PortOf(s.r, c);
      && PortOf(s.r, c).recvs == []
      && ActiveOk(e, x.(inflight := x.inflight + 1), p.(recvs := [RecvOp(x.fd, RecvWaiting(Queued))]))
      && CountOk(s.p, x)
    ensures var t := RearmRecv(e, s, s.m.conns[c].fd);
      Base(t) && Others(e, t, -1) && t.p == s.p && SameQueues(s, t)
  {
    SubmitRecvEffect(e, s, c);
    SubmitRecvKeeps(e, s, c);
    var (ok, t) := SubmitRecv(e, s, s.m.conns[c].fd);
    if ok {
      assert CtxOk(e, t, c);
    } else {
      CloseKeeps(e, t, c);
    }
  }

  // Recycling.

  /** A closed context whose last operation has completed goes back to the pool. */
  lemma RecycleKeeps(e: Config, s: Server, c: nat)
    requires Base(s) && Others(e, s, c) && c < |s.m.conns| && !IsActive(s.m, c) && c !in s.m.idle
    requires PortOf(s.r, c) == NO_OPS && s.m.conns[c].inflight == 0
    ensures var t := s.(m := Recycle(s.m, c)); Base(t) && Others(e, t, -1)
  {
    var t := s.(m := Recycle(s.m, c));
    assert forall d :: d in t.m.idle <==> d in s.m.idle || d == c;
    assert NoDup(t.m.idle);
    BufsFrame(s, t);
    forall d | 0 <= d < |t.m.conns|
      ensures CtxOk(e, t, d)
    {
      if d != c {
        assert CtxOk(e, s, d);
      }
    }
  }
}
