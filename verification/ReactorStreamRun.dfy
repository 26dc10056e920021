/** The byte streams over whole runs. */
module ReactorStreamRun {
  import opened ByteStrings
  import opened Wire
  import opened Connections
  import opened Reactor
  import opened ReactorRun
  import opened ReactorInvariant
  import opened ReactorHandlers
  import opened ReactorProcess
  import opened ReactorSafety
  import opened ReactorLocality
  import opened ReactorStreams
  import opened ReactorStreamSteps

  // Accept and notify.

  /** Neither arms nor coroutines that keep what was requested and delivered matter to the streams. */
  lemma SamePool(e: Config, s: Server, t: Server, socks: seq<Sock>)
    requires StreamInv(e, s, socks)
    requires t.m == s.m && t.r.ports == s.r.ports && t.r.bufs == s.r.bufs && t.delivered == s.delivered
    requires t.p.coros == s.p.coros
    ensures StreamInv(e, t, socks)
  {
    PoolFrame(e, s, t, socks, -1);
  }

  lemma {:induction false} NoRequests(coros: seq<Coro>, i: nat)
    requires forall co :: 0 <= co < |coros| ==> coros[co].connId < i
    ensures RequestsOf(coros, i) == []
  {
    if coros != [] {
      NoRequests(coros[..|coros| - 1], i);
    }
  }

  lemma ArrivedCtx(e: Config, s: Server, socks: seq<Sock>, fd: int)
    requires Settled(e, s) && Arriving(s.r, fd) && Unused(s, socks) && |socks| == s.m.nextId + 1
    ensures var c := Acquire(s.m, fd).0; c < |Arrived(s, fd).m.conns| && StreamAs(e, Arrived(s, fd), socks, c, true)
  {
    var c, u := Acquire(s.m, fd).0, Arrived(s, fd);
    AcquireKeeps(e, s, fd);
    NoRequests(s.p.coros, s.m.nextId);
    assert socks[s.m.nextId] == Sock([], []);
    assert s.m.nextId !in s.delivered;
    assert DeliveredOn(u, s.m.nextId) == [];
    NewStreams(e.registry, u.m.conns[c], socks[s.m.nextId]);
    StreamIntro(e, u, socks, c, true, [], [], []);
  }

  lemma NewStreams(g: Registry, x: Context, sock: Sock)
    requires x.input == [] && x.outQueue == [] && sock == Sock([], [])
    ensures Streams(g, x, NO_OPS, true, false, [], [], [], sock)
  {
    DrainEmpty(g);
    assert sock.received[..|sock.received| - 0] == [];
    assert Partial(x) == [] && InFlight(NO_OPS) == [];
    assert SentOk(x, NO_OPS, [], sock.accepted);
  }

  lemma ArrivedOther(e: Config, s: Server, u: Server, socks: seq<Sock>, d: nat)
    requires d < |s.m.conns| && d < |u.m.conns| && StreamCtx(e, s, socks, d)
    requires u.m.conns[d] == s.m.conns[d] && PortOf(u.r, d) == PortOf(s.r, d) && u.r.bufs == s.r.bufs
    requires IsActive(u.m, d) == IsActive(s.m, d) && u.m.os == s.m.os && u.p == s.p && u.delivered == s.delivered
    ensures StreamCtx(e, u, socks, d)
  {
    assert DeliveredOn(u, s.m.conns[d].connId) == DeliveredOn(s, s.m.conns[d].connId);
  }

  lemma ArrivedOthers(e: Config, s: Server, socks: seq<Sock>, fd: int)
    requires Settled(e, s) && Arriving(s.r, fd) && StreamInv(e, s, socks)
    ensures var c := Acquire(s.m, fd).0; StreamOthers(e, Arrived(s, fd), socks, c)
  {
    var c, u := Acquire(s.m, fd).0, Arrived(s, fd);
    forall d | 0 <= d < |u.m.conns| && d != c && d !in u.m.idle
      ensures StreamCtx(e, u, socks, d)
    {
      ArrivedFields(s, fd, d);
      assert StreamCtx(e, s, socks, d);
      ArrivedOther(e, s, u, socks, d);
    }
  }

  lemma ArrivedFields(s: Server, fd: int, d: nat)
    requires Tables(s.m) && FilesOk(s.m, s.r) && Arriving(s.r, fd)
    requires var c, u := Acquire(s.m, fd).0, Arrived(s, fd); d < |u.m.conns| && d != c && d !in u.m.idle
    ensures var u := Arrived(s, fd);
      && d < |s.m.conns| && d !in s.m.idle
      && u.m.conns[d] == s.m.conns[d] && u.r.ports == s.r.ports && u.r.bufs == s.r.bufs
      && IsActive(u.m, d) == IsActive(s.m, d) && u.m.os == s.m.os && u.p == s.p && u.delivered == s.delivered
  {
    AcquireEffect(s.m, fd);
  }

  lemma NewConnectionStreams(e: Config, s: Server, socks: seq<Sock>, fd: int)
    requires Settled(e, s) && Arriving(s.r, fd) && StreamInv(e, s, socks) && |socks| == s.m.nextId + 1
    ensures var (ok, t) := SubmitRecv(e, Arrived(s, fd), fd); StreamInv(e, if ok then t else CloseConn(t, fd), socks)
  {
    var c, u := Acquire(s.m, fd).0, Arrived(s, fd);
    AcquireKeeps(e, s, fd);
    ArrivedCtx(e, s, socks, fd);
    ArrivedOthers(e, s, socks, fd);
    SocksFrame(e, s, u, socks);
    NewConnectionKeeps(e, s, fd);
    RearmRecvCalm(e, u, c);
    CalmOnce(e, u, RearmRecv(e, u, fd), c);
    CalmKeeps(e, u, RearmRecv(e, u, fd), socks, c, true);
  }

  lemma RearmStreams(e: Config, s: Server, socks: seq<Sock>)
    requires StreamInv(e, s, socks)
    ensures StreamInv(e, RearmAccept(e, s), socks) && StreamInv(e, RearmNotify(e, s), socks)
  {
    SamePool(e, s, RearmAccept(e, s), socks);
    SamePool(e, s, RearmNotify(e, s), socks);
  }

  lemma ProcessAcceptStreams(e: Config, s: Server, socks: seq<Sock>)
    requires Inv(e, s) && StreamInv(e, s, socks) && |s.r.accepts| > 0 && s.r.accepts[0].AcceptDone?
    requires |socks| == s.m.nextId + (if Landing(s.r) then 1 else 0)
    ensures StreamInv(e, ProcessAccept(e, s, 0), socks)
  {
    var res := s.r.accepts[0].res;
    var s0 := s.(r := s.r.(accepts := []));
    assert RemoveAt(s.r.accepts, 0) == [];
    if res < 0 {
      SamePool(e, s, s0, socks);
      RearmStreams(e, s0, socks);
      assert ProcessAccept(e, s, 0) == RearmAccept(e, s0);
    } else {
      NewConnectionStreams(e, s, socks, res);
      var (ok, u) := SubmitRecv(e, Arrived(s, res), res);
      RearmStreams(e, if ok then u else CloseConn(u, res), socks);
    }
  }

  lemma SwappedStreams(e: Config, s: Server, socks: seq<Sock>)
    requires Settled(e, s) && s.p.resuming == [] && StreamInv(e, s, socks)
    ensures StreamInv(e, HandleNotify(e, s), socks)
  {
    var s1 := s.(p := s.p.(resuming := s.p.ready, ready := []));
    SwapKeeps(e, s);
    SamePool(e, s, s1, socks);
    ResumeAllStreams(e, s1, socks);
  }

  lemma ProcessNotifyStreams(e: Config, s: Server, socks: seq<Sock>)
    requires Inv(e, s) && StreamInv(e, s, socks) && |s.r.notifies| > 0 && s.r.notifies[0].NotifyDone?
    ensures StreamInv(e, ProcessNotify(e, s, 0), socks)
  {
    var s0 := s.(r := s.r.(notifies := RemoveAt(s.r.notifies, 0)));
    ArmsKeep(e, s, s0);
    SamePool(e, s, s0, socks);
    SwappedStreams(e, s0, socks);
    RearmStreams(e, HandleNotify(e, s0), socks);
  }

  // Flushing.

  /** A flush sends every queued operation to the connection's own socket, or to no file. */
  lemma FlushOps(bufs: seq<Bytes>, x: Context, p: Port, q: Port, dead: bool, files: map<int, nat>)
    requires TargetsOk(x, p, dead) && q == FlushPort(files, p)
    requires x.fd in files && !dead ==> files[x.fd] == x.connId
    requires forall k :: 0 <= k < |p.recvs| ==> p.recvs[k].fd == x.fd
    requires forall k :: 0 <= k < |p.sends| ==> p.sends[k].fd == x.fd
    ensures TargetsOk(x, q, dead) && InFlight(q) == InFlight(p) && Arrivals(bufs, q) == Arrivals(bufs, p)
  {
  }

  lemma FlushAllStreams(e: Config, s: Server, socks: seq<Sock>)
    requires Inv(e, s) && StreamInv(e, s, socks)
    ensures StreamInv(e, s.(r := FlushAll(s.r, s.m.os.files)), socks)
  {
    var t := s.(r := FlushAll(s.r, s.m.os.files));
    forall c | 0 <= c < |t.m.conns| && c !in t.m.idle
      ensures StreamCtx(e, t, socks, c)
    {
      assert StreamCtx(e, s, socks, c) && CtxOk(e, s, c);
      FlushCtx(e, s, socks, c);
    }
    SocksFrame(e, s, t, socks);
  }

  lemma FlushCtx(e: Config, s: Server, socks: seq<Sock>, c: nat)
    requires c < |s.m.conns| && c !in s.m.idle && CtxOk(e, s, c) && StreamCtx(e, s, socks, c) && Tables(s.m) && FilesOk(s.m, s.r)
    ensures StreamCtx(e, s.(r := FlushAll(s.r, s.m.os.files)), socks, c)
  {
    var t := s.(r := FlushAll(s.r, s.m.os.files));
    FlushedPort(s, t, c);
    NamesOwn(e, s, c);
    FlushOps(s.r.bufs, s.m.conns[c], PortOf(s.r, c), PortOf(t.r, c), Dead(s.m, c), s.m.os.files);
    FlushedCtx(e, s, t, socks, c);
  }

  lemma FlushedPort(s: Server, t: Server, c: nat)
    requires t == s.(r := FlushAll(s.r, s.m.os.files))
    ensures PortOf(t.r, c) == FlushPort(s.m.os.files, PortOf(s.r, c))
  {
  }

  /** A context's operations name its own descriptor, which names its own socket unless it was closed. */
  lemma NamesOwn(e: Config, s: Server, c: nat)
    requires c < |s.m.conns| && c !in s.m.idle && CtxOk(e, s, c) && Tables(s.m) && FilesOk(s.m, s.r)
    ensures var x, p := s.m.conns[c], PortOf(s.r, c);
      && (x.fd in s.m.os.files && !Dead(s.m, c) ==> s.m.os.files[x.fd] == x.connId)
      && (forall k :: 0 <= k < |p.recvs| ==> p.recvs[k].fd == x.fd)
      && (forall k :: 0 <= k < |p.sends| ==> p.sends[k].fd == x.fd)
  {
  }

  lemma FlushedCtx(e: Config, s: Server, t: Server, socks: seq<Sock>, c: nat)
    requires c < |s.m.conns| && StreamCtx(e, s, socks, c) && t.m == s.m && t.p == s.p && t.delivered == s.delivered
    requires var x, p, q := s.m.conns[c], PortOf(s.r, c), PortOf(t.r, c);
      && TargetsOk(x, q, Dead(s.m, c)) && InFlight(q) == InFlight(p) && Arrivals(t.r.bufs, q) == Arrivals(s.r.bufs, p)
    ensures StreamCtx(e, t, socks, c)
  {
    var x := s.m.conns[c];
    SentSubmit(x, x, PortOf(s.r, c), PortOf(t.r, c), FramesOf(s.p.coros, DeliveredOn(s, x.connId)), socks[x.connId].accepted);
    assert DeliveredOn(t, x.connId) == DeliveredOn(s, x.connId);
  }

  lemma FlushStepStreams(e: Config, s: Server, socks: seq<Sock>)
    requires Inv(e, s) && StreamInv(e, s, socks)
    ensures StreamInv(e, Retry(e, s.(r := FlushAll(s.r, s.m.os.files))), socks)
  {
    FlushAllStreams(e, s, socks);
    SamePool(e, s.(r := FlushAll(s.r, s.m.os.files)), Retry(e, s.(r := FlushAll(s.r, s.m.os.files))), socks);
  }

  lemma LoopStreams(e: Config, w: World, ev: LoopEvent)
    requires RunInv(e, w) && StreamInv(e, w.s, w.socks) && LoopEnabled(w, ev)
    ensures StreamInv(e, LoopNext(e, w, ev).s, w.socks)
  {
    match ev
    case Submit => FlushAllStreams(e, w.s, w.socks);
    case Flush => FlushStepStreams(e, w.s, w.socks);
    case TakeRecv(c, j) => ProcessRecvStreams(e, w.s, w.socks, c, j);
    case TakeSend(c, j) => ProcessSendStreams(e, w.s, w.socks, c, j);
    case TakeAccept => ProcessAcceptStreams(e, w.s, w.socks);
    case TakeNotify => ProcessNotifyStreams(e, w.s, w.socks);
  }
}
