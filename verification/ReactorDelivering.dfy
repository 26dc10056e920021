/** What a wakeup does for every open connection, told by its fields: each response that is ready joins the queue of its own
    connection, in order, and sending starts where it was not under way. */
module ReactorDelivering {
  import opened ByteStrings
  import opened Connections
  import opened Reactor
  import opened ReactorRun
  import opened ReactorInvariant
  import opened ReactorPrimitives
  import opened ReactorCoroutines
  import opened ReactorHandlers
  import opened ReactorProcess
  import opened ReactorSafety
  import opened ReactorLocality
  import opened ReactorStreamSteps
  import opened ReactorSending
  import opened ReactorSplit

  /** What a coroutine has for connection generation i. */
  function FrameFor(k: Coro, i: nat): seq<Bytes> {
    if k.connId == i && k.frame != [] then [k.frame] else []
  }

  /** The frames that the listed coroutines have for connection generation i, in the list's order. */
  function FramesFor(coros: seq<Coro>, ids: seq<nat>, i: nat): seq<Bytes>
    requires forall k :: 0 <= k < |ids| ==> ids[k] < |coros|
  {
    if ids == [] then [] else FrameFor(coros[ids[0]], i) + FramesFor(coros, ids[1..], i)
  }

  /** Open connection x with operations p has got these frames behind its queue. */
  ghost predicate Got(t: Server, c: nat, x: Context, p: Port, frames: seq<Bytes>) {
    var queue := x.outQueue + frames;
    if frames == [] then Became(t, c, x, p)
    else if p.sends != [] then Became(t, c, x.(outQueue := queue), p)
    else
      Became(t, c, x.(outQueue := queue, sending := true, inflight := x.inflight + 1),
             Port(p.recvs, [SendOp(x.fd, queue[0], SendWaiting(Queued))]))
  }

  /** One send exactly while there is something to send; nothing of an empty queue has been written. */
  predicate Sends(x: Context, p: Port) {
    (p.sends == [] <==> x.outQueue == []) && (x.sending <==> p.sends != []) && (x.outQueue == [] ==> x.written == 0)
  }

  lemma GotMore(t: Server, u: Server, c: nat, x: Context, p: Port, f: seq<Bytes>, rest: seq<Bytes>)
    requires Sends(x, p) && Got(t, c, x, p, f) && Got(u, c, t.m.conns[c], PortOf(t.r, c), rest)
    ensures Got(u, c, x, p, f + rest)
  {
    assert f + [] == f && [] + rest == rest;
    assert x.outQueue + f + rest == x.outQueue + (f + rest);
  }

  lemma FrameGot(e: Config, s: Server, c: nat, co: nat)
    requires Hosted(s.m, c) && FilesOk(s.m, s.r) && co < |s.p.coros| && e.sqe(s.r.calls) && Sends(s.m.conns[c], PortOf(s.r, c))
    requires s.p.coros[co].fd == s.m.conns[c].fd && s.p.coros[co].connId == s.m.conns[c].connId && s.p.coros[co].frame != []
    ensures Got(DeliverResponse(e, s, co), c, s.m.conns[c], PortOf(s.r, c), [s.p.coros[co].frame])
  {
    var x, u, frame := s.m.conns[c], WithFrame(s, c, co), s.p.coros[co].frame;
    DeliverIs(e, s, c, co);
    TouchTables(s.m, s.r, c, u.m.conns[c]);
    if !x.sending {
      SubmitSendEffect(e, u, c);
      assert frame[0..] == frame && [] + [frame] == [frame];
    }
  }

  lemma DeliverCalls(e: Config, s: Server, co: nat)
    requires Wf(s.m) && co < |s.p.coros|
    ensures DeliverResponse(e, s, co).r.calls >= s.r.calls
  {
  }

  lemma OtherGot(e: Config, s: Server, c: nat, d: nat, co: nat)
    requires Hosted(s.m, d) && c != d && c < |s.m.conns| && IsActive(s.m, c) && co < |s.p.coros|
    requires var x, k := s.m.conns[d], s.p.coros[co];
      && k.fd == x.fd && k.connId == x.connId && k.frame != []
      && (if x.outQueue == [] then x.written == 0 else x.written < |x.outQueue[0]|)
    ensures Became(DeliverResponse(e, s, co), c, s.m.conns[c], PortOf(s.r, c))
  {
    DeliverCalm(e, s, d, co);
    var u := WithFrame(s, d, co);
    assert u.m.conns[c] == s.m.conns[c] && u.r == s.r && IsActive(u.m, c);
  }

  lemma RoutedGot(e: Config, s: Server, c: nat, d: nat, co: nat)
    requires Base(s) && co < |s.p.coros| && e.sqe(s.r.calls) && c < |s.m.conns| && IsActive(s.m, c) && Sends(s.m.conns[c], PortOf(s.r, c))
    requires s.p.coros[co].fd in s.m.active && d == s.m.active[s.p.coros[co].fd]
    requires var x, k := s.m.conns[d], s.p.coros[co];
      && k.connId == x.connId && k.frame != [] && (if x.outQueue == [] then x.written == 0 else x.written < |x.outQueue[0]|)
    ensures Got(DeliverResponse(e, s, co), c, s.m.conns[c], PortOf(s.r, c), FrameFor(s.p.coros[co], s.m.conns[c].connId))
  {
    if d == c {
      FrameGot(e, s, c, co);
    } else {
      OtherGot(e, s, c, d, co);
    }
  }

  /** What resuming the first coroutine does for connection c. */
  lemma FirstGot(e: Config, s: Server, c: nat)
    requires Settled(e, s) && s.p.resuming != [] && e.sqe(s.r.calls) && c < |s.m.conns| && IsActive(s.m, c)
    requires s.p.resuming[0] < |s.p.coros|
    ensures ResumeFirst(e, s).r.calls >= s.r.calls
    ensures Got(ResumeFirst(e, s), c, s.m.conns[c], PortOf(s.r, c), FrameFor(s.p.coros[s.p.resuming[0]], s.m.conns[c].connId))
  {
    var co := s.p.resuming[0];
    var k, s1 := s.p.coros[co], MarkFirst(s);
    SendsOk(e, s, c);
    ResumeFirstIs(e, s);
    if k.frame == [] || !Routed(s, k) {
      NotOwn(s, c, k);
    } else {
      var d := s.m.active[k.fd];
      SendsOk(e, s, d);
      RoutedQueue(e, s, d);
      DeliverCalls(e, s1, co);
      MarkBase(s);
      RoutedGot(e, s1, c, d, co);
    }
  }

  lemma ResumeFirstIs(e: Config, s: Server)
    requires Wf(s.m) && PoolWf(s.p) && s.p.resuming != []
    ensures var co, s1 := s.p.resuming[0], MarkFirst(s);
      && s1.m == s.m && s1.r == s.r && |s1.p.coros| == |s.p.coros|
      && s1.p.coros[co].fd == s.p.coros[co].fd && s1.p.coros[co].connId == s.p.coros[co].connId
      && s1.p.coros[co].frame == s.p.coros[co].frame
      && ResumeFirst(e, s) == if s.p.coros[co].frame == [] || !Routed(s, s.p.coros[co]) then s1 else DeliverResponse(e, s1, co)
  {
  }

  lemma RoutedQueue(e: Config, s: Server, d: nat)
    requires Settled(e, s) && d < |s.m.conns| && IsActive(s.m, d)
    ensures s.m.conns[d].outQueue != [] ==> s.m.conns[d].written < |s.m.conns[d].outQueue[0]|
  {
    assert CtxOk(e, s, d);
  }

  lemma MarkBase(s: Server)
    requires Base(s) && s.p.resuming != []
    ensures Base(MarkFirst(s))
  {
    MarkCoros(s);
    BufsFrame(s, MarkFirst(s));
  }

  /** A coroutine of an open connection finds it. */
  lemma NotOwn(s: Server, c: nat, k: Coro)
    requires Base(s) && k in s.p.coros && c < |s.m.conns| && IsActive(s.m, c) && (k.frame == [] || !Routed(s, k))
    ensures FrameFor(k, s.m.conns[c].connId) == []
  {
    var co :| 0 <= co < |s.p.coros| && s.p.coros[co] == k;
  }

  /** Resuming changes no coroutine but in its state. */
  lemma {:induction false} SameFrames(coros: seq<Coro>, coros': seq<Coro>, ids: seq<nat>, i: nat)
    requires |coros'| == |coros| && forall k :: 0 <= k < |ids| ==> ids[k] < |coros|
    requires forall k :: 0 <= k < |coros| ==> coros'[k].connId == coros[k].connId && coros'[k].frame == coros[k].frame
    ensures FramesFor(coros', ids, i) == FramesFor(coros, ids, i)
  {
    if ids != [] {
      SameFrames(coros, coros', ids[1..], i);
    }
  }

  lemma {:induction false} AllGot(e: Config, s: Server, c: nat)
    requires Settled(e, s) && RoomAfter(e, s.r.calls) && c < |s.m.conns| && IsActive(s.m, c) && PoolWf(s.p)
    ensures Got(ResumeAll(e, s), c, s.m.conns[c], PortOf(s.r, c), FramesFor(s.p.coros, s.p.resuming, s.m.conns[c].connId))
    ensures ResumeAll(e, s).r.calls >= s.r.calls
    decreases |s.p.resuming|
  {
    if s.p.resuming != [] {
      var t, x, p, f := ResumeFirst(e, s), s.m.conns[c], PortOf(s.r, c), FrameFor(s.p.coros[s.p.resuming[0]], s.m.conns[c].connId);
      FirstGot(e, s, c);
      SendsOk(e, s, c);
      ResumeFirstKeeps(e, s);
      GotActive(t, c, x, p, f);
      AllGot(e, t, c);
      FirstFrames(e, s);
      SameFrames(s.p.coros, t.p.coros, s.p.resuming[1..], x.connId);
      GotMore(t, ResumeAll(e, t), c, x, p, f, FramesFor(s.p.coros, s.p.resuming[1..], x.connId));
    }
  }

  lemma GotActive(t: Server, c: nat, x: Context, p: Port, frames: seq<Bytes>)
    requires Got(t, c, x, p, frames)
    ensures c < |t.m.conns| && IsActive(t.m, c) && t.m.conns[c].connId == x.connId
  {
  }

  lemma SendsOk(e: Config, s: Server, c: nat)
    requires Settled(e, s) && c < |s.m.conns| && IsActive(s.m, c)
    ensures Sends(s.m.conns[c], PortOf(s.r, c))
  {
    assert CtxOk(e, s, c);
  }

  lemma FirstFrames(e: Config, s: Server)
    requires Wf(s.m) && PoolWf(s.p) && s.p.resuming != []
    ensures var t := ResumeFirst(e, s);
      && |t.p.coros| == |s.p.coros| && t.p.resuming == s.p.resuming[1..]
      && forall k :: 0 <= k < |s.p.coros| ==> t.p.coros[k].connId == s.p.coros[k].connId && t.p.coros[k].frame == s.p.coros[k].frame
  {
  }

  /** A wakeup, in every reachable world, with entries free: every open connection has at the end of its queue the frames
      that were ready for it, in the order in which they became ready, and is sending if it has any; nothing else of it
      changed; the ready list is empty and the next wakeup armed. */
  lemma NotifyCompletes(e: Config, w: World, c: nat)
    requires Reachable(e, w) && Wf(w.s.m) && PoolWf(w.s.p) && LoopEnabled(w, TakeNotify) && RoomAfter(e, w.s.r.calls)
    requires c < |w.s.m.conns| && IsActive(w.s.m, c)
    ensures var t := LoopNext(e, w, TakeNotify).s;
      && Got(t, c, w.s.m.conns[c], PortOf(w.s.r, c), FramesFor(w.s.p.coros, w.s.p.ready, w.s.m.conns[c].connId))
      && t.p.ready == [] && t.r.notifies == [NotifyWaiting] && !t.notifyPending
  {
    ReachableOk(e, w);
    NotifyPool(e, w.s);
    NotifyGot(e, w.s, LoopNext(e, w, TakeNotify).s, c);
  }

  lemma NotifyGot(e: Config, s: Server, t: Server, c: nat)
    requires Inv(e, s) && s.r.notifies == [NotifyDone] && RoomAfter(e, s.r.calls) && c < |s.m.conns| && IsActive(s.m, c)
    requires t == ProcessNotify(e, s, 0)
    ensures Got(t, c, s.m.conns[c], PortOf(s.r, c), FramesFor(s.p.coros, s.p.ready, s.m.conns[c].connId))
    ensures t.r.notifies == [NotifyWaiting] && !t.notifyPending
  {
    var s0 := s.(r := s.r.(notifies := []));
    assert RemoveAt(s.r.notifies, 0) == [];
    ArmsKeep(e, s, s0);
    HandleGot(e, s0, c);
    RearmedNotify(e, HandleNotify(e, s0), c, s.m.conns[c], PortOf(s.r, c),
                  FramesFor(s.p.coros, s.p.ready, s.m.conns[c].connId));
  }

  lemma HandleGot(e: Config, s: Server, c: nat)
    requires Settled(e, s) && s.p.resuming == [] && RoomAfter(e, s.r.calls) && c < |s.m.conns| && IsActive(s.m, c) && PoolWf(s.p)
    ensures var t := HandleNotify(e, s);
      && Got(t, c, s.m.conns[c], PortOf(s.r, c), FramesFor(s.p.coros, s.p.ready, s.m.conns[c].connId))
      && t.r.calls >= s.r.calls && t.r.notifies == s.r.notifies && t.notifyPending == s.notifyPending
  {
    SwapKeeps(e, s);
    AllGot(e, s.(p := s.p.(resuming := s.p.ready, ready := [])), c);
  }

  lemma RearmedNotify(e: Config, s: Server, c: nat, x: Context, p: Port, frames: seq<Bytes>)
    requires Got(s, c, x, p, frames) && s.r.notifies == [] && e.sqe(s.r.calls) && !s.notifyPending
    ensures var t := RearmNotify(e, s); Got(t, c, x, p, frames) && t.r.notifies == [NotifyWaiting] && !t.notifyPending
  {
  }
}
