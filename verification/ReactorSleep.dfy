/**
  When the event loop sleeps although a coroutine is ready.

  The loop waits in io_uring_submit_and_wait until some completion is posted, and retries a notify read that found no
  ring entry only after that. While no read of the eventfd is armed, a worker's write to it wakes nobody.
 */
module ReactorSleep {
  import opened ByteStrings
  import opened Wire
  import opened Connections
  import opened Reactor
  import opened ReactorRun
  import opened ReactorInvariant
  import opened ReactorSafety
  import opened ReactorFeed
  import opened ReactorDrops
  import opened ReactorOvershoot
  import ReactorAnswer

  /** Nothing that comes from a peer: no connection, no data, no room to send, no failure of a socket. */
  predicate NoPeer(ev: Event) {
    ev.Kernel? ==> ev.k.NotifyRead? || ev.k.NotifySpurious?
  }

  /** The loop waits for a completion, and no read of the eventfd is armed. */
  ghost predicate Dozing(w: World) {
    !Posted(w.s.r) && w.s.notifyPending
  }

  lemma FlushPosts(r: Ring, files: map<int, nat>)
    requires !Posted(r)
    ensures !Posted(FlushAll(r, files))
  {
    var t := FlushAll(r, files);
    forall c | c in t.ports
      ensures !PortPosted(t.ports[c])
    {
      assert !PortPosted(r.ports[c]);
    }
  }

  /** All that the loop can do without a completion is to submit and wait. */
  lemma LoopNeedsPosted(w: World, ev: LoopEvent)
    requires LoopEnabled(w, ev)
    ensures ev == Submit || Posted(w.s.r)
  {
    match ev
    case Submit =>
    case Flush =>
    case TakeRecv(c, j) => assert PortPosted(w.s.r.ports[c]);
    case TakeSend(c, j) => assert PortPosted(w.s.r.ports[c]);
    case TakeAccept =>
    case TakeNotify =>
  }

  lemma StepDozes(e: Config, w: World, ev: Event, v: World)
    requires RunInv(e, w) && Dozing(w) && Step(e, w, ev, v) && NoPeer(ev)
    ensures Dozing(v) && w.s.p.ready <= v.s.p.ready
  {
    match ev
    case Kernel(k) =>
    case Loop(l) =>
      LoopNeedsPosted(w, l);
      FlushPosts(w.s.r, w.s.m.os.files);
    case Worker(y) => WorkerDozes(w, y);
  }

  lemma WorkerDozes(w: World, ev: WorkerEvent)
    requires PoolWf(w.s.p) && Dozing(w) && WorkerEnabled(w, ev)
    ensures Dozing(WorkerNext(w, ev)) && w.s.p.ready <= WorkerNext(w, ev).s.p.ready
  {
    assert WorkerNext(w, ev).s.r == w.s.r;
  }

  lemma {:induction false} DozesOn(e: Config, evs: seq<Event>, w: World, v: World)
    requires RunInv(e, w) && Dozing(w) && Continues(e, NoPeer, evs, w, v)
    ensures RunInv(e, v) && Dozing(v) && w.s.p.ready <= v.s.p.ready
    decreases |evs|
  {
    if evs != [] {
      var u :| ContinuesVia(e, NoPeer, evs, w, u, v);
      DozesOn(e, evs[..|evs| - 1], w, u);
      StepDozes(e, u, evs[|evs| - 1], v);
      AfterStep(e, u, evs[|evs| - 1], v);
    }
  }

  /** With the read armed, the eventfd is written if it has not been, read, and the ready list emptied. */
  lemma ReadyTaken(e: Config, evs: seq<Event>, w: World, u: World) returns (all: seq<Event>, v: World)
    requires Continues(e, NoPeer, evs, w, u) && RunInv(e, u)
    requires !u.stopped && u.s.r.notifies == [NotifyWaiting] && u.eventfd > 0
    ensures Continues(e, NoPeer, all, w, v) && v.s.p.ready == []
  {
    var u1 := u.(s := NotifyPosted(u.s), eventfd := 0);
    NotifyPostedKeeps(e, u);
    OneMore(e, NoPeer, evs, w, u, Kernel(NotifyRead), u1);
    v := u1.(s := ProcessNotify(e, u1.s, 0));
    ReactorAnswer.NotifyStep(e, u1, v.s);
    NotifyPool(e, u1.s);
    OneMore(e, NoPeer, evs + [Kernel(NotifyRead)], w, u1, Loop(TakeNotify), v);
    all := evs + [Kernel(NotifyRead)] + [Loop(TakeNotify)];
  }

  lemma OnlyWaiting(q: seq<NotifyOp>)
    requires |q| == 1 && NotifyDone !in q
    ensures q == [NotifyWaiting]
  {
    assert q[0] in q;
    assert q[0] == NotifyWaiting;
    assert q == [q[0]];
  }

  /** With the eventfd read armed, workers, kernel and loop bring it about between them that all is resumed. */
  lemma WakesFrom(e: Config, before: seq<Event>, start: World, w: World) returns (evs: seq<Event>, v: World)
    requires Continues(e, NoPeer, before, start, w) && RunInv(e, w)
    requires !w.stopped && w.s.p.ready != [] && w.s.r.notifies == [NotifyWaiting]
    ensures Continues(e, NoPeer, evs, start, v) && v.s.p.ready == []
  {
    if w.eventfd > 0 {
      evs, v := ReadyTaken(e, before, start, w);
    } else {
      var u := w.(unsignalled := w.unsignalled - 1, busy := w.busy - 1, eventfd := w.eventfd + 1);
      StepKeeps(e, w, Worker(WriteEventfd));
      OneMore(e, NoPeer, before, start, w, Worker(WriteEventfd), u);
      evs, v := ReadyTaken(e, before + [Worker(WriteEventfd)], start, u);
    }
  }

  /** While the loop waits and coroutines are ready, they are left until some peer acts exactly when the notify read is
      not armed but only marked pending: otherwise the workers and the kernel alone can bring the loop to resume them. */
  lemma SleepsExactly(e: Config, w: World)
    requires Reachable(e, w) && !w.stopped && w.s.p.ready != [] && !Posted(w.s.r)
    ensures (forall evs, v :: Continues(e, NoPeer, evs, w, v) ==> w.s.p.ready <= v.s.p.ready) <==> w.s.notifyPending
  {
    ReachableOk(e, w);
    if w.s.notifyPending {
      forall evs, v | Continues(e, NoPeer, evs, w, v)
        ensures w.s.p.ready <= v.s.p.ready
      {
        DozesOn(e, evs, w, v);
      }
    } else {
      OnlyWaiting(w.s.r.notifies);
      var evs, v := WakesFrom(e, [], w, w);
      assert Continues(e, NoPeer, evs, w, v);
    }
  }

  // How it ends.

  /** An operation that was armed stays as it was; one that was marked pending is waiting in the ring, or still marked if
      no entry was free for it. */
  lemma FlushRearms(e: Config, w: World)
    requires Reachable(e, w) && Wf(w.s.m) && PoolWf(w.s.p) && LoopEnabled(w, Flush)
    ensures var s, t, u := w.s, LoopNext(e, w, Flush).s, LoopNext(e, w, Submit).s;
      var first, second := e.sqe(s.r.calls), e.sqe(s.r.calls + if s.acceptPending then 1 else 0);
      && t.m == u.m && t.p == u.p && t.r.ports == u.r.ports && t.r.free == u.r.free && t.r.bufs == u.r.bufs
      && t.r.accepts == (if s.acceptPending && first then [AcceptWaiting] else s.r.accepts)
      && t.acceptPending == (s.acceptPending && !first)
      && t.r.notifies == (if s.notifyPending && second then [NotifyWaiting] else s.r.notifies)
      && t.notifyPending == (s.notifyPending && !second)
  {
    ReachableOk(e, w);
    assert [] + [AcceptWaiting] == [AcceptWaiting] && [] + [NotifyWaiting] == [NotifyWaiting];
  }

  /** With entries free, accepting and waking up are armed after every wait that ended: nothing stays pending. */
  lemma FlushArmsAll(e: Config, w: World)
    requires Reachable(e, w) && Wf(w.s.m) && PoolWf(w.s.p) && LoopEnabled(w, Flush)
    requires e.sqe(w.s.r.calls) && e.sqe(w.s.r.calls + 1)
    ensures var t := LoopNext(e, w, Flush).s;
      && !t.acceptPending && !t.notifyPending && |t.r.accepts| == 1 && |t.r.notifies| == 1
      && (w.s.acceptPending ==> t.r.accepts == [AcceptWaiting]) && (w.s.notifyPending ==> t.r.notifies == [NotifyWaiting])
  {
    ReachableOk(e, w);
    FlushRearms(e, w);
  }

  lemma WakesAfterWait(e: Config, w: World) returns (evs: seq<Event>, v: World)
    requires Reachable(e, w) && !w.stopped && w.s.p.ready != [] && Posted(w.s.r) && w.s.notifyPending
    requires e.sqe(w.s.r.calls + if w.s.acceptPending then 1 else 0)
    ensures Continues(e, NoPeer, evs, w, v) && v.s.p.ready == []
  {
    ReachableOk(e, w);
    FlushRearms(e, w);
    var u := w.(s := LoopNext(e, w, Flush).s);
    StepKeeps(e, w, Loop(Flush));
    OneMore(e, NoPeer, [], w, w, Loop(Flush), u);
    evs, v := WakesFrom(e, [] + [Loop(Flush)], w, u);
  }

  lemma WakesNow(e: Config, w: World) returns (evs: seq<Event>, v: World)
    requires RunInv(e, w) && !w.stopped && NotifyDone in w.s.r.notifies
    ensures Continues(e, NoPeer, evs, w, v) && v.s.p.ready == []
  {
    OnlyDone(w.s.r.notifies);
    v := w.(s := ProcessNotify(e, w.s, 0));
    ReactorAnswer.NotifyStep(e, w, v.s);
    NotifyPool(e, w.s);
    OneMore(e, NoPeer, [], w, w, Loop(TakeNotify), v);
    evs := [] + [Loop(TakeNotify)];
  }

  lemma OnlyDone(q: seq<NotifyOp>)
    requires |q| <= 1 && NotifyDone in q
    ensures q == [NotifyDone]
  {
  }

  /** Ready coroutines can be resumed without any peer acting, given an entry for a notify read that is pending, exactly
      when some completion is posted or the notify read is not pending: one completion of any kind ends the sleep. */
  lemma WakesIff(e: Config, w: World)
    requires Reachable(e, w) && !w.stopped && w.s.p.ready != []
    requires w.s.notifyPending ==> e.sqe(w.s.r.calls + if w.s.acceptPending then 1 else 0)
    ensures (exists evs, v :: Continues(e, NoPeer, evs, w, v) && v.s.p.ready == []) <==> Posted(w.s.r) || !w.s.notifyPending
  {
    ReachableOk(e, w);
    if Dozing(w) {
      forall evs, v | Continues(e, NoPeer, evs, w, v)
        ensures v.s.p.ready != []
      {
        DozesOn(e, evs, w, v);
      }
    } else {
      var evs, v := CanWake(e, w);
      assert Continues(e, NoPeer, evs, w, v);
    }
  }

  lemma CanWake(e: Config, w: World) returns (evs: seq<Event>, v: World)
    requires Reachable(e, w) && !w.stopped && w.s.p.ready != [] && !Dozing(w)
    requires w.s.notifyPending ==> e.sqe(w.s.r.calls + if w.s.acceptPending then 1 else 0)
    ensures Continues(e, NoPeer, evs, w, v) && v.s.p.ready == []
  {
    ReachableOk(e, w);
    if w.s.notifyPending {
      evs, v := WakesAfterWait(e, w);
    } else if NotifyDone in w.s.r.notifies {
      evs, v := WakesNow(e, w);
    } else {
      OnlyWaiting(w.s.r.notifies);
      evs, v := WakesFrom(e, [], w, w);
    }
  }

  // It happens.

  /** An open connection with nothing to send, the loop waiting for it, and a coroutine ready that nobody resumes. */
  ghost predicate Overslept(e: Config, w: World) {
    && Reachable(e, w) && w.clean && !w.stopped && Dozing(w)
    && |w.s.m.conns| == 1 && IsActive(w.s.m, 0) && w.s.p.ready == [1]
  }

  lemma FedOversleeps(e: Config, w: World, ms: seq<Request>, input: Bytes, received: Bytes,
                      free: multiset<nat>, bufs: seq<Bytes>, calls: nat) returns (w': World)
    requires |ms| >= 2 && !e.sqe(calls)
    requires Reachable(e, w) && w == Fed(ms, input, received, Socket(1), free, bufs, calls)
    ensures Overslept(e, w')
  {
    TasksPart(ms);
    OneDropped(e, w, ms, 0, 0);
    var w1 := w.(s := w.s.(p := Part(ms, 0, 1)), eventfd := w.eventfd + 1);
    WakesUp(e, w1, ms, 0, 1);
    var w2 := w1.(s := Woken(e, w1.s, ms, 1), eventfd := 0);
    OneDropped(e, w2, ms, 1, 1);
    w' := w2.(s := w2.s.(p := Part(ms, 1, 2)), eventfd := w2.eventfd + 1);
    NothingPosted(w'.s.r);
  }

  lemma NothingPosted(r: Ring)
    requires r.ports == map[0 := Receiving(Socket(1))] && r.accepts == [AcceptWaiting] && r.notifies == []
    ensures !Posted(r)
  {
  }

  /** For any provider and any message it accepts: sent twice, with no response that serialises, and the ring full when
      the first of the two wakes the loop. */
  lemma SleepReached(g: Registry, wh: Header -> Bytes, m: Request) returns (e: Config, w: World)
    requires Lawful(g, wh) && Fits(wh, m) && Accepted(g, wh, m)
    ensures e.registry == g && Overslept(e, w)
  {
    var size := |RequestFrame(wh, m)|;
    var s := Stream(wh, m, 2 * size + 1);
    WholeInPlus(size, 2, 0);
    DrainOfCut(g, wh, m, s, 2 * size + 1, 2 * size);
    var received := s[..2 * size];
    var d := Drain(g, received);
    e := Config(g, (k: nat) => k != CallsFor(received));
    FeedAll(e, received);
    var free: multiset<nat>, bufs: seq<Bytes> :| FedVia(e, d, received, free, bufs);
    w := FedOversleeps(e, Fed(d.requests, d.rest, received, Socket(1), free, bufs, CallsFor(received)),
                       d.requests, d.rest, received, free, bufs, CallsFor(received));
  }
}
