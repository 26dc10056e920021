/** What holds of the reactor between any two completions, and why each handler keeps it. */
module ReactorInvariant {
  import opened ByteStrings
  import opened Wire
  import opened Connections
  import opened Reactor

  // One context and its outstanding operations.

  predicate IsActive(m: Manager, c: nat)
    requires c < |m.conns|
  {
    m.conns[c].fd in m.active && m.active[m.conns[c].fd] == c
  }

  /** The queue holds non-empty frames, and a send in flight points at exactly the unsent rest of its front. */
  ghost predicate QueueOk(x: Context, p: Port) {
    && (forall k :: 0 <= k < |x.outQueue| ==> x.outQueue[k] != [])
    && (if x.outQueue == [] then x.written == 0 && p.sends == [] else x.written < |x.outQueue[0]|)
    && (forall k :: 0 <= k < |p.sends| ==>
          && p.sends[k].fd == x.fd
          && p.sends[k].data == x.outQueue[0][x.written..]
          && (p.sends[k].state.SendDone? ==> p.sends[k].state.res <= |p.sends[k].data|))
  }

  ghost predicate RecvOk(op: RecvOp) {
    && (op.state.RecvDone? && op.state.res > 0 ==> op.state.bid.Some? && op.state.res <= BUF_SIZE)
    && (op.state.RecvDone? && op.state.bid.Some? ==> op.state.bid.value < BUF_RING_ENTRIES)
  }

  ghost predicate RecvsOk(x: Context, p: Port) {
    forall k :: 0 <= k < |p.recvs| ==> p.recvs[k].fd == x.fd && RecvOk(p.recvs[k])
  }

  /** How far the soft limit can be overshot: by what one buffer completes beyond the 256th, given that no request is
      shorter than `least`. */
  ghost predicate PendingOk(g: Registry, n: int) {
    forall least: nat :: least > 0 && NoShorter(g, least) ==> n <= MAX_INFLIGHT_PER_CONN + WholeIn(least, BUF_SIZE - 1)
  }

  /** An active connection: one recv unless paused, one send iff there is something to send. */
  ghost predicate ActiveOk(e: Config, x: Context, p: Port) {
    && !x.closing
    && |p.recvs| == (if x.readPaused then 0 else 1)
    && |p.sends| == (if x.sending then 1 else 0)
    && x.inflight == |p.recvs| + |p.sends|
    && (x.sending <==> x.outQueue != [])
    && QueueOk(x, p) && RecvsOk(x, p)
    && (x.readPaused <==> x.pendingReqs >= MAX_INFLIGHT_PER_CONN)
    && PendingOk(e.registry, x.pendingReqs)
    && TryParse(e.registry, x.input).NeedMore?
  }

  /** A closed connection that is not yet in the pool waits for exactly one completion. */
  ghost predicate DrainingOk(x: Context, p: Port) {
    && x.closing
    && x.inflight == |p.recvs| + |p.sends| == 1
    && QueueOk(x, p) && RecvsOk(x, p)
  }

  predicate IsUnresumed(k: Coro, i: nat) {
    k.connId == i && !k.state.Resumed?
  }

  predicate IsDropped(k: Coro, i: nat) {
    k.connId == i && k.state.Resumed? && k.frame == []
  }

  function Unresumed(coros: seq<Coro>, i: nat): nat {
    if coros == [] then 0
    else Unresumed(coros[..|coros| - 1], i) + if IsUnresumed(coros[|coros| - 1], i) then 1 else 0
  }

  /** Responses that failed to serialise on connection generation i: resumed with an empty frame. */
  function Dropped(coros: seq<Coro>, i: nat): nat {
    if coros == [] then 0
    else Dropped(coros[..|coros| - 1], i) + if IsDropped(coros[|coros| - 1], i) then 1 else 0
  }

  ghost predicate CountOk(p: Pool, x: Context) {
    x.pendingReqs == Unresumed(p.coros, x.connId) + |x.outQueue| + Dropped(p.coros, x.connId)
  }

  ghost predicate CtxOk(e: Config, s: Server, c: nat)
    requires c < |s.m.conns|
  {
    var x, p := s.m.conns[c], PortOf(s.r, c);
    if c in s.m.idle then p == NO_OPS && x.inflight == 0
    else if IsActive(s.m, c) then ActiveOk(e, x, p) && CountOk(s.p, x)
    else DrainingOk(x, p)
  }

  /** Every context but the one a handler is working on. */
  ghost predicate Others(e: Config, s: Server, f: int) {
    forall c :: 0 <= c < |s.m.conns| && c != f ==> CtxOk(e, s, c)
  }

  // The tables.

  ghost predicate Tables(m: Manager) {
    && Wf(m)
    && (forall fd :: fd in m.active ==> m.conns[m.active[fd]].fd == fd)
    && (forall fd :: fd in m.active ==> m.active[fd] !in m.idle)
    && NoDup(m.idle)
    && m.nextId >= 1
    && (forall c :: 0 <= c < |m.conns| ==> m.conns[c].connId < m.nextId)
    && (forall c :: 0 <= c < |m.conns| && c !in m.idle ==> m.conns[c].connId >= 1)
    && (forall c, d :: 0 <= c < d < |m.conns| && c !in m.idle && d !in m.idle ==>
          m.conns[c].connId != m.conns[d].connId)
  }

  predicate Arriving(r: Ring, fd: int) {
    |r.accepts| == 1 && r.accepts[0] == AcceptDone(fd) && fd >= 0
  }

  /** An open descriptor belongs to an active connection or to an accept not yet handled; no socket is closed twice. */
  ghost predicate FilesOk(m: Manager, r: Ring)
    requires Wf(m)
  {
    && (forall fd :: fd in m.active ==> fd in m.os.files && m.os.files[fd] == m.conns[m.active[fd]].connId)
    && (forall fd :: fd in m.os.files ==> fd in m.active || Arriving(r, fd))
    && (forall fd :: Arriving(r, fd) ==> fd in m.os.files && m.os.files[fd] == m.nextId && fd !in m.active)
    && (forall k :: 0 <= k < |m.os.closed| ==> m.os.closed[k] < m.nextId)
    && NoDup(m.os.closed)
    && (forall fd :: fd in m.active ==> m.conns[m.active[fd]].connId !in m.os.closed)
    && m.os.badCloses == 0
  }

  function Holds(ops: seq<RecvOp>, b: nat): nat {
    if ops == [] then 0
    else Holds(ops[1..], b) + if ops[0].state.RecvDone? && ops[0].state.bid == Some(b) then 1 else 0
  }

  /** How many completions posted on the first n contexts carry buffer b. */
  function Held(r: Ring, n: nat, b: nat): nat {
    if n == 0 then 0 else Held(r, n - 1, b) + Holds(PortOf(r, n - 1).recvs, b)
  }

  /** Every provided buffer is either in the ring or in exactly one posted completion. */
  ghost predicate BufsOk(s: Server) {
    && |s.r.bufs| == BUF_RING_ENTRIES
    && (forall b :: 0 <= b < BUF_RING_ENTRIES ==> |s.r.bufs[b]| == BUF_SIZE)
    && (forall c :: c in s.r.ports ==> c < |s.m.conns|)
    && (forall b: nat :: b < BUF_RING_ENTRIES ==> s.r.free[b] + Held(s.r, |s.m.conns|, b) == 1)
  }

  // Coroutines.

  ghost predicate FrameOk(k: Coro) {
    match k.state
    case Waiting => k.frame == [] && k.result == None
    case Running => k.frame == [] && k.result == None
    case _ => k.frame == if k.result.Some? then ResponseFrame(k.request.requestId, k.result.value) else []
  }

  /** Tasks leave the queue in the order the requests were dispatched, each exactly once. */
  ghost predicate TasksOk(p: Pool) {
    && |p.tasks| <= |p.coros|
    && (forall k :: 0 <= k < |p.tasks| ==> p.tasks[k] == |p.coros| - |p.tasks| + k)
    && (forall co :: 0 <= co < |p.coros| ==> (p.coros[co].state.Waiting? <==> co >= |p.coros| - |p.tasks|))
  }

  /** The coroutines to resume, each listed once: those already swapped out, then those still in the shared list. */
  function Due(p: Pool): seq<nat> {
    p.resuming + p.ready
  }

  ghost predicate ReadyOk(p: Pool) {
    && PoolWf(p)
    && NoDup(Due(p))
    && (forall k :: 0 <= k < |Due(p)| ==> p.coros[Due(p)[k]].state.Ready?)
    && (forall co :: 0 <= co < |p.coros| && p.coros[co].state.Ready? ==> co in Due(p))
  }

  ghost predicate CorosOk(s: Server) {
    && TasksOk(s.p) && ReadyOk(s.p)
    && (forall co, c ::
          0 <= co < |s.p.coros| && 0 <= c < |s.m.conns| && c !in s.m.idle && s.m.conns[c].connId == s.p.coros[co].connId ==>
          s.m.conns[c].fd == s.p.coros[co].fd)
    && (forall co :: 0 <= co < |s.p.coros| ==> FrameOk(s.p.coros[co]) && 1 <= s.p.coros[co].connId < s.m.nextId)
  }

  ghost predicate DeliveredTo(p: Pool, i: nat, ids: seq<nat>) {
    && NoDup(ids)
    && (forall k :: 0 <= k < |ids| ==>
          && ids[k] < |p.coros| && p.coros[ids[k]].connId == i
          && p.coros[ids[k]].state.Resumed? && p.coros[ids[k]].frame != [])
  }

  /** No cross-talk: what generation i queued are distinct resumed coroutines that generation i dispatched. */
  ghost predicate DeliveryOk(s: Server) {
    && (forall i :: i in s.delivered ==> i < s.m.nextId)
    && (forall i :: i in s.delivered ==> DeliveredTo(s.p, i, s.delivered[i]))
  }

  ghost predicate Base(s: Server) {
    Tables(s.m) && FilesOk(s.m, s.r) && BufsOk(s) && CorosOk(s) && DeliveryOk(s)
  }

  /** Accepting and waking up never stop: the operation is in the ring or marked to be retried. */
  ghost predicate Armed(s: Server) {
    && |s.r.accepts| == (if s.acceptPending then 0 else 1)
    && |s.r.notifies| == (if s.notifyPending then 0 else 1)
  }

  ghost predicate Inv(e: Config, s: Server) {
    Base(s) && Others(e, s, -1) && Armed(s) && s.p.resuming == []
  }
}
