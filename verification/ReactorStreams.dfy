/**
  The byte streams of each connection: what the kernel took equals what was queued, in order; what was dispatched
  is what the received bytes parse to.

  This needs one thing the reactor cannot ensure by itself: an accept must not return a descriptor that an entry
  still in the submission queue names. `clean` records that no accept so far did.
 */
module ReactorStreams {
  import opened ByteStrings
  import opened Wire
  import opened Connections
  import opened Reactor
  import opened ReactorRun
  import opened ReactorInvariant
  import opened ReactorLocality

  function FrameAt(coros: seq<Coro>, id: nat): Bytes {
    if id < |coros| then coros[id].frame else []
  }

  /** The frames that the listed coroutines delivered. */
  function FramesOf(coros: seq<Coro>, ids: seq<nat>): (r: seq<Bytes>)
    ensures |r| == |ids|
    ensures forall k :: 0 <= k < |ids| ==> r[k] == FrameAt(coros, ids[k])
  {
    if ids == [] then [] else [FrameAt(coros, ids[0])] + FramesOf(coros, ids[1..])
  }

  /** The requests that generation i dispatched, in order. */
  function RequestsOf(coros: seq<Coro>, i: nat): seq<Request> {
    if coros == [] then []
    else
      var k := coros[|coros| - 1];
      RequestsOf(coros[..|coros| - 1], i) + if k.connId == i then [k.request] else []
  }

  // One connection.

  /** An operation handed to the kernel goes to the connection's own socket; one still queued under a closed
      descriptor finds no file. */
  predicate TargetOk(t: Target, i: nat, dead: bool) {
    && (t.Socket? ==> t.sock == i)
    && (t.Queued? ==> !dead)
  }

  ghost predicate TargetsOk(x: Context, p: Port, dead: bool) {
    && (forall k :: 0 <= k < |p.recvs| && p.recvs[k].state.RecvWaiting? ==> TargetOk(p.recvs[k].state.target, x.connId, dead))
    && (forall k :: 0 <= k < |p.sends| && p.sends[k].state.SendWaiting? ==> TargetOk(p.sends[k].state.target, x.connId, dead))
  }

  function Partial(x: Context): Bytes {
    if x.outQueue == [] || x.written > |x.outQueue[0]| then [] else x.outQueue[0][..x.written]
  }

  /** Bytes the kernel took whose completion has not been handled. */
  function InFlight(p: Port): Bytes {
    if p.sends == [] then []
    else
      var op := p.sends[0];
      if op.state.SendDone? && 0 < op.state.res <= |op.data| then op.data[..op.state.res] else []
  }

  /** Bytes the kernel delivered whose completion has not been handled. */
  function Arrivals(bufs: seq<Bytes>, p: Port): Bytes {
    if p.recvs == [] || !p.recvs[0].state.RecvDone? then [] else ChunkOf(bufs, p.recvs[0].state)
  }

  /** accepted == sent frames, then the written part of the front frame, then what was just taken. */
  ghost predicate SentOk(x: Context, p: Port, frames: seq<Bytes>, accepted: Bytes) {
    && |x.outQueue| <= |frames|
    && x.outQueue == frames[|frames| - |x.outQueue|..]
    && accepted == Concat(frames[..|frames| - |x.outQueue|]) + Partial(x) + InFlight(p)
  }

  /** received == what was parsed so far, then what just arrived. */
  ghost predicate ReadOk(g: Registry, x: Context, arrivals: Bytes, requests: seq<Request>, received: Bytes) {
    && |arrivals| <= |received|
    && received[|received| - |arrivals|..] == arrivals
    && Drain(g, received[..|received| - |arrivals|]) == Drained(requests, false, x.input)
  }

  /** Both directions of one connection: `active` unless closed, `dead` if closed and its descriptor reused. */
  ghost predicate Streams(g: Registry, x: Context, p: Port, active: bool, dead: bool, arrivals: Bytes,
                          frames: seq<Bytes>, requests: seq<Request>, sock: Sock) {
    && TargetsOk(x, p, dead)
    && SentOk(x, p, frames, sock.accepted)
    && (active ==> ReadOk(g, x, arrivals, requests, sock.received))
  }

  predicate Dead(m: Manager, c: nat)
    requires c < |m.conns|
  {
    !IsActive(m, c) && m.conns[c].fd in m.os.files
  }

  /** Context c carries its streams; `reading` while what it received is parsed up to its input. */
  ghost predicate StreamAs(e: Config, s: Server, socks: seq<Sock>, c: nat, reading: bool)
    requires c < |s.m.conns|
  {
    var x, p := s.m.conns[c], PortOf(s.r, c);
    && x.connId < |socks|
    && Streams(e.registry, x, p, reading, Dead(s.m, c), Arrivals(s.r.bufs, p),
               FramesOf(s.p.coros, DeliveredOn(s, x.connId)), RequestsOf(s.p.coros, x.connId), socks[x.connId])
  }

  ghost predicate StreamCtx(e: Config, s: Server, socks: seq<Sock>, c: nat)
    requires c < |s.m.conns|
  {
    StreamAs(e, s, socks, c, IsActive(s.m, c))
  }

  /** Assembling a context's streams from its parts. */
  lemma StreamIntro(e: Config, v: Server, socks: seq<Sock>, c: nat, reading: bool, arrivals: Bytes,
                    frames: seq<Bytes>, requests: seq<Request>)
    requires c < |v.m.conns| && v.m.conns[c].connId < |socks|
    requires Arrivals(v.r.bufs, PortOf(v.r, c)) == arrivals
    requires FramesOf(v.p.coros, DeliveredOn(v, v.m.conns[c].connId)) == frames
    requires RequestsOf(v.p.coros, v.m.conns[c].connId) == requests
    requires Streams(e.registry, v.m.conns[c], PortOf(v.r, c), reading, Dead(v.m, c), arrivals, frames, requests,
                     socks[v.m.conns[c].connId])
    ensures StreamAs(e, v, socks, c, reading)
  {
  }

  /** What a socket carried: bytes of delivered frames one way, the dispatched requests the other. */
  ghost predicate Exchanged(g: Registry, frames: seq<Bytes>, requests: seq<Request>, sock: Sock) {
    && sock.accepted <= Concat(frames)
    && requests <= Drain(g, sock.received).requests
  }

  /** Every connection generation, past ones included. */
  ghost predicate SockOk(e: Config, s: Server, socks: seq<Sock>, i: nat)
    requires i < |socks|
  {
    Exchanged(e.registry, FramesOf(s.p.coros, DeliveredOn(s, i)), RequestsOf(s.p.coros, i), socks[i])
  }

  ghost predicate StreamOthers(e: Config, s: Server, socks: seq<Sock>, f: int) {
    forall c :: 0 <= c < |s.m.conns| && c != f && c !in s.m.idle ==> StreamCtx(e, s, socks, c)
  }

  ghost predicate Socks(e: Config, s: Server, socks: seq<Sock>) {
    forall i :: 0 <= i < |socks| ==> SockOk(e, s, socks, i)
  }

  /** A socket whose accept has not been handled has seen no byte. */
  ghost predicate Unused(s: Server, socks: seq<Sock>) {
    forall i :: s.m.nextId <= i < |socks| ==> socks[i] == Sock([], [])
  }

  ghost predicate StreamInv(e: Config, s: Server, socks: seq<Sock>) {
    StreamOthers(e, s, socks, -1) && Socks(e, s, socks) && Unused(s, socks)
  }

  // Calm steps.

  lemma StreamsMono(g: Registry, x: Context, p: Port, active: bool, dead: bool, arrivals: Bytes,
                    frames: seq<Bytes>, requests: seq<Request>, sock: Sock, active': bool, dead': bool)
    requires Streams(g, x, p, active, dead, arrivals, frames, requests, sock)
    requires (active' ==> active) && (dead' ==> dead)
    ensures Streams(g, x, p, active', dead', arrivals, frames, requests, sock)
  {
  }

  /** Submitting an operation on a context with none of that kind moves no byte. */
  lemma StreamsSubmit(g: Registry, x: Context, y: Context, p: Port, q: Port, active: bool, arrivals: Bytes,
                      frames: seq<Bytes>, requests: seq<Request>, sock: Sock)
    requires Streams(g, x, p, active, false, arrivals, frames, requests, sock)
    requires y.connId == x.connId && y.input == x.input && y.outQueue == x.outQueue && y.written == x.written
    requires q.recvs == p.recvs || (p.recvs == [] && q.recvs == [RecvOp(x.fd, RecvWaiting(Queued))])
    requires q.sends == p.sends || (p.sends == [] && |q.sends| == 1 && q.sends[0].state == SendWaiting(Queued))
    ensures Streams(g, y, q, active, false, arrivals, frames, requests, sock)
  {
    assert Partial(y) == Partial(x) && InFlight(q) == InFlight(p);
    SentSubmit(x, y, p, q, frames, sock.accepted);
    if active {
      assert ReadOk(g, y, arrivals, requests, sock.received);
    }
  }

  lemma SentSubmit(x: Context, y: Context, p: Port, q: Port, frames: seq<Bytes>, accepted: Bytes)
    requires SentOk(x, p, frames, accepted)
    requires y.outQueue == x.outQueue && y.written == x.written && InFlight(q) == InFlight(p)
    ensures SentOk(y, q, frames, accepted)
  {
  }

  lemma CalmOps(s: Server, t: Server, c: nat)
    requires Calm(s, t, c)
    requires PortOf(s.r, c).recvs == [] || PortOf(t.r, c).recvs == PortOf(s.r, c).recvs
    requires PortOf(s.r, c).sends == [] || PortOf(t.r, c).sends == PortOf(s.r, c).sends
    ensures var x, p, q := s.m.conns[c], PortOf(s.r, c), PortOf(t.r, c);
      && (q.recvs == p.recvs || (p.recvs == [] && q.recvs == [RecvOp(x.fd, RecvWaiting(Queued))]))
      && (q.sends == p.sends || (p.sends == [] && |q.sends| == 1 && q.sends[0].state == SendWaiting(Queued)))
      && Arrivals(t.r.bufs, q) == Arrivals(s.r.bufs, p)
      && (IsActive(s.m, c) ==> !Dead(t.m, c))
  {
  }

  /** A context that only submitted operations or was closed. */
  lemma CalmCtx(e: Config, s: Server, t: Server, socks: seq<Sock>, c: nat, reading: bool)
    requires Calm(s, t, c) && IsActive(s.m, c) && StreamAs(e, s, socks, c, reading)
    requires IsActive(t.m, c) ==> reading
    requires PortOf(s.r, c).recvs == [] || PortOf(t.r, c).recvs == PortOf(s.r, c).recvs
    requires PortOf(s.r, c).sends == [] || PortOf(t.r, c).sends == PortOf(s.r, c).sends
    ensures StreamCtx(e, t, socks, c)
  {
    CalmOps(s, t, c);
    var x := s.m.conns[c];
    var frames, requests := FramesOf(s.p.coros, DeliveredOn(s, x.connId)), RequestsOf(s.p.coros, x.connId);
    CalmStreams(e.registry, s, t, c, reading, frames, requests, socks[x.connId]);
    assert DeliveredOn(t, x.connId) == DeliveredOn(s, x.connId);
  }

  lemma CalmStreams(g: Registry, s: Server, t: Server, c: nat, reading: bool, frames: seq<Bytes>, requests: seq<Request>, sock: Sock)
    requires Calm(s, t, c) && IsActive(s.m, c) && (IsActive(t.m, c) ==> reading)
    requires var x, p, q := s.m.conns[c], PortOf(s.r, c), PortOf(t.r, c);
      && (q.recvs == p.recvs || (p.recvs == [] && q.recvs == [RecvOp(x.fd, RecvWaiting(Queued))]))
      && (q.sends == p.sends || (p.sends == [] && |q.sends| == 1 && q.sends[0].state == SendWaiting(Queued)))
      && !Dead(t.m, c) && !Dead(s.m, c)
      && Streams(g, x, p, reading, false, Arrivals(s.r.bufs, p), frames, requests, sock)
    ensures Streams(g, t.m.conns[c], PortOf(t.r, c), IsActive(t.m, c), Dead(t.m, c), Arrivals(s.r.bufs, PortOf(s.r, c)), frames, requests, sock)
  {
    var x, y, p, q := s.m.conns[c], t.m.conns[c], PortOf(s.r, c), PortOf(t.r, c);
    var arrivals := Arrivals(s.r.bufs, p);
    StreamsSubmit(g, x, y, p, q, reading, arrivals, frames, requests, sock);
    StreamsMono(g, y, q, reading, false, arrivals, frames, requests, sock, IsActive(t.m, c), Dead(t.m, c));
  }

  lemma LocalCtx(e: Config, s: Server, t: Server, socks: seq<Sock>, c: nat, d: nat)
    requires LocalTo(s, t, c) && d < |s.m.conns| && d != c && StreamCtx(e, s, socks, d)
    requires t.p == s.p && t.delivered == s.delivered
    ensures StreamCtx(e, t, socks, d)
  {
    var x, p := s.m.conns[d], PortOf(s.r, d);
    StreamsMono(e.registry, x, p, IsActive(s.m, d), Dead(s.m, d), Arrivals(s.r.bufs, p),
                FramesOf(s.p.coros, DeliveredOn(s, x.connId)), RequestsOf(s.p.coros, x.connId), socks[x.connId],
                IsActive(t.m, d), Dead(t.m, d));
    assert DeliveredOn(t, x.connId) == DeliveredOn(s, x.connId);
  }

  lemma LocalOthers(e: Config, s: Server, t: Server, socks: seq<Sock>, c: nat)
    requires LocalTo(s, t, c) && StreamOthers(e, s, socks, c)
    requires t.p == s.p && t.delivered == s.delivered
    ensures StreamOthers(e, t, socks, c)
  {
    forall d | 0 <= d < |t.m.conns| && d != c && d !in t.m.idle
      ensures StreamCtx(e, t, socks, d)
    {
      assert StreamCtx(e, s, socks, d);
      LocalCtx(e, s, t, socks, c, d);
    }
  }

  lemma SocksFrame(e: Config, s: Server, t: Server, socks: seq<Sock>)
    requires Socks(e, s, socks) && t.p == s.p && t.delivered == s.delivered
    ensures Socks(e, t, socks)
  {
    forall i | 0 <= i < |socks|
      ensures SockOk(e, t, socks, i)
    {
      assert SockOk(e, s, socks, i) && DeliveredOn(t, i) == DeliveredOn(s, i);
    }
  }

  lemma CalmKeeps(e: Config, s: Server, t: Server, socks: seq<Sock>, c: nat, reading: bool)
    requires Calm(s, t, c) && IsActive(s.m, c) && StreamAs(e, s, socks, c, reading)
    requires IsActive(t.m, c) ==> reading
    requires PortOf(s.r, c).recvs == [] || PortOf(t.r, c).recvs == PortOf(s.r, c).recvs
    requires PortOf(s.r, c).sends == [] || PortOf(t.r, c).sends == PortOf(s.r, c).sends
    requires StreamOthers(e, s, socks, c) && Socks(e, s, socks) && Unused(s, socks)
    ensures StreamInv(e, t, socks)
  {
    CalmCtx(e, s, t, socks, c, reading);
    LocalOthers(e, s, t, socks, c);
    SocksFrame(e, s, t, socks);
  }

  // Steps of the pool.

  lemma FramesSame(coros: seq<Coro>, coros': seq<Coro>, ids: seq<nat>)
    requires forall k :: 0 <= k < |ids| ==> ids[k] < |coros| <= |coros'| && coros'[ids[k]].frame == coros[ids[k]].frame
    ensures FramesOf(coros', ids) == FramesOf(coros, ids)
  {
    assert forall k :: 0 <= k < |ids| ==> FrameAt(coros', ids[k]) == FrameAt(coros, ids[k]);
  }

  lemma {:induction false} RequestsSame(coros: seq<Coro>, coros': seq<Coro>, i: nat)
    requires |coros'| == |coros|
    requires forall k :: 0 <= k < |coros| ==> coros'[k].connId == coros[k].connId && coros'[k].request == coros[k].request
    ensures RequestsOf(coros', i) == RequestsOf(coros, i)
  {
    if coros != [] {
      RequestsSame(coros[..|coros| - 1], coros'[..|coros| - 1], i);
    }
  }

  lemma {:induction false} RequestsAppend(coros: seq<Coro>, more: seq<Coro>, i: nat)
    ensures RequestsOf(coros + more, i) == RequestsOf(coros, i) + RequestsOf(more, i)
  {
    if more == [] {
      assert coros + more == coros;
    } else {
      var n := |more| - 1;
      RequestsAppend(coros, more[..n], i);
      assert (coros + more)[..|coros + more| - 1] == coros + more[..n];
      assert RequestsOf(coros, i) + (RequestsOf(more[..n], i) + if more[n].connId == i then [more[n].request] else [])
          == RequestsOf(coros, i) + RequestsOf(more[..n], i) + if more[n].connId == i then [more[n].request] else [];
    }
  }

  /** Coroutines may change as long as what was delivered and what was requested does not. */
  lemma PoolFrame(e: Config, s: Server, t: Server, socks: seq<Sock>, f: int)
    requires StreamOthers(e, s, socks, f) && Socks(e, s, socks) && Unused(s, socks)
    requires t.m == s.m && t.r.ports == s.r.ports && t.r.bufs == s.r.bufs && t.delivered == s.delivered
    requires forall i: nat :: FramesOf(t.p.coros, DeliveredOn(s, i)) == FramesOf(s.p.coros, DeliveredOn(s, i))
    requires forall i: nat :: RequestsOf(t.p.coros, i) == RequestsOf(s.p.coros, i)
    ensures StreamOthers(e, t, socks, f) && Socks(e, t, socks) && Unused(t, socks)
  {
    assert forall i: nat :: DeliveredOn(t, i) == DeliveredOn(s, i);
    forall d | 0 <= d < |t.m.conns| && d != f && d !in t.m.idle
      ensures StreamCtx(e, t, socks, d)
    {
      assert StreamCtx(e, s, socks, d) && PortOf(t.r, d) == PortOf(s.r, d);
      assert FramesOf(t.p.coros, DeliveredOn(s, s.m.conns[d].connId)) == FramesOf(s.p.coros, DeliveredOn(s, s.m.conns[d].connId));
    }
    forall i | 0 <= i < |socks|
      ensures SockOk(e, t, socks, i)
    {
      assert SockOk(e, s, socks, i);
      assert FramesOf(t.p.coros, DeliveredOn(s, i)) == FramesOf(s.p.coros, DeliveredOn(s, i));
    }
  }
}
