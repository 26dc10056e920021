/** Kernel and worker steps keep the byte streams right; the theorems over clean runs. */
module ReactorStreamKernel {
  import opened ByteStrings
  import opened Wire
  import opened Connections
  import opened Reactor
  import opened ReactorRun
  import opened ReactorInvariant
  import opened ReactorHandlers
  import opened ReactorSafety
  import opened ReactorStreams

  /** The streams of every context but c, when the socket of c, its operations and free buffers changed. */
  lemma KernelOther(e: Config, s: Server, t: Server, socks: seq<Sock>, socks': seq<Sock>, d: nat)
    requires d < |s.m.conns| && StreamCtx(e, s, socks, d) && t.m == s.m && t.p == s.p && t.delivered == s.delivered
    requires PortOf(t.r, d) == PortOf(s.r, d) && |socks'| == |socks|
    requires Arrivals(t.r.bufs, PortOf(s.r, d)) == Arrivals(s.r.bufs, PortOf(s.r, d))
    requires s.m.conns[d].connId < |socks| ==> socks'[s.m.conns[d].connId] == socks[s.m.conns[d].connId]
    ensures StreamCtx(e, t, socks', d)
  {
    assert DeliveredOn(t, s.m.conns[d].connId) == DeliveredOn(s, s.m.conns[d].connId);
  }

  lemma {:induction false} HeldNone(r: Ring, n: nat, b: nat, c: nat)
    requires Held(r, n, b) == 0 && c < n
    ensures Holds(PortOf(r, c).recvs, b) == 0
  {
    if c < n - 1 {
      HeldNone(r, n - 1, b, c);
    }
  }

  /** A buffer in the ring is in no posted completion, so writing it disturbs no arrival. */
  lemma ArrivalsKept(s: Server, bufs: seq<Bytes>, bid: nat, d: nat)
    requires BufsOk(s) && bid in s.r.free && bid < BUF_RING_ENTRIES && d < |s.m.conns| && |PortOf(s.r, d).recvs| <= 1
    requires |bufs| == |s.r.bufs| && forall b :: 0 <= b < |bufs| && b != bid ==> bufs[b] == s.r.bufs[b]
    ensures Arrivals(bufs, PortOf(s.r, d)) == Arrivals(s.r.bufs, PortOf(s.r, d))
  {
    HeldNone(s.r, |s.m.conns|, bid, d);
  }

  lemma AtMostOne(e: Config, s: Server, c: nat)
    requires Settled(e, s) && c < |s.m.conns|
    ensures |PortOf(s.r, c).recvs| <= 1 && |PortOf(s.r, c).sends| <= 1
    ensures PortOf(s.r, c) != NO_OPS ==> c !in s.m.idle && QueueOk(s.m.conns[c], PortOf(s.r, c))
  {
    assert CtxOk(e, s, c);
  }

  // Receiving.

  lemma StreamsReceive(g: Registry, x: Context, p: Port, q: Port, active: bool, dead: bool, frames: seq<Bytes>,
                       requests: seq<Request>, sock: Sock, sock': Sock, data: Bytes)
    requires Streams(g, x, p, active, dead, [], frames, requests, sock)
    requires |p.recvs| == 1 && |q.recvs| == 1 && q.recvs[0].state.RecvDone? && q.sends == p.sends
    requires sock' == sock.(received := sock.received + data)
    ensures Streams(g, x, q, active, dead, data, frames, requests, sock')
  {
    assert sock'.received[..|sock'.received| - |data|] == sock.received[..|sock.received| - 0];
  }

  lemma PostRecvFields(s: Server, c: nat, res: int, bid: nat, data: Bytes)
    requires |PortOf(s.r, c).recvs| == 1 && PortOf(s.r, c).recvs[0].state.RecvWaiting?
    requires CanLend(s.r, Some(bid)) && |data| <= BUF_SIZE && (if res > 0 then res == |data| else data == [])
    ensures RecvPosted(s, PostRecv(s, c, 0, res, Some(bid), data), c, bid, data)
  {
    var t := PostRecv(s, c, 0, res, Some(bid), data);
    assert t.r.bufs[bid] == data + s.r.bufs[bid][|data|..];
    assert t.r.bufs[bid][..|data|] == data;
  }

  /** Contexts other than c, when c's socket and possibly one free buffer changed. */
  lemma KernelOthers(e: Config, s: Server, t: Server, socks: seq<Sock>, socks': seq<Sock>, c: nat)
    requires Tables(s.m) && c < |s.m.conns| && c !in s.m.idle && StreamOthers(e, s, socks, c)
    requires t.m == s.m && t.p == s.p && t.delivered == s.delivered && |socks'| == |socks|
    requires forall d :: 0 <= d < |s.m.conns| && d != c ==> PortOf(t.r, d) == PortOf(s.r, d)
    requires forall d :: 0 <= d < |s.m.conns| && d != c ==> Arrivals(t.r.bufs, PortOf(s.r, d)) == Arrivals(s.r.bufs, PortOf(s.r, d))
    requires forall k :: 0 <= k < |socks| && k != s.m.conns[c].connId ==> socks'[k] == socks[k]
    ensures StreamOthers(e, t, socks', c)
  {
    forall d | 0 <= d < |t.m.conns| && d != c && d !in t.m.idle
      ensures StreamCtx(e, t, socks', d)
    {
      assert StreamCtx(e, s, socks, d);
      assert s.m.conns[d].connId != s.m.conns[c].connId;
      KernelOther(e, s, t, socks, socks', d);
    }
  }

  lemma AllArrivalsKept(e: Config, s: Server, bufs: seq<Bytes>, bid: nat)
    requires Settled(e, s) && bid in s.r.free && bid < BUF_RING_ENTRIES
    requires |bufs| == |s.r.bufs| && forall b :: 0 <= b < |bufs| && b != bid ==> bufs[b] == s.r.bufs[b]
    ensures forall d :: 0 <= d < |s.m.conns| ==> Arrivals(bufs, PortOf(s.r, d)) == Arrivals(s.r.bufs, PortOf(s.r, d))
  {
    forall d | 0 <= d < |s.m.conns|
      ensures Arrivals(bufs, PortOf(s.r, d)) == Arrivals(s.r.bufs, PortOf(s.r, d))
    {
      AtMostOne(e, s, d);
      ArrivalsKept(s, bufs, bid, d);
    }
  }

  lemma JoinStreams(e: Config, t: Server, socks: seq<Sock>, c: nat)
    requires StreamOthers(e, t, socks, c) && Socks(e, t, socks) && Unused(t, socks)
    requires c < |t.m.conns| && StreamCtx(e, t, socks, c)
    ensures StreamInv(e, t, socks)
  {
  }

  /** `t` is `s` with the one recv of context c completed, delivering `data` in buffer `bid`. */
  ghost predicate RecvPosted(s: Server, t: Server, c: nat, bid: nat, data: Bytes) {
    && t.m == s.m && t.p == s.p && t.delivered == s.delivered
    && |PortOf(s.r, c).recvs| == 1 && PortOf(s.r, c).recvs[0].state.RecvWaiting?
    && PortOf(t.r, c).sends == PortOf(s.r, c).sends && |PortOf(t.r, c).recvs| == 1
    && PortOf(t.r, c).recvs[0].state.RecvDone?
    && Arrivals(t.r.bufs, PortOf(t.r, c)) == data
    && |t.r.bufs| == |s.r.bufs| && (forall b :: 0 <= b < |s.r.bufs| && b != bid ==> t.r.bufs[b] == s.r.bufs[b])
    && (forall d :: d != c ==> PortOf(t.r, d) == PortOf(s.r, d))
  }

  lemma RecvPostedOthers(e: Config, s: Server, t: Server, socks: seq<Sock>, socks': seq<Sock>, c: nat, bid: nat, data: Bytes)
    requires Settled(e, s) && StreamOthers(e, s, socks, c) && c < |s.m.conns| && c !in s.m.idle
    requires RecvPosted(s, t, c, bid, data) && bid in s.r.free && bid < BUF_RING_ENTRIES
    requires |socks'| == |socks| && forall k :: 0 <= k < |socks| && k != s.m.conns[c].connId ==> socks'[k] == socks[k]
    ensures StreamOthers(e, t, socks', c)
  {
    AllArrivalsKept(e, s, t.r.bufs, bid);
    KernelOthers(e, s, t, socks, socks', c);
  }

  lemma ReceivedStreams(e: Config, s: Server, t: Server, socks: seq<Sock>, socks': seq<Sock>, c: nat, data: Bytes)
    requires c < |s.m.conns| && s.m.conns[c].connId < s.m.nextId && s.m.conns[c].connId < |socks|
    requires t.m == s.m && t.p == s.p && t.delivered == s.delivered
    requires Socks(e, s, socks) && Unused(s, socks)
    requires socks' == Receive(socks, s.m.conns[c].connId, data) && StreamCtx(e, t, socks', c) && StreamOthers(e, t, socks', c)
    ensures StreamInv(e, t, socks')
  {
    ReceiveSocks(e, s, t, socks, s.m.conns[c].connId, data);
    ReceiveUnused(s, t, socks, s.m.conns[c].connId, data);
    JoinStreams(e, t, socks', c);
  }

  lemma RecvPostedStreams(e: Config, s: Server, t: Server, socks: seq<Sock>, socks': seq<Sock>, c: nat, bid: nat, data: Bytes)
    requires Settled(e, s) && StreamInv(e, s, socks) && c < |s.m.conns| && c !in s.m.idle
    requires RecvPosted(s, t, c, bid, data) && bid in s.r.free && bid < BUF_RING_ENTRIES
    requires s.m.conns[c].connId < |socks| && socks' == Receive(socks, s.m.conns[c].connId, data)
    ensures StreamInv(e, t, socks')
  {
    RecvPostedOthers(e, s, t, socks, socks', c, bid, data);
    RecvPostedCtx(e, s, t, socks, socks', c, bid, data);
    ReceivedStreams(e, s, t, socks, socks', c, data);
  }

  lemma RecvPostedCtx(e: Config, s: Server, t: Server, socks: seq<Sock>, socks': seq<Sock>, c: nat, bid: nat, data: Bytes)
    requires c < |s.m.conns| && StreamCtx(e, s, socks, c) && RecvPosted(s, t, c, bid, data)
    requires socks' == Receive(socks, s.m.conns[c].connId, data)
    ensures StreamCtx(e, t, socks', c)
  {
    PostRecvCtx(e, s, t, socks, socks', c, data);
  }

  /** Completing a recv with data on its own socket, or with nothing. */
  lemma PostRecvStreams(e: Config, s: Server, socks: seq<Sock>, c: nat, res: int, bid: nat, data: Bytes)
    requires Settled(e, s) && StreamInv(e, s, socks) && LiveRecv(s, c, 0) && PortOf(s.r, c).recvs[0].state.RecvWaiting?
    requires CanLend(s.r, Some(bid)) && |data| <= BUF_SIZE && (if res > 0 then res == |data| else data == [])
    requires s.m.conns[c].connId < |socks|
    ensures StreamInv(e, PostRecv(s, c, 0, res, Some(bid), data), Receive(socks, s.m.conns[c].connId, data))
  {
    AtMostOne(e, s, c);
    PostRecvFields(s, c, res, bid, data);
    RecvPostedStreams(e, s, PostRecv(s, c, 0, res, Some(bid), data), socks, Receive(socks, s.m.conns[c].connId, data), c, bid, data);
  }

  lemma ReceiveUnused(s: Server, t: Server, socks: seq<Sock>, i: nat, data: Bytes)
    requires Unused(s, socks) && i < |socks| && i < s.m.nextId && t.m == s.m
    ensures Unused(t, Receive(socks, i, data)) && Unused(t, Transmit(socks, i, data))
  {
  }

  lemma PostRecvCtx(e: Config, s: Server, t: Server, socks: seq<Sock>, socks': seq<Sock>, c: nat, data: Bytes)
    requires c < |s.m.conns| && StreamCtx(e, s, socks, c) && t.m == s.m && t.p == s.p && t.delivered == s.delivered
    requires |PortOf(s.r, c).recvs| == 1 && PortOf(s.r, c).recvs[0].state.RecvWaiting?
    requires PortOf(t.r, c).sends == PortOf(s.r, c).sends && |PortOf(t.r, c).recvs| == 1 && PortOf(t.r, c).recvs[0].state.RecvDone?
    requires Arrivals(t.r.bufs, PortOf(t.r, c)) == data && socks' == Receive(socks, s.m.conns[c].connId, data)
    ensures StreamCtx(e, t, socks', c)
  {
    var x, i := s.m.conns[c], s.m.conns[c].connId;
    var frames, requests := FramesOf(s.p.coros, DeliveredOn(s, i)), RequestsOf(s.p.coros, i);
    StreamsReceive(e.registry, x, PortOf(s.r, c), PortOf(t.r, c), IsActive(s.m, c), Dead(s.m, c), frames, requests, socks[i], socks'[i], data);
    assert DeliveredOn(t, i) == DeliveredOn(s, i);
    StreamIntro(e, t, socks', c, IsActive(s.m, c), data, frames, requests);
  }

  lemma ReceiveSocks(e: Config, s: Server, t: Server, socks: seq<Sock>, i: nat, data: Bytes)
    requires Socks(e, s, socks) && i < |socks| && t.p == s.p && t.delivered == s.delivered
    ensures Socks(e, t, Receive(socks, i, data))
  {
    forall k | 0 <= k < |socks|
      ensures SockOk(e, t, Receive(socks, i, data), k)
    {
      assert SockOk(e, s, socks, k) && DeliveredOn(t, k) == DeliveredOn(s, k);
      DrainMonotone(e.registry, socks[i].received, socks[i].received + data);
    }
  }

  // Sending.

  /** What the kernel took of a send that completed with res. */
  function Taken(data: Bytes, res: int): Bytes
    requires res <= |data|
  {
    if res > 0 then data[..res] else []
  }

  lemma StreamsTransmit(g: Registry, x: Context, p: Port, q: Port, active: bool, dead: bool, arrivals: Bytes, frames: seq<Bytes>,
                        requests: seq<Request>, sock: Sock, sock': Sock, res: int)
    requires Streams(g, x, p, active, dead, arrivals, frames, requests, sock)
    requires |p.sends| == 1 && p.sends[0].state.SendWaiting? && res <= |p.sends[0].data|
    requires q == p.(sends := [p.sends[0].(state := SendDone(res))])
    requires sock' == sock.(accepted := sock.accepted + Taken(p.sends[0].data, res))
    ensures Streams(g, x, q, active, dead, arrivals, frames, requests, sock')
  {
    assert InFlight(p) == [];
    var sent := Concat(frames[..|frames| - |x.outQueue|]) + Partial(x);
    assert sent + [] + InFlight(q) == sent + InFlight(q);
  }

  /** What the kernel has taken is always a prefix of what was queued. */
  lemma SentPrefix(x: Context, p: Port, frames: seq<Bytes>, accepted: Bytes)
    requires SentOk(x, p, frames, accepted) && QueueOk(x, p) && |p.sends| <= 1
    ensures accepted <= Concat(frames)
  {
    var n := |frames| - |x.outQueue|;
    if x.outQueue == [] {
      assert frames[..n] == frames;
      assert Concat(frames) + [] + [] == Concat(frames);
    } else {
      var front := x.outQueue[0];
      assert frames[n] == front;
      FrontFrame(frames, n, front);
      PartOfFront(x, p, front);
      PrefixThrough(accepted, Concat(frames[..n]), Partial(x), InFlight(p), front, Concat(frames));
    }
  }

  lemma FrontFrame(frames: seq<Bytes>, n: nat, front: Bytes)
    requires n < |frames| && frames[n] == front
    ensures Concat(frames[..n]) + front <= Concat(frames)
  {
    TakeOneMore(frames, n);
    ConcatSnoc(frames[..n], front);
    ConcatPrefix(frames, n + 1);
  }

  lemma TakeOneMore(frames: seq<Bytes>, n: nat)
    requires n < |frames|
    ensures frames[..n + 1] == frames[..n] + [frames[n]]
  {
  }

  lemma PartOfFront(x: Context, p: Port, front: Bytes)
    requires x.outQueue != [] && x.outQueue[0] == front && QueueOk(x, p) && |p.sends| <= 1
    ensures Partial(x) + InFlight(p) <= front
  {
    assert front == front[..x.written] + front[x.written..];
  }

  lemma PrefixThrough(a: Bytes, whole: Bytes, u: Bytes, v: Bytes, front: Bytes, all: Bytes)
    requires a == whole + u + v && u + v <= front && whole + front <= all
    ensures a <= all
  {
    assert a == whole + (u + v);
    assert front == (u + v) + front[|u + v|..];
    assert whole + front == a + front[|u + v|..];
  }

  lemma PostSendCtx(e: Config, s: Server, t: Server, socks: seq<Sock>, socks': seq<Sock>, c: nat, res: int)
    requires c < |s.m.conns| && StreamCtx(e, s, socks, c) && t.m == s.m && t.p == s.p && t.delivered == s.delivered && t.r.bufs == s.r.bufs
    requires |PortOf(s.r, c).sends| == 1 && PortOf(s.r, c).sends[0].state.SendWaiting? && res <= |PortOf(s.r, c).sends[0].data|
    requires PortOf(t.r, c) == PortOf(s.r, c).(sends := [PortOf(s.r, c).sends[0].(state := SendDone(res))])
    requires socks' == Transmit(socks, s.m.conns[c].connId, Taken(PortOf(s.r, c).sends[0].data, res))
    ensures StreamCtx(e, t, socks', c)
  {
    var x, i, p := s.m.conns[c], s.m.conns[c].connId, PortOf(s.r, c);
    var frames, requests := FramesOf(s.p.coros, DeliveredOn(s, i)), RequestsOf(s.p.coros, i);
    StreamsTransmit(e.registry, x, p, PortOf(t.r, c), IsActive(s.m, c), Dead(s.m, c), Arrivals(s.r.bufs, p), frames, requests, socks[i], socks'[i], res);
    assert DeliveredOn(t, i) == DeliveredOn(s, i);
    StreamIntro(e, t, socks', c, IsActive(s.m, c), Arrivals(s.r.bufs, p), frames, requests);
  }

  lemma TransmitSocks(e: Config, s: Server, t: Server, socks: seq<Sock>, i: nat, data: Bytes)
    requires Socks(e, s, socks) && i < |socks| && t.p == s.p && t.delivered == s.delivered
    requires socks[i].accepted + data <= Concat(FramesOf(s.p.coros, DeliveredOn(s, i)))
    ensures Socks(e, t, Transmit(socks, i, data))
  {
    forall k | 0 <= k < |socks|
      ensures SockOk(e, t, Transmit(socks, i, data), k)
    {
      assert SockOk(e, s, socks, k) && DeliveredOn(t, k) == DeliveredOn(s, k);
    }
  }

  lemma PutSendFields(s: Server, c: nat, res: int)
    requires |PortOf(s.r, c).sends| == 1
    ensures var t := PutSend(s, c, 0, SendDone(res));
      && t.m == s.m && t.p == s.p && t.delivered == s.delivered && t.r.bufs == s.r.bufs
      && PortOf(t.r, c) == PortOf(s.r, c).(sends := [PortOf(s.r, c).sends[0].(state := SendDone(res))])
      && (forall d :: d != c ==> PortOf(t.r, d) == PortOf(s.r, d))
  {
  }

  /** Whatever a send completes with, what was taken stays within what was queued. */
  lemma TakenWithin(e: Config, t: Server, socks: seq<Sock>, c: nat)
    requires Settled(e, t) && c < |t.m.conns| && PortOf(t.r, c) != NO_OPS && StreamCtx(e, t, socks, c)
    ensures socks[t.m.conns[c].connId].accepted <= Concat(FramesOf(t.p.coros, DeliveredOn(t, t.m.conns[c].connId)))
  {
    AtMostOne(e, t, c);
    var i := t.m.conns[c].connId;
    SentPrefix(t.m.conns[c], PortOf(t.r, c), FramesOf(t.p.coros, DeliveredOn(t, i)), socks[i].accepted);
  }

  lemma TransmittedStreams(e: Config, s: Server, t: Server, socks: seq<Sock>, socks': seq<Sock>, c: nat, data: Bytes)
    requires Inv(e, s) && StreamInv(e, s, socks) && c < |s.m.conns| && c !in s.m.idle && s.m.conns[c].connId < |socks|
    requires t.m == s.m && t.p == s.p && t.delivered == s.delivered && t.r.bufs == s.r.bufs
    requires forall d :: d != c ==> PortOf(t.r, d) == PortOf(s.r, d)
    requires socks' == Transmit(socks, s.m.conns[c].connId, data) && StreamCtx(e, t, socks', c)
    requires socks'[s.m.conns[c].connId].accepted <= Concat(FramesOf(t.p.coros, DeliveredOn(t, s.m.conns[c].connId)))
    ensures StreamInv(e, t, socks')
  {
    var i := s.m.conns[c].connId;
    KernelOthers(e, s, t, socks, socks', c);
    assert DeliveredOn(t, i) == DeliveredOn(s, i);
    TransmitSocks(e, s, t, socks, i, data);
    ReceiveUnused(s, t, socks, i, data);
    JoinStreams(e, t, socks', c);
  }

  lemma PostSendStreams(e: Config, s: Server, socks: seq<Sock>, c: nat, res: int)
    requires Inv(e, s) && StreamInv(e, s, socks) && LiveSend(s, c, 0) && PortOf(s.r, c).sends[0].state.SendWaiting?
    requires res <= |PortOf(s.r, c).sends[0].data| && s.m.conns[c].connId < |socks|
    ensures StreamInv(e, PutSend(s, c, 0, SendDone(res)),
                      Transmit(socks, s.m.conns[c].connId, Taken(PortOf(s.r, c).sends[0].data, res)))
  {
    var t, data := PutSend(s, c, 0, SendDone(res)), Taken(PortOf(s.r, c).sends[0].data, res);
    var socks' := Transmit(socks, s.m.conns[c].connId, data);
    AtMostOne(e, s, c);
    PutSendFields(s, c, res);
    assert StreamCtx(e, s, socks, c);
    PostSendCtx(e, s, t, socks, socks', c, res);
    SendPostedKeeps(e, s, c, 0, res);
    TakenWithin(e, t, socks', c);
    TransmittedStreams(e, s, t, socks, socks', c, data);
  }
}
