/**
  How far the soft limit of 256 pending requests is overshot: exactly as far as PendingRequests allows.

  A connection holds 255 pending requests and all but one byte of the next; one full buffer completes that one and
  as many more as fit, before the limit is looked at.
 */
module ReactorOvershoot {
  import opened ByteStrings
  import opened Wire
  import opened Connections
  import opened Reactor
  import opened ReactorRun
  import opened ReactorInvariant
  import opened ReactorSafety
  import opened ReactorFeed
  import ReactorTheorems
  import HeaderCodec

  function Paused(input: Bytes, pending: int): Context {
    Ctx(input, [], 0, false, pending).(readPaused := true)
  }

  lemma LimitReached(e: Config, s: Server, ms: seq<Request>, all: Bytes, d: Drained)
    requires s.m == Opened(Ctx(all, [], 0, false, |ms|)) && s.p == Tasks(ms)
    requires d == Drain(e.registry, all) && !d.closed && |ms + d.requests| >= MAX_INFLIGHT_PER_CONN
    ensures Wf(s.m)
    ensures HandleData(e, s, 0) == s.(m := Opened(Paused(d.rest, |ms + d.requests|)), p := Tasks(ms + d.requests))
  {
    Dispatched(s, ms, d.requests, all, d.rest);
    var x, y := Ctx(d.rest, [], 0, false, |ms + d.requests|), Paused(d.rest, |ms + d.requests|);
    assert [x][0 := y] == [y];
  }

  lemma LastProcessed(e: Config, s: Server, t: Server, ms: seq<Request>, input: Bytes, data: Bytes, d: Drained)
    requires s.m == Opened(Ctx(input, [], 1, false, |ms|)) && s.p == Tasks(ms)
    requires s.r.ports == map[0 := Port([RecvOp(FD, RecvDone(|data|, Some(0)))], [])]
    requires |s.r.bufs| > 0 && 0 < |data| <= |s.r.bufs[0]| && s.r.bufs[0][..|data|] == data
    requires d == Drain(e.registry, input + data) && !d.closed && |ms + d.requests| >= MAX_INFLIGHT_PER_CONN
    requires t == s.(m := Opened(Paused(d.rest, |ms + d.requests|)), p := Tasks(ms + d.requests),
                     r := s.r.(ports := map[0 := NO_OPS], free := s.r.free + multiset{0}))
    ensures Wf(s.m) && ProcessRecv(e, s, 0, 0) == t
  {
    var s1 := s.(r := s.r.(ports := map[0 := NO_OPS]));
    var s3 := s1.(m := Opened(Ctx(input + data, [], 0, false, |ms|)), r := s1.r.(free := s.r.free + multiset{0}));
    BytesCopied(s1, s3, data, input, |ms|);
    RecvTaken(e, s, s3, |data|);
    LimitReached(e, s3, ms, input + data, d);
  }

  /** Connection 1 is open, has never been closed over, and has n requests pending. */
  ghost predicate Pending(e: Config, w: World, n: int) {
    && Reachable(e, w) && w.clean
    && |w.s.m.conns| == 1 && IsActive(w.s.m, 0) && w.s.m.conns[0].pendingReqs == n
  }

  /** Connection 1 has received these bytes, dispatched these requests, and reads no more. */
  function Halted(ms: seq<Request>, input: Bytes, received: Bytes, free: multiset<nat>, bufs: seq<Bytes>, calls: nat): World {
    Quiet(Opened(Paused(input, |ms|)), RingWith(NO_OPS, [NotifyWaiting], free, bufs, calls), Tasks(ms), received)
  }

  ghost predicate HaltedAs(w: World, ms: seq<Request>) {
    exists input: Bytes, received: Bytes, free: multiset<nat>, bufs: seq<Bytes>, calls: nat ::
      w == Halted(ms, input, received, free, bufs, calls)
  }

  lemma HaltedPending(e: Config, w: World, ms: seq<Request>)
    requires Reachable(e, w) && HaltedAs(w, ms)
    ensures Pending(e, w, |ms|)
  {
    var input: Bytes, received: Bytes, free: multiset<nat>, bufs: seq<Bytes>, calls: nat :|
      w == Halted(ms, input, received, free, bufs, calls);
    assert w.s.m.conns == [Paused(input, |ms|)];
  }

  lemma LastTaken(e: Config, w: World, t: Server, ms: seq<Request>, input: Bytes, data: Bytes, d: Drained)
    requires Reachable(e, w) && !w.stopped && PoolWf(w.s.p)
    requires w.s.m == Opened(Ctx(input, [], 1, false, |ms|)) && w.s.p == Tasks(ms)
    requires w.s.r.ports == map[0 := Port([RecvOp(FD, RecvDone(|data|, Some(0)))], [])]
    requires |w.s.r.bufs| > 0 && 0 < |data| <= |w.s.r.bufs[0]| && w.s.r.bufs[0][..|data|] == data
    requires d == Drain(e.registry, input + data) && !d.closed && |ms + d.requests| >= MAX_INFLIGHT_PER_CONN
    requires t == w.s.(m := Opened(Paused(d.rest, |ms + d.requests|)), p := Tasks(ms + d.requests),
                       r := w.s.r.(ports := map[0 := NO_OPS], free := w.s.r.free + multiset{0}))
    ensures Reachable(e, w.(s := t))
  {
    LastProcessed(e, w.s, t, ms, input, data, d);
    TakeRecvStep(e, w, t, |data|, Some(0), []);
    OneStep(e, w, Loop(TakeRecv(0, 0)), w.(s := t));
  }

  /** The recv that reaches the limit, by however much. */
  lemma FeedLast(e: Config, d: Drained, received: Bytes, data: Bytes, d': Drained) returns (w: World)
    requires CanFeed(e, d, received) && !d.closed && 0 < |data| <= BUF_SIZE
    requires d' == Wire.Resume(e.registry, d, data) && !d'.closed && |d'.requests| >= MAX_INFLIGHT_PER_CONN
    ensures Reachable(e, w) && HaltedAs(w, d'.requests)
  {
    var free: multiset<nat>, bufs: seq<Bytes> :| FedVia(e, d, received, free, bufs);
    var calls := CallsFor(received);
    var ms, bufs' := d.requests, bufs[0 := data + bufs[0][|data|..]];
    TasksWf(ms);
    BytesArrive(e, ms, d.rest, received, data, free, bufs, calls);
    var w0 := Arrived(Tasks(ms), |ms|, d.rest, received + data, |data|, free - multiset{0}, bufs', calls);
    OneStep(e, Fed(ms, d.rest, received, Socket(1), free, bufs, calls), Kernel(RecvData(0, 0, data, 0)), w0);
    w := Halted(d'.requests, d'.rest, received + data, free - multiset{0} + multiset{0}, bufs', calls);
    LastTaken(e, w0, w.s, ms, d.rest, data, Drain(e.registry, d.rest + data));
  }

  lemma {:induction false} WholeInPlus(size: nat, j: nat, n: nat)
    requires size > 0
    ensures WholeIn(size, size * j + n) == j + WholeIn(size, n)
  {
    if j > 0 {
      assert size * j == size * (j - 1) + size;
      WholeInPlus(size, j - 1, n);
    }
  }

  lemma StreamOvershoots(e: Config, wh: Header -> Bytes, m: Request, s: Bytes, i: nat, j: nat) returns (w: World)
    requires Roomy(e) && Lawful(e.registry, wh) && Fits(wh, m) && Accepted(e.registry, wh, m)
    requires i < j <= i + BUF_SIZE && s == Stream(wh, m, j + 1)
    requires WholeIn(|RequestFrame(wh, m)|, i) < MAX_INFLIGHT_PER_CONN <= WholeIn(|RequestFrame(wh, m)|, j)
    ensures |s| >= j && Reachable(e, w) && HaltedAs(w, Drain(e.registry, s[..j]).requests)
    ensures |Drain(e.registry, s[..j]).requests| == WholeIn(|RequestFrame(wh, m)|, j)
  {
    var g := e.registry;
    DrainOfCut(g, wh, m, s, j + 1, i);
    DrainOfCut(g, wh, m, s, j + 1, j);
    FeedAll(e, s[..i]);
    assert s[..j] == s[..i] + s[i..j];
    DrainChunked(g, s[..i], s[i..j]);
    w := FeedLast(e, Drain(g, s[..i]), s[..i], s[i..j], Drain(g, s[..j]));
  }

  /** The bound of PendingRequests is reached, by any accepted message: with a message as short as any request can be,
      it is the exact maximum. */
  lemma OvershootReached(e: Config, wh: Header -> Bytes, m: Request, size: nat) returns (w: World)
    requires Roomy(e) && Lawful(e.registry, wh) && Fits(wh, m) && Accepted(e.registry, wh, m)
    requires size == |RequestFrame(wh, m)|
    ensures Pending(e, w, MAX_INFLIGHT_PER_CONN + (BUF_SIZE - 1) / size)
  {
    var i := size * 255 + (size - 1);
    var j := i + BUF_SIZE;
    WholeInPlus(size, 255, size - 1);
    WholeInPlus(size, 256, BUF_SIZE - 1);
    assert j == size * 256 + (BUF_SIZE - 1);
    WholeInIsQuotient(size, BUF_SIZE - 1);
    var s := Stream(wh, m, j + 1);
    w := StreamOvershoots(e, wh, m, s, i, j);
    HaltedPending(e, w, Drain(e.registry, s[..j]).requests);
  }

  // Where services and methods have names.

  /** No connection ever has more than 665 requests pending, whatever encodings of a header the decoder accepts, as long
      as one with both names takes six bytes. */
  lemma NamedAtMost(e: Config, w: World, c: nat)
    requires Reachable(e, w) && c < |w.s.m.conns| && IsActive(w.s.m, c)
    requires HeaderCodec.SixBytes(e.registry) && HeaderCodec.Named(e.registry.services)
    ensures w.s.m.conns[c].pendingReqs <= 665
  {
    HeaderCodec.TenBytes(e.registry);
    ReactorTheorems.PendingRequests(e, w, c, 10);
  }

  /** And 665 it can have, if the decoder reads what the client writes and some method with a one-letter name in a
      service with a one-letter name takes empty arguments. */
  lemma NamedReached(e: Config, service: byte, name: byte) returns (w: World)
    requires Roomy(e) && Lawful(e.registry, HeaderCodec.Encoder())
    requires Known(e.registry, Header([service], [name], 0, 0), [])
    ensures Pending(e, w, 665)
  {
    HeaderCodec.TenByteFrame(service, name);
    w := OvershootReached(e, HeaderCodec.Encoder(), Request([service], [name], [], 0), 10);
  }
}
