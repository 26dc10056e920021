/**
  Runs on one connection whose requests no worker has taken yet: any bytes can be fed to it, in any pieces.

  Used to reach worlds with given properties; ReactorOvershoot, ReactorDrops, ReactorStaleRun and EndToEndRun start from
  here. Every byte comes in a recv of its own, so that it is known how often an entry of the ring was asked for.
 */
module ReactorFeed {
  import opened ByteStrings
  import opened Wire
  import opened Connections
  import opened Reactor
  import opened ReactorRun
  import opened ReactorSafety

  const FD: int := 5

  /** The ring always has an entry free. */
  ghost predicate Roomy(e: Config) {
    forall k: nat :: e.sqe(k)
  }

  /** It has one free the first n times. */
  ghost predicate RoomFor(e: Config, n: nat) {
    forall k: nat :: k < n ==> e.sqe(k)
  }

  /** One entry for the accept, one for the first recv, and one for the recv after each byte. */
  function CallsFor(received: Bytes): nat {
    2 + |received|
  }

  /** The only context there ever is, with what changes of it. */
  function Ctx(input: Bytes, outQueue: seq<Bytes>, inflight: int, closing: bool, pending: int): Context {
    Context(FD, 1, input, outQueue, 0, outQueue != [], inflight, closing, pending, false)
  }

  function Opened(x: Context): Manager {
    Manager([x], map[FD := 0], [], 2, Descriptors(map[FD := 1], [], 0))
  }

  function RingWith(p: Port, notifies: seq<NotifyOp>, free: multiset<nat>, bufs: seq<Bytes>, calls: nat): Ring {
    Ring(map[0 := p], [AcceptWaiting], notifies, free, bufs, calls)
  }

  function Receiving(t: Target): Port {
    Port([RecvOp(FD, RecvWaiting(t))], [])
  }

  function Tasks(ms: seq<Request>): Pool {
    Pool(Spawn(FD, 1, ms), Ids(0, |ms|), [], [])
  }

  function Quiet(m: Manager, r: Ring, p: Pool, received: Bytes): World {
    World(Server(m, r, p, false, false, map[]), [Sock([], []), Sock(received, [])], 0, 0, 0, WORKERS, false, true)
  }

  /** The connection has received these bytes, dispatched these requests, and keeps the rest in its buffer. */
  function Fed(ms: seq<Request>, input: Bytes, received: Bytes, t: Target,
               free: multiset<nat>, bufs: seq<Bytes>, calls: nat): World {
    Quiet(Opened(Ctx(input, [], 1, false, |ms|)), RingWith(Receiving(t), [NotifyWaiting], free, bufs, calls), Tasks(ms), received)
  }

  predicate Buffered(free: multiset<nat>, bufs: seq<Bytes>) {
    0 in free && |bufs| > 0 && |bufs[0]| == BUF_SIZE
  }

  ghost predicate FedVia(e: Config, d: Drained, received: Bytes, free: multiset<nat>, bufs: seq<Bytes>) {
    Buffered(free, bufs) && Reachable(e, Fed(d.requests, d.rest, received, Socket(1), free, bufs, CallsFor(received)))
  }

  ghost predicate CanFeed(e: Config, d: Drained, received: Bytes) {
    exists free: multiset<nat>, bufs: seq<Bytes> :: FedVia(e, d, received, free, bufs)
  }

  lemma OneStep(e: Config, w: World, ev: Event, w': World)
    requires Reachable(e, w) && Step(e, w, ev, w')
    ensures Reachable(e, w')
  {
    var past :| Leads(e, past, w);
    var all := past + [ev];
    assert all[..|all| - 1] == past && all[|all| - 1] == ev;
    assert LeadsVia(e, all, w, w');
    assert Leads(e, all, w');
  }

  /** The loop takes off the first recv completion of the only context. */
  lemma TakeRecvStep(e: Config, w: World, t: Server, n: int, bid: Option<nat>, sends: seq<SendOp>)
    requires Wf(w.s.m) && PoolWf(w.s.p) && !w.stopped && |w.s.m.conns| > 0
    requires w.s.r.ports == map[0 := Port([RecvOp(FD, RecvDone(n, bid))], sends)]
    requires t == ProcessRecv(e, w.s, 0, 0)
    ensures Step(e, w, Loop(TakeRecv(0, 0)), w.(s := t))
  {
  }

  // The connection is accepted.

  function Fresh(free: multiset<nat>, bufs: seq<Bytes>): World {
    World(Server(Manager([], map[], [], 1, Descriptors(map[], [], 0)),
                 Ring(map[], [AcceptWaiting], [NotifyWaiting], free, bufs, 0),
                 Pool([], [], [], []), false, false, map[]),
          [Sock([], [])], 0, 0, 0, WORKERS, false, true)
  }

  function Landed1(free: multiset<nat>, bufs: seq<Bytes>): World {
    Quiet(Manager([], map[], [], 1, Descriptors(map[FD := 1], [], 0)),
          Ring(map[], [AcceptDone(FD)], [NotifyWaiting], free, bufs, 0), Pool([], [], [], []), [])
  }

  lemma FirstLands(e: Config, free: multiset<nat>, bufs: seq<Bytes>)
    ensures Step(e, Fresh(free, bufs), Kernel(AcceptConn(FD)), Landed1(free, bufs))
  {
    var w := Fresh(free, bufs);
    assert Landed(w, FD).s.m.os.files == map[FD := 1];
    assert Landed(w, FD).socks == [Sock([], []), Sock([], [])];
  }

  lemma FirstTaken(e: Config, free: multiset<nat>, bufs: seq<Bytes>)
    requires e.sqe(0) && e.sqe(1)
    ensures Step(e, Landed1(free, bufs), Loop(TakeAccept), Fed([], [], [], Queued, free, bufs, 2))
  {
    var w := Landed1(free, bufs);
    var s0 := w.s.(r := w.s.r.(accepts := []));
    assert RemoveAt(w.s.r.accepts, 0) == [];
    var s1 := s0.(m := Acquire(s0.m, FD).1);
    assert s1.m == Opened(Ctx([], [], 0, false, 0));
    var s2 := SubmitRecv(e, s1, FD).1;
    assert s2.m == Opened(Ctx([], [], 1, false, 0));
    assert PortOf(s2.r, 0) == Receiving(Queued);
    assert s2.r.ports == map[0 := Receiving(Queued)];
    assert RearmAccept(e, s2).r.accepts == [AcceptWaiting];
  }

  // The queued recv is handed to the kernel.

  lemma FlushedPort(files: map<int, nat>, p: Port, p': Port, r: Ring)
    requires r.ports == map[0 := p] && FlushPort(files, p) == p'
    ensures FlushAll(r, files).ports == map[0 := p']
  {
  }

  lemma RecvFlushed(e: Config, ms: seq<Request>, input: Bytes, received: Bytes,
                    free: multiset<nat>, bufs: seq<Bytes>, calls: nat)
    requires PoolWf(Tasks(ms))
    ensures Step(e, Fed(ms, input, received, Queued, free, bufs, calls), Loop(Submit),
                 Fed(ms, input, received, Socket(1), free, bufs, calls))
  {
    var w := Fed(ms, input, received, Queued, free, bufs, calls);
    assert FlushPort(w.s.m.os.files, Receiving(Queued)) == Receiving(Socket(1));
    FlushedPort(w.s.m.os.files, Receiving(Queued), Receiving(Socket(1)), w.s.r);
  }

  lemma TasksWf(ms: seq<Request>)
    ensures PoolWf(Tasks(ms))
  {
  }

  // Bytes arrive.

  function Arrived(p: Pool, pending: int, input: Bytes, received: Bytes, n: int,
                   free: multiset<nat>, bufs: seq<Bytes>, calls: nat): World {
    Quiet(Opened(Ctx(input, [], 1, false, pending)),
          RingWith(Port([RecvOp(FD, RecvDone(n, Some(0)))], []), [NotifyWaiting], free, bufs, calls), p, received)
  }

  lemma BytesArrive(e: Config, ms: seq<Request>, input: Bytes, received: Bytes, data: Bytes,
                    free: multiset<nat>, bufs: seq<Bytes>, calls: nat)
    requires Buffered(free, bufs) && 0 < |data| <= BUF_SIZE && PoolWf(Tasks(ms))
    ensures Step(e, Fed(ms, input, received, Socket(1), free, bufs, calls), Kernel(RecvData(0, 0, data, 0)),
                 Arrived(Tasks(ms), |ms|, input, received + data, |data|,
                         free - multiset{0}, bufs[0 := data + bufs[0][|data|..]], calls))
  {
    var w := Fed(ms, input, received, Socket(1), free, bufs, calls);
    var done := RecvDone(|data|, Some(0));
    assert Receiving(Socket(1)).recvs[0 := RecvOp(FD, done)] == [RecvOp(FD, done)];
    assert PutRecv(w.s, 0, 0, done).r.ports == map[0 := Port([RecvOp(FD, done)], [])];
    assert Receive(w.socks, 1, data) == [Sock([], []), Sock(received + data, [])];
  }

  /** The buffer is copied out and returned, and the completion counted off. */
  lemma BytesCopied(s: Server, t: Server, data: Bytes, input: Bytes, pending: int)
    requires s.m == Opened(Ctx(input, [], 1, false, pending)) && |s.r.bufs| > 0
    requires 0 < |data| <= |s.r.bufs[0]| && s.r.bufs[0][..|data|] == data
    requires t == s.(m := Opened(Ctx(input + data, [], 0, false, pending)), r := s.r.(free := s.r.free + multiset{0}))
    ensures var u := TakeBuffer(s, 0, RecvDone(|data|, Some(0))); OnComplete(u.m, 0) == (false, t.m) && u.(m := t.m) == t
  {
    var x, y := Ctx(input + data, [], 1, false, pending), Ctx(input + data, [], 0, false, pending);
    assert TakeBuffer(s, 0, RecvDone(|data|, Some(0))).m == Opened(x);
    assert [x][0 := y] == [y];
  }

  /** A recv completion is taken off and handed to its handler. */
  lemma RecvTaken(e: Config, s: Server, t: Server, n: int)
    requires s.r.ports == map[0 := Port([RecvOp(FD, RecvDone(n, Some(0)))], [])] && |s.m.conns| == 1 && Wf(s.m)
    requires var u := TakeBuffer(s.(r := s.r.(ports := map[0 := NO_OPS])), 0, RecvDone(n, Some(0)));
      OnComplete(u.m, 0) == (false, t.m) && u.(m := t.m) == t
    ensures Wf(t.m) && |t.m.conns| == 1 && ProcessRecv(e, s, 0, 0) == HandleRecv(e, t, 0, n)
  {
    assert RemoveAt(PortOf(s.r, 0).recvs, 0) == [];
    assert s.r.ports[0 := NO_OPS] == map[0 := NO_OPS];
  }

  lemma {:induction false} SpawnAppend(a: seq<Request>, b: seq<Request>)
    ensures Spawn(FD, 1, a + b) == Spawn(FD, 1, a) + Spawn(FD, 1, b)
  {
    if a == [] {
      assert a + b == b;
    } else {
      assert (a + b)[1..] == a[1..] + b;
      SpawnAppend(a[1..], b);
    }
  }

  lemma IdsAppend(lo: nat, n: nat, m: nat)
    ensures Ids(lo, n) + Ids(lo + n, m) == Ids(lo, n + m)
  {
  }

  lemma TasksAppend(a: seq<Request>, b: seq<Request>, n: nat, p: Pool)
    requires n == |a| && p == Tasks(a)
    ensures Tasks(a + b) == Pool(p.coros + Spawn(FD, 1, b), p.tasks + Ids(n, |b|), [], [])
  {
    SpawnAppend(a, b);
    IdsAppend(0, n, |b|);
    assert Tasks(a + b).tasks == p.tasks + Ids(n, |b|);
  }

  lemma Dispatched(s: Server, ms: seq<Request>, more: seq<Request>, input: Bytes, rest: Bytes)
    requires s.m == Opened(Ctx(input, [], 0, false, |ms|)) && s.p == Tasks(ms)
    ensures DispatchAll(s, 0, more, rest) == s.(m := Opened(Ctx(rest, [], 0, false, |ms + more|)), p := Tasks(ms + more))
  {
    TasksAppend(ms, more, |ms|, s.p);
    var x, y := Ctx(input, [], 0, false, |ms|), Ctx(rest, [], 0, false, |ms + more|);
    assert [x][0 := y] == [y];
  }

  lemma Rearmed(e: Config, s: Server, rest: Bytes, pending: int)
    requires s.m == Opened(Ctx(rest, [], 0, false, pending)) && s.r.ports == map[0 := NO_OPS] && e.sqe(s.r.calls)
    ensures Wf(s.m)
    ensures RearmRecv(e, s, FD) ==
      s.(m := Opened(Ctx(rest, [], 1, false, pending)), r := s.r.(ports := map[0 := Receiving(Queued)], calls := s.r.calls + 1))
  {
    var x, y := Ctx(rest, [], 0, false, pending), Ctx(rest, [], 1, false, pending);
    assert [x][0 := y] == [y];
    var t := PrepRecv(GetSqe(s), 0, FD);
    assert PortOf(t.r, 0) == Receiving(Queued);
    assert t.r.ports == map[0 := Receiving(Queued)];
  }

  /** Below the limit the next recv is armed. */
  lemma DataHandled(e: Config, s: Server, ms: seq<Request>, all: Bytes, d: Drained)
    requires s.m == Opened(Ctx(all, [], 0, false, |ms|)) && s.p == Tasks(ms) && s.r.ports == map[0 := NO_OPS]
    requires e.sqe(s.r.calls) && d == Drain(e.registry, all) && !d.closed
    requires |ms + d.requests| < MAX_INFLIGHT_PER_CONN
    ensures Wf(s.m)
    ensures HandleData(e, s, 0) ==
      s.(m := Opened(Ctx(d.rest, [], 1, false, |ms + d.requests|)), p := Tasks(ms + d.requests),
         r := s.r.(ports := map[0 := Receiving(Queued)], calls := s.r.calls + 1))
  {
    Dispatched(s, ms, d.requests, all, d.rest);
    Rearmed(e, DispatchAll(s, 0, d.requests, d.rest), d.rest, |ms + d.requests|);
  }

  lemma BytesProcessed(e: Config, s: Server, t: Server, ms: seq<Request>, input: Bytes, data: Bytes, d: Drained)
    requires s.m == Opened(Ctx(input, [], 1, false, |ms|)) && s.p == Tasks(ms)
    requires s.r.ports == map[0 := Port([RecvOp(FD, RecvDone(|data|, Some(0)))], [])]
    requires |s.r.bufs| > 0 && 0 < |data| <= |s.r.bufs[0]| && s.r.bufs[0][..|data|] == data && e.sqe(s.r.calls)
    requires d == Drain(e.registry, input + data) && !d.closed && |ms + d.requests| < MAX_INFLIGHT_PER_CONN
    requires t == s.(m := Opened(Ctx(d.rest, [], 1, false, |ms + d.requests|)), p := Tasks(ms + d.requests),
         r := s.r.(ports := map[0 := Receiving(Queued)], free := s.r.free + multiset{0}, calls := s.r.calls + 1))
    ensures Wf(s.m) && ProcessRecv(e, s, 0, 0) == t
  {
    var s1 := s.(r := s.r.(ports := map[0 := NO_OPS]));
    var s3 := s1.(m := Opened(Ctx(input + data, [], 0, false, |ms|)), r := s1.r.(free := s.r.free + multiset{0}));
    BytesCopied(s1, s3, data, input, |ms|);
    RecvTaken(e, s, s3, |data|);
    DataHandled(e, s3, ms, input + data, d);
  }

  lemma BytesTaken(e: Config, w: World, t: Server, ms: seq<Request>, input: Bytes, data: Bytes, d: Drained)
    requires w.s.m == Opened(Ctx(input, [], 1, false, |ms|)) && w.s.p == Tasks(ms) && !w.stopped && PoolWf(w.s.p)
    requires w.s.r.ports == map[0 := Port([RecvOp(FD, RecvDone(|data|, Some(0)))], [])]
    requires |w.s.r.bufs| > 0 && 0 < |data| <= |w.s.r.bufs[0]| && w.s.r.bufs[0][..|data|] == data && e.sqe(w.s.r.calls)
    requires d == Drain(e.registry, input + data) && !d.closed && |ms + d.requests| < MAX_INFLIGHT_PER_CONN
    requires t == w.s.(m := Opened(Ctx(d.rest, [], 1, false, |ms + d.requests|)), p := Tasks(ms + d.requests),
         r := w.s.r.(ports := map[0 := Receiving(Queued)], free := w.s.r.free + multiset{0}, calls := w.s.r.calls + 1))
    ensures Step(e, w, Loop(TakeRecv(0, 0)), w.(s := t))
  {
    BytesProcessed(e, w.s, t, ms, input, data, d);
    TakeRecvStep(e, w, t, |data|, Some(0), []);
  }

  // Feeding.

  /** One byte more. */
  lemma FeedOne(e: Config, d: Drained, received: Bytes, data: Bytes, d': Drained)
    requires e.sqe(CallsFor(received)) && CanFeed(e, d, received) && !d.closed && |data| == 1
    requires d' == Wire.Resume(e.registry, d, data) && !d'.closed && |d'.requests| < MAX_INFLIGHT_PER_CONN
    ensures CanFeed(e, d', received + data)
  {
    var free: multiset<nat>, bufs: seq<Bytes> :| FedVia(e, d, received, free, bufs);
    var calls := CallsFor(received);
    var ms, more, bufs' := d.requests, Drain(e.registry, d.rest + data), bufs[0 := data + bufs[0][|data|..]];
    TasksWf(ms);
    TasksWf(d'.requests);
    BytesArrive(e, ms, d.rest, received, data, free, bufs, calls);
    OneStep(e, Fed(ms, d.rest, received, Socket(1), free, bufs, calls), Kernel(RecvData(0, 0, data, 0)),
            Arrived(Tasks(ms), |ms|, d.rest, received + data, |data|, free - multiset{0}, bufs', calls));
    var free' := free - multiset{0} + multiset{0};
    BytesTaken(e, Arrived(Tasks(ms), |ms|, d.rest, received + data, |data|, free - multiset{0}, bufs', calls),
               Fed(d'.requests, d'.rest, received + data, Queued, free', bufs', calls + 1).s, ms, d.rest, data, more);
    OneStep(e, Arrived(Tasks(ms), |ms|, d.rest, received + data, |data|, free - multiset{0}, bufs', calls),
            Loop(TakeRecv(0, 0)), Fed(d'.requests, d'.rest, received + data, Queued, free', bufs', calls + 1));
    RecvFlushed(e, d'.requests, d'.rest, received + data, free', bufs', calls + 1);
    OneStep(e, Fed(d'.requests, d'.rest, received + data, Queued, free', bufs', calls + 1), Loop(Submit),
            Fed(d'.requests, d'.rest, received + data, Socket(1), free', bufs', calls + 1));
    assert FedVia(e, d', received + data, free', bufs');
  }

  lemma FreshAccepts(e: Config, free: multiset<nat>, bufs: seq<Bytes>)
    requires e.sqe(0) && e.sqe(1) && Reachable(e, Fresh(free, bufs))
    ensures Reachable(e, Fed([], [], [], Queued, free, bufs, 2))
  {
    FirstLands(e, free, bufs);
    OneStep(e, Fresh(free, bufs), Kernel(AcceptConn(FD)), Landed1(free, bufs));
    FirstTaken(e, free, bufs);
    OneStep(e, Landed1(free, bufs), Loop(TakeAccept), Fed([], [], [], Queued, free, bufs, 2));
  }

  lemma FromFresh(e: Config, free: multiset<nat>, bufs: seq<Bytes>)
    requires RoomFor(e, 2) && Buffered(free, bufs) && Reachable(e, Fresh(free, bufs))
    ensures CanFeed(e, Drained([], false, []), [])
  {
    TasksWf([]);
    FreshAccepts(e, free, bufs);
    RecvFlushed(e, [], [], [], free, bufs, 2);
    OneStep(e, Fed([], [], [], Queued, free, bufs, 2), Loop(Submit), Fed([], [], [], Socket(1), free, bufs, 2));
    assert FedVia(e, Drained([], false, []), [], free, bufs);
  }

  /** A connection on which nothing has arrived yet. */
  lemma Connected(e: Config)
    requires RoomFor(e, 2)
    ensures CanFeed(e, Drained([], false, []), [])
  {
    var n := BUF_RING_ENTRIES;
    BootBufs(n);
    var w := Begin(n, WORKERS);
    assert Leads(e, [], w);
    FromFresh(e, w.s.r.free, w.s.r.bufs);
  }

  /** Any bytes that are not refused, as long as fewer than 256 requests are pending. */
  lemma {:induction false} FeedAll(e: Config, bytes: Bytes)
    requires RoomFor(e, CallsFor(bytes)) && !Drain(e.registry, bytes).closed
    requires |Drain(e.registry, bytes).requests| < MAX_INFLIGHT_PER_CONN
    ensures CanFeed(e, Drain(e.registry, bytes), bytes)
  {
    if bytes == [] {
      DrainEmpty(e.registry);
      Connected(e);
    } else {
      var n := |bytes| - 1;
      assert bytes == bytes[..n] + [bytes[n]];
      DrainMonotone(e.registry, bytes[..n], bytes);
      FeedAll(e, bytes[..n]);
      DrainChunked(e.registry, bytes[..n], [bytes[n]]);
      FeedOne(e, Drain(e.registry, bytes[..n]), bytes[..n], [bytes[n]], Drain(e.registry, bytes));
    }
  }
}
