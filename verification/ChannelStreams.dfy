/** What each connection of the channel carries, and where every answer comes from. */
module ChannelStreams {
  import opened ByteStrings
  import opened Wire
  import opened Channel
  import opened ChannelSafety

  // The sending side.

  function RequestAt(calls: seq<Call>, k: nat): Request {
    if k < |calls| then calls[k].request else Request([], [], [], 0)
  }

  function RequestsIn(calls: seq<Call>, order: seq<nat>): (r: seq<Request>)
    ensures |r| == |order|
    ensures forall i :: 0 <= i < |order| ==> r[i] == RequestAt(calls, order[i])
  {
    seq(|order|, i requires 0 <= i < |order| => RequestAt(calls, order[i]))
  }

  /** Unless torn, a connection carries whole frames of distinct calls and at the end a part of one more. */
  ghost predicate SentWhole(wh: Header -> Bytes, calls: seq<Call>, c: Conn) {
    if c.order == [] then c.sent == [] && c.tail == 0
    else
      var n := |c.order| - 1;
      var frame := RequestFrame(wh, RequestAt(calls, c.order[n]));
      0 < c.tail <= |frame| && c.sent == Concat(Frames(wh, RequestsIn(calls, c.order[..n]))) + frame[..c.tail]
  }

  /** A call on which bytes were sent has begun to send, once. */
  ghost predicate OrderOk(calls: seq<Call>, c: Conn) {
    && NoDup(c.order)
    && forall i :: 0 <= i < |c.order| ==>
         c.order[i] < |calls| && calls[c.order[i]].written > 0
  }

  ghost predicate SendersOk(wh: Header -> Bytes, s: State) {
    && (forall k :: 0 <= k < |s.calls| && (Unregistered(s.calls[k].pc) || s.calls[k].slot == NoSlot || s.calls[k].pc == Registered) ==>
          s.calls[k].written == 0)
    && (forall i :: 0 <= i < |s.conns| ==> OrderOk(s.calls, s.conns[i]))
    && (forall i :: 0 <= i < |s.conns| && !s.conns[i].torn ==> SentWhole(wh, s.calls, s.conns[i]))
  }

  // The receiving side.

  /** A frame not yet complete holds no whole response. */
  ghost predicate PartOk(got: Bytes) {
    |got| >= 4 && WellFormed(got) ==> |got| <= 4 + FromLE(got[..4])
  }

  /** What was read so far, and what the bytes of the frame being read will add to it. */
  ghost predicate ReadsAs(c: Conn, got: Bytes) {
    forall more: Bytes :: ReadResponses(c.recvd + more) == c.taken + ReadResponses(got + more)
  }

  function PartOf(rx: Rx): Bytes {
    if rx.Reading? then rx.got else []
  }

  predicate StillReading(rx: Rx) {
    rx.Testing? || rx.Reading? || rx.Holding?
  }

  ghost predicate ReadersOk(s: State) {
    && PartOk(PartOf(s.rx))
    && (forall i :: 0 <= i < |s.conns| ==>
          if StillReading(s.rx) && s.rx.conn == i then ReadsAs(s.conns[i], PartOf(s.rx))
          else ReadResponses(s.conns[i].recvd) == s.conns[i].taken)
  }

  // Answers.

  /** A response with this id and body was read off some connection. */
  ghost predicate CameIn(conns: seq<Conn>, r: Response) {
    exists i :: 0 <= i < |conns| && r in conns[i].taken
  }

  ghost predicate AnswersOk(s: State) {
    && (forall k :: 0 <= k < |s.calls| && s.calls[k].outcome.Answered? ==>
          CameIn(s.conns, Response(s.calls[k].request.requestId, s.calls[k].outcome.body)))
    && (s.rx.Holding? ==> s.rx.call < |s.calls| && CameIn(s.conns, Response(s.calls[s.rx.call].request.requestId, s.rx.body)))
  }

  ghost predicate StreamInv(wh: Header -> Bytes, s: State) {
    SendersOk(wh, s) && ReadersOk(s) && AnswersOk(s)
  }

  // Sending.

  lemma RequestsInSame(calls: seq<Call>, calls': seq<Call>, order: seq<nat>)
    requires forall i :: 0 <= i < |order| ==> RequestAt(calls', order[i]) == RequestAt(calls, order[i])
    ensures RequestsIn(calls', order) == RequestsIn(calls, order)
  {
  }

  /** A step under which calls keep their requests, once they have begun to send, keeps what was sent. */
  lemma SentSame(wh: Header -> Bytes, calls: seq<Call>, calls': seq<Call>, c: Conn)
    requires OrderOk(calls, c) && (!c.torn ==> SentWhole(wh, calls, c)) && |calls'| >= |calls|
    requires forall k :: 0 <= k < |calls| && calls[k].written > 0 ==>
      calls'[k].request == calls[k].request && calls'[k].written >= calls[k].written
    ensures OrderOk(calls', c) && (!c.torn ==> SentWhole(wh, calls', c))
  {
    if c.order != [] {
      RequestsInSame(calls, calls', c.order[..|c.order| - 1]);
    }
  }

  lemma SendersSame(wh: Header -> Bytes, s: State, t: State)
    requires SendersOk(wh, s) && |t.calls| >= |s.calls| && |t.conns| == |s.conns|
    requires forall k :: 0 <= k < |s.calls| && s.calls[k].written > 0 ==>
      t.calls[k].request == s.calls[k].request && t.calls[k].written >= s.calls[k].written
    requires forall i :: 0 <= i < |s.conns| ==>
      && t.conns[i].sent == s.conns[i].sent && t.conns[i].order == s.conns[i].order
      && t.conns[i].tail == s.conns[i].tail && t.conns[i].torn == s.conns[i].torn
    requires forall k :: 0 <= k < |t.calls| && (Unregistered(t.calls[k].pc) || t.calls[k].slot == NoSlot || t.calls[k].pc == Registered) ==>
      t.calls[k].written == 0
    ensures SendersOk(wh, t)
  {
    forall i | 0 <= i < |t.conns|
      ensures OrderOk(t.calls, t.conns[i]) && (!t.conns[i].torn ==> SentWhole(wh, t.calls, t.conns[i]))
    {
      SentSame(wh, s.calls, t.calls, s.conns[i]);
    }
  }

  /** Bytes of one more part of a frame. */
  lemma SentMore(wh: Header -> Bytes, calls: seq<Call>, c: Conn, d: Conn, k: nat, n: nat)
    requires SentWhole(wh, calls, c) && c.order != [] && c.order[|c.order| - 1] == k && k < |calls| && n > 0
    requires c.tail + n <= |FrameOf(wh, calls[k])|
    requires d == c.(sent := c.sent + FrameOf(wh, calls[k])[c.tail..c.tail + n], tail := c.tail + n)
    ensures SentWhole(wh, calls, d)
  {
    var frame := FrameOf(wh, calls[k]);
    assert frame[..c.tail] + frame[c.tail..c.tail + n] == frame[..c.tail + n];
    var whole := Concat(Frames(wh, RequestsIn(calls, c.order[..|c.order| - 1])));
    assert whole + frame[..c.tail] + frame[c.tail..c.tail + n] == whole + frame[..c.tail + n];
  }

  /** The first bytes of a new frame after whole ones. */
  lemma SentFirst(wh: Header -> Bytes, calls: seq<Call>, c: Conn, d: Conn, k: nat, n: nat)
    requires SentWhole(wh, calls, c) && k < |calls| && 0 < n <= |FrameOf(wh, calls[k])|
    requires c.order != [] ==> c.tail == |RequestFrame(wh, RequestAt(calls, c.order[|c.order| - 1]))|
    requires d == c.(sent := c.sent + FrameOf(wh, calls[k])[..n], order := c.order + [k], tail := n)
    ensures SentWhole(wh, calls, d)
  {
    WholeFrames(wh, calls, c);
    var m := |d.order| - 1;
    assert d.order[..m] == c.order && d.order[m] == k;
    assert RequestAt(calls, k) == calls[k].request;
    assert d.sent == Concat(Frames(wh, RequestsIn(calls, d.order[..m]))) + FrameOf(wh, calls[k])[..d.tail];
  }

  lemma FramesSnoc(wh: Header -> Bytes, calls: seq<Call>, order: seq<nat>, n: nat)
    requires |order| == n + 1
    ensures Concat(Frames(wh, RequestsIn(calls, order))) ==
      Concat(Frames(wh, RequestsIn(calls, order[..n]))) + RequestFrame(wh, RequestAt(calls, order[n]))
  {
    var all, last := RequestsIn(calls, order), RequestAt(calls, order[n]);
    assert all == RequestsIn(calls, order[..n]) + [last];
    assert Frames(wh, all) == Frames(wh, RequestsIn(calls, order[..n])) + [RequestFrame(wh, last)];
    ConcatSnoc(Frames(wh, RequestsIn(calls, order[..n])), RequestFrame(wh, last));
  }

  /** When the last frame is complete, everything sent is whole frames. */
  lemma WholeFrames(wh: Header -> Bytes, calls: seq<Call>, c: Conn)
    requires SentWhole(wh, calls, c)
    requires c.order != [] ==> c.tail == |RequestFrame(wh, RequestAt(calls, c.order[|c.order| - 1]))|
    ensures c.sent == Concat(Frames(wh, RequestsIn(calls, c.order)))
  {
    if c.order != [] {
      var frame := RequestFrame(wh, RequestAt(calls, c.order[|c.order| - 1]));
      FramesSnoc(wh, calls, c.order, |c.order| - 1);
      assert frame[..c.tail] == frame;
    }
  }

  /** In any case what was sent is a prefix of the whole frames. */
  lemma SentPrefix(wh: Header -> Bytes, calls: seq<Call>, c: Conn)
    requires SentWhole(wh, calls, c)
    ensures c.sent <= Concat(Frames(wh, RequestsIn(calls, c.order)))
  {
    if c.order != [] {
      var frame := RequestFrame(wh, RequestAt(calls, c.order[|c.order| - 1]));
      var n := |c.order| - 1;
      FramesSnoc(wh, calls, c.order, n);
      PrefixCons(Concat(Frames(wh, RequestsIn(calls, c.order[..n]))), frame[..c.tail], frame);
    }
  }

  /** A write puts a call into a connection's order only once, and only when it has written nothing before. */
  lemma WriteOrder(wh: Header -> Bytes, s: State, c: Conn, d: Conn, k: nat, n: nat, calls': seq<Call>)
    requires k < |s.calls| && 0 < n && s.calls[k].written + n <= |FrameOf(wh, s.calls[k])|
    requires OrderOk(s.calls, c) && d == Write(wh, s, c, k, n)
    requires calls' == s.calls[k := s.calls[k].(written := s.calls[k].written + n)]
    ensures OrderOk(calls', d)
  {
    if d.order != c.order {
      assert d.order == c.order + [k];
      assert k !in c.order;
    }
  }

  /** What was sent is told by the requests alone. */
  lemma SentMoves(wh: Header -> Bytes, calls: seq<Call>, calls': seq<Call>, d: Conn)
    requires SentWhole(wh, calls, d)
    requires forall i :: 0 <= i < |d.order| ==> RequestAt(calls', d.order[i]) == RequestAt(calls, d.order[i])
    ensures SentWhole(wh, calls', d)
  {
    if d.order != [] {
      RequestsInSame(calls, calls', d.order[..|d.order| - 1]);
    }
  }

  lemma WriteKeeps(wh: Header -> Bytes, s: State, c: Conn, d: Conn, k: nat, n: nat, calls': seq<Call>)
    requires k < |s.calls| && 0 < n && s.calls[k].written + n <= |FrameOf(wh, s.calls[k])|
    requires OrderOk(s.calls, c) && (!c.torn ==> SentWhole(wh, s.calls, c))
    requires d == Write(wh, s, c, k, n)
    requires calls' == s.calls[k := s.calls[k].(written := s.calls[k].written + n)]
    ensures OrderOk(calls', d) && (!d.torn ==> SentWhole(wh, calls', d))
  {
    WriteOrder(wh, s, c, d, k, n, calls');
    if !d.torn {
      WriteWhole(wh, s, c, d, k, n);
      SentMoves(wh, s.calls, calls', d);
    }
  }

  lemma WriteWhole(wh: Header -> Bytes, s: State, c: Conn, d: Conn, k: nat, n: nat)
    requires k < |s.calls| && 0 < n && s.calls[k].written + n <= |FrameOf(wh, s.calls[k])|
    requires d == Write(wh, s, c, k, n) && !d.torn && SentWhole(wh, s.calls, c) && OrderOk(s.calls, c)
    ensures SentWhole(wh, s.calls, d)
  {
    if s.calls[k].written == 0 {
      SentFirst(wh, s.calls, c, d, k, n);
    } else {
      SentMore(wh, s.calls, c, d, k, n);
    }
  }

  lemma SendSomeConns(wh: Header -> Bytes, s: State, k: nat, n: nat, calls': seq<Call>, i: nat, conn: Conn)
    requires SendersOk(wh, s) && SendEnabled(wh, s, k, SendSome(n)) && i < |s.conns|
    requires calls' == s.calls[k := s.calls[k].(written := s.calls[k].written + n)]
    requires conn == if i == s.fd.value then Write(wh, s, s.conns[i], k, n) else s.conns[i]
    ensures OrderOk(calls', conn) && (!conn.torn ==> SentWhole(wh, calls', conn))
  {
    if i == s.fd.value {
      WriteKeeps(wh, s, s.conns[i], conn, k, n, calls');
    } else {
      SentSame(wh, s.calls, calls', s.conns[i]);
    }
  }

  lemma SendSomeSenders(wh: Header -> Bytes, s: State, t: State, k: nat, n: nat)
    requires SendersOk(wh, s) && SendEnabled(wh, s, k, SendSome(n)) && s.calls[k].slot != NoSlot
    requires t.calls == s.calls[k := s.calls[k].(written := s.calls[k].written + n)]
    requires t.conns == s.conns[s.fd.value := Write(wh, s, s.conns[s.fd.value], k, n)]
    ensures SendersOk(wh, t)
  {
    forall i | 0 <= i < |t.conns|
      ensures OrderOk(t.calls, t.conns[i]) && (!t.conns[i].torn ==> SentWhole(wh, t.calls, t.conns[i]))
    {
      SendSomeConns(wh, s, k, n, t.calls, i, t.conns[i]);
    }
  }

  /** One call moves on without sending. */
  lemma MoveSenders(wh: Header -> Bytes, s: State, t: State, k: nat)
    requires SendersOk(wh, s) && k < |s.calls| == |t.calls| && t.calls == s.calls[k := t.calls[k]] && t.conns == s.conns
    requires t.calls[k].written == s.calls[k].written
    requires s.calls[k].written > 0 ==> t.calls[k].request == s.calls[k].request
    requires Unregistered(t.calls[k].pc) || t.calls[k].slot == NoSlot || t.calls[k].pc == Registered ==> s.calls[k].written == 0
    ensures SendersOk(wh, t)
  {
    SendersSame(wh, s, t);
  }

  lemma BeginSenders(wh: Header -> Bytes, s: State, c: Call)
    requires SendersOk(wh, s) && c.written == 0
    ensures SendersOk(wh, s.(calls := s.calls + [c]))
  {
    SendersSame(wh, s, s.(calls := s.calls + [c]));
  }

  lemma DialSenders(wh: Header -> Bytes, s: State, k: nat)
    requires SendersOk(wh, s) && k < |s.calls| && s.calls[k].written == 0
    ensures SendersOk(wh, Dial(s, k))
  {
    var t := Dial(s, k);
    MoveSenders(wh, s, Goto(s, k, Connected), k);
    forall i | 0 <= i < |t.conns|
      ensures OrderOk(t.calls, t.conns[i]) && (!t.conns[i].torn ==> SentWhole(wh, t.calls, t.conns[i]))
    {
      if i < |s.conns| {
        assert t.conns[i] == s.conns[i];
      }
    }
  }

  lemma PrepareSenders(wh: Header -> Bytes, s: State, k: nat, p: PrepareStep)
    requires SendersOk(wh, s) && PrepareEnabled(s, k, p)
    ensures SendersOk(wh, PrepareNext(s, k, p))
  {
    MoveSenders(wh, s, PrepareNext(s, k, p), k);
  }

  lemma ConnectSenders(wh: Header -> Bytes, s: State, k: nat, c: ConnectStep)
    requires SendersOk(wh, s) && ConnectEnabled(s, k, c)
    ensures SendersOk(wh, ConnectNext(s, k, c))
  {
    if c == DialOk {
      DialSenders(wh, s, k);
    } else {
      MoveSenders(wh, s, ConnectNext(s, k, c), k);
    }
  }

  lemma SendSomeState(wh: Header -> Bytes, s: State, t: State, k: nat, n: nat)
    requires SendEnabled(wh, s, k, SendSome(n)) && t == SendNext(wh, s, k, SendSome(n))
    ensures t.calls == s.calls[k := s.calls[k].(written := s.calls[k].written + n)]
    ensures t.conns == s.conns[s.fd.value := Write(wh, s, s.conns[s.fd.value], k, n)]
  {
  }

  lemma SendOtherSenders(wh: Header -> Bytes, s: State, k: nat, d: SendStep)
    requires SendersOk(wh, s) && SendEnabled(wh, s, k, d) && CallAt(s, k) && !d.SendSome?
    ensures SendersOk(wh, SendNext(wh, s, k, d))
  {
    MoveSenders(wh, s, SendNext(wh, s, k, d), k);
  }

  lemma SendSenders(wh: Header -> Bytes, s: State, t: State, k: nat, d: SendStep)
    requires SendersOk(wh, s) && SendEnabled(wh, s, k, d) && CallAt(s, k) && t == SendNext(wh, s, k, d)
    ensures SendersOk(wh, t)
  {
    if d.SendSome? {
      SendSomeState(wh, s, t, k, d.n);
      SendSomeSenders(wh, s, t, k, d.n);
    } else {
      SendOtherSenders(wh, s, k, d);
    }
  }

  lemma GiveUpSenders(wh: Header -> Bytes, s: State, k: nat, u: GiveUpStep)
    requires SendersOk(wh, s) && GiveUpEnabled(s, k, u) && CallAt(s, k)
    ensures SendersOk(wh, GiveUpNext(s, k, u))
  {
    GiveUpWritten(s, k, u);
    MoveSenders(wh, s, GiveUpNext(s, k, u), k);
  }

  lemma GiveUpWritten(s: State, k: nat, u: GiveUpStep)
    requires GiveUpEnabled(s, k, u) && CallAt(s, k)
    ensures var t := GiveUpNext(s, k, u);
      && |t.calls| == |s.calls| && t.calls == s.calls[k := t.calls[k]] && t.conns == s.conns
      && t.calls[k].written == s.calls[k].written && t.calls[k].request == s.calls[k].request
      && (Unregistered(t.calls[k].pc) || t.calls[k].slot == NoSlot || t.calls[k].pc == Registered ==> s.calls[k].slot == NoSlot)
  {
  }

  lemma CallerSenders(wh: Header -> Bytes, s: State, ev: CallerEvent)
    requires Inv(s) && SendersOk(wh, s) && CallerEnabled(wh, s, ev)
    ensures SendersOk(wh, CallerNext(wh, s, ev))
  {
    match ev
    case Begin(host, request) => BeginSenders(wh, s, NewCall(host, request));
    case Prepare(k, p) => PrepareSenders(wh, s, k, p);
    case Connect(k, c) => ConnectSenders(wh, s, k, c);
    case Register(k, deadline) => MoveSenders(wh, s, Registering(s, k, deadline), k);
    case Send(k, d) => assert CallAt(s, k); SendSenders(wh, s, CallerNext(wh, s, ev), k, d);
    case GiveUp(k, u) => assert CallAt(s, k); GiveUpSenders(wh, s, k, u);
  }

  /** Threads other than the callers never send, and leave every request as it is. */
  ghost predicate Quiet(s: State, t: State) {
    && |t.calls| == |s.calls| && |t.conns| == |s.conns|
    && (forall k :: 0 <= k < |s.calls| ==>
          && t.calls[k].request == s.calls[k].request && t.calls[k].written == s.calls[k].written
          && t.calls[k].pc == s.calls[k].pc && (t.calls[k].slot == NoSlot <==> s.calls[k].slot == NoSlot))
    && (forall i :: 0 <= i < |s.conns| ==>
          && t.conns[i].sent == s.conns[i].sent && t.conns[i].order == s.conns[i].order
          && t.conns[i].tail == s.conns[i].tail && t.conns[i].torn == s.conns[i].torn)
  }

  lemma TakenRegistered(s: State, batch: seq<nat>, p: Call -> bool, k: nat)
    requires Ownership(s) && Lists(s, batch, p) && k < |s.calls| && k in batch
    ensures s.calls[k].slot == Slot.InTable
  {
    assert CallAt(s, k);
  }

  lemma TakeQuiet(s: State, t: State, batch: seq<nat>, p: Call -> bool, owner: Slot)
    requires Ownership(s) && Lists(s, batch, p) && owner != NoSlot
    requires t.calls == Claim(s.calls, batch, owner) && t.conns == s.conns
    ensures Quiet(s, t)
  {
    forall k | 0 <= k < |s.calls| && k in batch
      ensures s.calls[k].slot != NoSlot
    {
      TakenRegistered(s, batch, p, k);
    }
  }

  lemma ServeQuiet(s: State, t: State, k: nat, ran: bool, o: Outcome)
    requires k < |s.calls| && s.calls[k].slot != NoSlot && t.calls == s.calls[k := Served(s.calls[k], ran, o)] && t.conns == s.conns
    ensures Quiet(s, t)
  {
  }

  lemma HeldRegistered(s: State, owner: Slot)
    requires Ownership(s) && CustodyOf(s, owner).held != []
    ensures var k := CustodyOf(s, owner).held[0]; k < |s.calls| && s.calls[k].slot != NoSlot
  {
    var k := CustodyOf(s, owner).held[0];
    assert CallAt(s, k);
  }

  lemma LookupQuiet(s: State)
    requires Ownership(s) && s.rx.Reading? && s.rx.conn < |s.conns| && |s.rx.got| >= 12
    ensures Quiet(s, Lookup(s))
  {
    var id := ResponseOf(s.rx.got).requestId;
    if id in s.pending {
      assert CallAt(s, s.pending[id]);
    }
  }

  lemma RxQuiet(s: State, ev: RxEvent)
    requires Ownership(s) && RxEnabled(s, ev)
    ensures Quiet(s, RxNext(s, ev))
  {
    var t := RxNext(s, ev);
    match ev
    case RxTest =>
    case RxBytes(data) =>
    case RxBreak =>
    case RxLookup => LookupQuiet(s);
    case RxRun => HeldRegistered(s, WithRx); ServeQuiet(s, t, s.rx.call, false, Answered(s.rx.body));
    case RxDelete => HeldRegistered(s, WithRx); ServeQuiet(s, t, s.rx.call, true, Failed);
    case RxQuit =>
    case RxSwap(batch) => TakeQuiet(s, t, batch, Any(), WithRx);
    case RxFail => HeldRegistered(s, WithRx); ServeQuiet(s, t, s.rx.batch[0], false, Failed);
    case RxDeleteFailed => HeldRegistered(s, WithRx); ServeQuiet(s, t, s.rx.batch[0], true, Failed);
    case RxEnd =>
  }

  lemma TimerQuiet(s: State, ev: TimerEvent)
    requires Ownership(s) && TimerEnabled(s, ev)
    ensures Quiet(s, TimerNext(s, ev)) && TimerNext(s, ev).conns == s.conns
  {
    var t := TimerNext(s, ev);
    match ev
    case TimerScan(now, batch) => TakeQuiet(s, t, batch, Expired(now), WithTimer);
    case TimerFail => HeldRegistered(s, WithTimer); ServeQuiet(s, t, s.timer.batch[0], false, Failed);
    case TimerDelete => HeldRegistered(s, WithTimer); ServeQuiet(s, t, s.timer.batch[0], true, Failed);
    case TimerRest =>
    case TimerStop =>
  }

  lemma DtorQuiet(s: State, ev: DtorEvent)
    requires Ownership(s) && DtorEnabled(s, ev)
    ensures Quiet(s, DtorNext(s, ev)) && DtorNext(s, ev).conns == s.conns
  {
    var t := DtorNext(s, ev);
    match ev
    case DtorBegin =>
    case DtorJoinTimer =>
    case DtorClose =>
    case DtorJoinRx =>
    case DtorSwap(batch) => TakeQuiet(s, t, batch, Any(), WithDtor);
    case DtorFail => HeldRegistered(s, WithDtor); ServeQuiet(s, t, s.dtor.batch[0], false, Failed);
    case DtorDelete => HeldRegistered(s, WithDtor); ServeQuiet(s, t, s.dtor.batch[0], true, Failed);
    case DtorEnd =>
  }

  lemma QuietSenders(wh: Header -> Bytes, s: State, t: State)
    requires SendersOk(wh, s) && Quiet(s, t)
    ensures SendersOk(wh, t)
  {
    SendersSame(wh, s, t);
  }

  // Receiving.

  /** A complete frame at the front is one response. */
  lemma ReadComplete(got: Bytes, more: Bytes)
    requires Complete(got)
    ensures ReadResponses(got + more) == [ResponseOf(got)] + ReadResponses(more)
  {
    var stream, size := got + more, FromLE(got[..4]);
    assert stream[..4] == got[..4];
    assert stream[4..12] == got[4..12];
    assert stream[12..4 + size] == got[12..];
    assert stream[4 + size..] == more;
  }

  lemma ReadPart(got: Bytes)
    requires PartOk(got) && !Complete(got)
    ensures ReadResponses(got) == []
  {
  }

  lemma PartGrows(got: Bytes, data: Bytes)
    requires PartOk(got) && WellFormed(got) && |data| <= Wanted(got)
    ensures PartOk(got + data)
  {
    if |got| >= 4 {
      assert (got + data)[..4] == got[..4];
    }
  }

  /** Between frames nothing is pending: what was taken is what the bytes say. */
  lemma ReadsAll(c: Conn, got: Bytes)
    requires ReadsAs(c, got) && ReadResponses(got) == []
    ensures ReadResponses(c.recvd) == c.taken
  {
    assert c.recvd + [] == c.recvd && got + [] == got;
    assert ReadResponses(c.recvd + []) == c.taken + ReadResponses(got + []);
  }

  lemma ReadsBytes(c: Conn, got: Bytes, data: Bytes)
    requires ReadsAs(c, got)
    ensures ReadsAs(c.(recvd := c.recvd + data), got + data)
  {
    var d := c.(recvd := c.recvd + data);
    forall more: Bytes
      ensures ReadResponses(d.recvd + more) == d.taken + ReadResponses(got + data + more)
    {
      assert d.recvd + more == c.recvd + (data + more);
      assert got + data + more == got + (data + more);
    }
  }

  lemma ReadsFrame(c: Conn, got: Bytes)
    requires ReadsAs(c, got) && Complete(got)
    ensures ReadsAs(c.(taken := c.taken + [ResponseOf(got)]), [])
  {
    var d := c.(taken := c.taken + [ResponseOf(got)]);
    forall more: Bytes
      ensures ReadResponses(d.recvd + more) == d.taken + ReadResponses([] + more)
    {
      ReadComplete(got, more);
      assert [] + more == more;
      assert c.taken + ([ResponseOf(got)] + ReadResponses(more)) == d.taken + ReadResponses(more);
    }
  }

  lemma ReadsNew()
    ensures ReadsAs(Conn([], [], 0, false, [], []), [])
  {
    forall more: Bytes
      ensures ReadResponses([] + more) == [] + ReadResponses([] + more)
    {
    }
  }

  /** Nothing was read and the reader is where it was, or has gone. */
  ghost predicate SameReads(s: State, t: State) {
    && |t.conns| == |s.conns|
    && (forall i :: 0 <= i < |s.conns| ==> t.conns[i].recvd == s.conns[i].recvd && t.conns[i].taken == s.conns[i].taken)
    && PartOf(t.rx) == PartOf(s.rx) && StillReading(t.rx) == StillReading(s.rx)
    && (StillReading(s.rx) ==> t.rx.conn == s.rx.conn)
  }

  lemma SameReaders(s: State, t: State)
    requires ReadersOk(s) && SameReads(s, t)
    ensures ReadersOk(t)
  {
    forall i | 0 <= i < |t.conns| && StillReading(t.rx) && t.rx.conn == i
      ensures ReadsAs(t.conns[i], PartOf(t.rx))
    {
      assert ReadsAs(s.conns[i], PartOf(s.rx));
    }
  }

  /** The reader leaves its connection between frames or in the middle of one. */
  lemma LeftReaders(s: State, t: State)
    requires ReadersOk(s) && t.conns == s.conns && StillReading(s.rx) && t.rx.Leaving? && ReadResponses(PartOf(s.rx)) == []
    ensures ReadersOk(t)
  {
    forall i | 0 <= i < |t.conns|
      ensures ReadResponses(t.conns[i].recvd) == t.conns[i].taken
    {
      if s.rx.conn == i {
        ReadsAll(s.conns[i], PartOf(s.rx));
      }
    }
  }

  lemma BytesReaders(s: State, data: Bytes)
    requires ReadersOk(s) && ThreadsOk(s) && RxEnabled(s, RxBytes(data))
    ensures ReadersOk(RxNext(s, RxBytes(data)))
  {
    var t, c := RxNext(s, RxBytes(data)), s.rx.conn;
    ReadsBytes(s.conns[c], s.rx.got, data);
    PartGrows(s.rx.got, data);
    assert t.conns[c] == s.conns[c].(recvd := s.conns[c].recvd + data);
  }

  lemma LookupReaders(s: State)
    requires ReadersOk(s) && RxEnabled(s, RxLookup)
    ensures ReadersOk(Lookup(s))
  {
    var t, c := Lookup(s), s.rx.conn;
    ReadsFrame(s.conns[c], s.rx.got);
    assert t.conns[c] == s.conns[c].(taken := s.conns[c].taken + [ResponseOf(s.rx.got)]);
    assert PartOf(t.rx) == [];
  }

  lemma RxReaders(s: State, ev: RxEvent)
    requires ReadersOk(s) && ThreadsOk(s) && RxEnabled(s, ev)
    ensures ReadersOk(RxNext(s, ev))
  {
    var t := RxNext(s, ev);
    match ev
    case RxTest =>
      if s.running {
        SameReaders(s, t);
      } else {
        LeftReaders(s, t);
      }
    case RxBytes(data) => BytesReaders(s, data);
    case RxBreak => ReadPart(s.rx.got); LeftReaders(s, t);
    case RxLookup => LookupReaders(s);
    case RxRun => SameReaders(s, t);
    case RxDelete => SameReaders(s, t);
    case RxQuit => SameReaders(s, t);
    case RxSwap(batch) => SameReaders(s, t);
    case RxFail => SameReaders(s, t);
    case RxDeleteFailed => SameReaders(s, t);
    case RxEnd => SameReaders(s, t);
  }

  lemma DialReaders(s: State, k: nat)
    requires ReadersOk(s) && s.rx == NoThread && k < |s.calls|
    ensures ReadersOk(Dial(s, k))
  {
    ReadsNew();
    var t := Dial(s, k);
    forall i | 0 <= i < |t.conns|
      ensures if i == |s.conns| then ReadsAs(t.conns[i], []) else ReadResponses(t.conns[i].recvd) == t.conns[i].taken
    {
      if i < |s.conns| {
        assert t.conns[i] == s.conns[i];
      }
    }
  }

  lemma CallerReaders(wh: Header -> Bytes, s: State, ev: CallerEvent)
    requires ReadersOk(s) && ThreadsOk(s) && CallerEnabled(wh, s, ev)
    ensures ReadersOk(CallerNext(wh, s, ev))
  {
    if ev.Connect? && ev.c == DialOk {
      DialReaders(s, ev.k);
    } else {
      CallerReads(wh, s, ev);
      SameReaders(s, CallerNext(wh, s, ev));
    }
  }

  lemma CallerReads(wh: Header -> Bytes, s: State, ev: CallerEvent)
    requires CallerEnabled(wh, s, ev) && !(ev.Connect? && ev.c == DialOk)
    ensures SameReads(s, CallerNext(wh, s, ev))
  {
    match ev
    case Begin(host, request) =>
    case Prepare(k, p) => PrepareReads(s, k, p);
    case Connect(k, c) => ConnectReads(s, k, c);
    case Register(k, deadline) =>
    case Send(k, d) => SendReads(wh, s, k, d);
    case GiveUp(k, u) => GiveUpReads(s, k, u);
  }

  lemma PrepareReads(s: State, k: nat, p: PrepareStep)
    requires PrepareEnabled(s, k, p)
    ensures SameReads(s, PrepareNext(s, k, p))
  {
  }

  lemma ConnectReads(s: State, k: nat, c: ConnectStep)
    requires ConnectEnabled(s, k, c) && c != DialOk
    ensures SameReads(s, ConnectNext(s, k, c))
  {
  }

  lemma SendReads(wh: Header -> Bytes, s: State, k: nat, d: SendStep)
    requires SendEnabled(wh, s, k, d)
    ensures SameReads(s, SendNext(wh, s, k, d))
  {
  }

  lemma GiveUpReads(s: State, k: nat, u: GiveUpStep)
    requires GiveUpEnabled(s, k, u)
    ensures SameReads(s, GiveUpNext(s, k, u))
  {
  }

  // Answers.

  lemma CameInStill(conns: seq<Conn>, conns': seq<Conn>, r: Response)
    requires CameIn(conns, r) && |conns'| >= |conns|
    requires forall i :: 0 <= i < |conns| ==> conns[i].taken <= conns'[i].taken
    ensures CameIn(conns', r)
  {
    var i :| 0 <= i < |conns| && r in conns[i].taken;
    assert r in conns'[i].taken;
  }

  /** No answer was given in this step. */
  lemma AnswersSame(s: State, t: State)
    requires AnswersOk(s) && |t.conns| >= |s.conns| && forall i :: 0 <= i < |s.conns| ==> s.conns[i].taken <= t.conns[i].taken
    requires forall k :: 0 <= k < |t.calls| && t.calls[k].outcome.Answered? ==>
      && k < |s.calls| && s.calls[k].outcome == t.calls[k].outcome && s.calls[k].request.requestId == t.calls[k].request.requestId
    requires t.rx.Holding? ==>
      && s.rx.Holding? && s.rx.call == t.rx.call && s.rx.body == t.rx.body && t.rx.call < |t.calls|
      && t.calls[t.rx.call].request.requestId == s.calls[s.rx.call].request.requestId
    ensures AnswersOk(t)
  {
    forall k | 0 <= k < |t.calls| && t.calls[k].outcome.Answered?
      ensures CameIn(t.conns, Response(t.calls[k].request.requestId, t.calls[k].outcome.body))
    {
      CameInStill(s.conns, t.conns, Response(t.calls[k].request.requestId, t.calls[k].outcome.body));
    }
    if t.rx.Holding? {
      CameInStill(s.conns, t.conns, Response(t.calls[t.rx.call].request.requestId, t.rx.body));
    }
  }

  lemma LookupAnswers(s: State)
    requires AnswersOk(s) && IdsOk(s) && s.rx.Reading? && s.rx.conn < |s.conns| && |s.rx.got| >= 12
    ensures AnswersOk(Lookup(s))
  {
    var t, c, r := Lookup(s), s.rx.conn, ResponseOf(s.rx.got);
    assert t.conns[c].taken == s.conns[c].taken + [r];
    assert r in t.conns[c].taken by {
      assert t.conns[c].taken[|s.conns[c].taken|] == r;
    }
    assert CameIn(t.conns, r);
    AnswersSame(s, t.(rx := Testing(c)));
    if r.requestId in s.pending {
      assert t.calls[s.pending[r.requestId]].request.requestId == r.requestId;
    }
  }

  lemma RxAnswers(s: State, ev: RxEvent)
    requires AnswersOk(s) && IdsOk(s) && RxEnabled(s, ev)
    ensures AnswersOk(RxNext(s, ev))
  {
    var t := RxNext(s, ev);
    match ev
    case RxTest => AnswersSame(s, t);
    case RxBytes(data) => AnswersSame(s, t);
    case RxBreak => AnswersSame(s, t);
    case RxLookup => LookupAnswers(s);
    case RxRun =>
    case RxDelete => AnswersSame(s, t);
    case RxQuit => AnswersSame(s, t);
    case RxSwap(batch) => AnswersSame(s, t);
    case RxFail => AnswersSame(s, t);
    case RxDeleteFailed => AnswersSame(s, t);
    case RxEnd => AnswersSame(s, t);
  }

  lemma TimerAnswers(s: State, ev: TimerEvent)
    requires AnswersOk(s) && TimerEnabled(s, ev)
    ensures AnswersOk(TimerNext(s, ev))
  {
    AnswersSame(s, TimerNext(s, ev));
  }

  lemma DtorAnswers(s: State, ev: DtorEvent)
    requires AnswersOk(s) && DtorEnabled(s, ev) && Rest(s)
    ensures AnswersOk(DtorNext(s, ev))
  {
    AnswersSame(s, DtorNext(s, ev));
  }

  /** One call moves on; if it is answered already, or held by the receive thread, it keeps its id. */
  lemma MoveAnswers(s: State, t: State, k: nat)
    requires AnswersOk(s) && k < |s.calls| == |t.calls| && t.calls == s.calls[k := t.calls[k]]
    requires |t.conns| >= |s.conns| && forall i :: 0 <= i < |s.conns| ==> s.conns[i].taken <= t.conns[i].taken
    requires t.rx == s.rx || !t.rx.Holding?
    requires t.calls[k].outcome.Answered? ==> t.calls[k].outcome == s.calls[k].outcome
    requires t.calls[k].outcome.Answered? || (s.rx.Holding? && s.rx.call == k) ==>
      t.calls[k].request.requestId == s.calls[k].request.requestId
    ensures AnswersOk(t)
  {
    AnswersSame(s, t);
  }

  lemma PrepareAnswers(s: State, k: nat, p: PrepareStep)
    requires AnswersOk(s) && PrepareEnabled(s, k, p) && CallAt(s, k)
    ensures AnswersOk(PrepareNext(s, k, p))
  {
    MoveAnswers(s, PrepareNext(s, k, p), k);
  }

  lemma CallerAnswers(wh: Header -> Bytes, s: State, ev: CallerEvent)
    requires AnswersOk(s) && Inv(s) && CallerEnabled(wh, s, ev)
    ensures AnswersOk(CallerNext(wh, s, ev))
  {
    match ev
    case Begin(host, request) => AnswersSame(s, CallerNext(wh, s, ev));
    case Prepare(k, p) => assert CallAt(s, k); PrepareAnswers(s, k, p);
    case Connect(k, c) => ConnectAnswers(s, k, c);
    case Register(k, deadline) => MoveAnswers(s, Registering(s, k, deadline), k);
    case Send(k, d) => SendAnswers(wh, s, k, d);
    case GiveUp(k, u) => MoveAnswers(s, GiveUpNext(s, k, u), k);
  }

  lemma ConnectAnswers(s: State, k: nat, c: ConnectStep)
    requires AnswersOk(s) && ConnectEnabled(s, k, c)
    ensures AnswersOk(ConnectNext(s, k, c))
  {
    MoveAnswers(s, ConnectNext(s, k, c), k);
  }

  lemma SendAnswers(wh: Header -> Bytes, s: State, k: nat, d: SendStep)
    requires AnswersOk(s) && SendEnabled(wh, s, k, d)
    ensures AnswersOk(SendNext(wh, s, k, d))
  {
    MoveAnswers(s, SendNext(wh, s, k, d), k);
  }

  // Runs.

  ghost predicate FullInv(wh: Header -> Bytes, s: State) {
    Inv(s) && StreamInv(wh, s)
  }

  lemma CallerStreams(wh: Header -> Bytes, s: State, ev: CallerEvent)
    requires FullInv(wh, s) && CallerEnabled(wh, s, ev)
    ensures StreamInv(wh, CallerNext(wh, s, ev))
  {
    CallerSenders(wh, s, ev);
    CallerReaders(wh, s, ev);
    CallerAnswers(wh, s, ev);
  }

  lemma RxStreams(wh: Header -> Bytes, s: State, ev: RxEvent)
    requires FullInv(wh, s) && RxEnabled(s, ev)
    ensures StreamInv(wh, RxNext(s, ev))
  {
    RxQuiet(s, ev);
    QuietSenders(wh, s, RxNext(s, ev));
    RxReaders(s, ev);
    RxAnswers(s, ev);
  }

  lemma TimerStreams(wh: Header -> Bytes, s: State, ev: TimerEvent)
    requires FullInv(wh, s) && TimerEnabled(s, ev)
    ensures StreamInv(wh, TimerNext(s, ev))
  {
    TimerQuiet(s, ev);
    QuietSenders(wh, s, TimerNext(s, ev));
    SameReaders(s, TimerNext(s, ev));
    TimerAnswers(s, ev);
  }

  lemma DtorStreams(wh: Header -> Bytes, s: State, ev: DtorEvent)
    requires FullInv(wh, s) && DtorEnabled(s, ev)
    ensures StreamInv(wh, DtorNext(s, ev))
  {
    DtorQuiet(s, ev);
    QuietSenders(wh, s, DtorNext(s, ev));
    SameReaders(s, DtorNext(s, ev));
    DtorAnswers(s, ev);
  }

  lemma StepStreams(wh: Header -> Bytes, s: State, ev: Event, t: State)
    requires FullInv(wh, s) && Step(wh, s, ev, t)
    ensures StreamInv(wh, t)
  {
    match ev
    case Caller(c) => CallerStreams(wh, s, c);
    case Rx(r) => RxStreams(wh, s, r);
    case Timer(e) => TimerStreams(wh, s, e);
    case Dtor(d) => DtorStreams(wh, s, d);
  }

  lemma {:induction false} RunsKeepStreams(wh: Header -> Bytes, evs: seq<Event>, s: State)
    requires Leads(wh, evs, s)
    ensures FullInv(wh, s)
    decreases |evs|
  {
    if evs == [] {
    } else {
      var s0 :| LeadsVia(wh, evs, s0, s);
      RunsKeepStreams(wh, evs[..|evs| - 1], s0);
      StepKeeps(wh, s0, evs[|evs| - 1], s);
      StepStreams(wh, s0, evs[|evs| - 1], s);
    }
  }

  lemma ReachableSenders(wh: Header -> Bytes, s: State)
    requires Reachable(wh, s)
    ensures SendersOk(wh, s)
  {
    ReachableStreams(wh, s);
  }

  lemma ReachableStreams(wh: Header -> Bytes, s: State)
    requires Reachable(wh, s)
    ensures FullInv(wh, s)
  {
    var evs :| Leads(wh, evs, s);
    RunsKeepStreams(wh, evs, s);
  }
}
