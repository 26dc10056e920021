/** When a connection is torn: frames after one that was cut off, or the rest of one that began elsewhere. */
module ChannelTorn {
  import opened ByteStrings
  import opened Wire
  import opened Channel
  import opened ChannelSafety
  import opened ChannelStreams
  import ChannelRun

  // When a send tears its connection.

  /** If the sender's frame has begun on this connection, it is the last one there, up to what was written of it. */
  predicate AtEnd(c: Conn, k: nat, written: nat) {
    !c.torn && k in c.order ==> Last(c) == k && c.tail == written
  }

  ghost predicate SenderOk(s: State) {
    s.fd.Some? && s.fd.value < |s.conns| ==>
      forall k :: 0 <= k < |s.calls| && s.calls[k].pc == Sending ==> AtEnd(s.conns[s.fd.value], k, s.calls[k].written)
  }

  lemma QuietSender(s: State, t: State)
    requires SenderOk(s) && Quiet(s, t) && (t.fd == s.fd || t.fd == None)
    ensures SenderOk(t)
  {
    if t.fd.Some? && t.fd.value < |t.conns| {
      var c, d := s.conns[s.fd.value], t.conns[t.fd.value];
      forall k | 0 <= k < |t.calls| && t.calls[k].pc == Sending
        ensures AtEnd(d, k, t.calls[k].written)
      {
        assert AtEnd(c, k, s.calls[k].written);
      }
    }
  }

  /** One call moves on, not to sending. */
  lemma MoveSender(s: State, t: State, k: nat)
    requires SenderOk(s) && k < |s.calls| == |t.calls| && t.calls == s.calls[k := t.calls[k]] && t.conns == s.conns
    requires t.calls[k].pc != Sending && (t.fd == s.fd || t.fd == None)
    ensures SenderOk(t)
  {
  }

  lemma ConnectSender(s: State, k: nat, c: ConnectStep)
    requires SenderOk(s) && ConnectEnabled(s, k, c)
    ensures SenderOk(ConnectNext(s, k, c))
  {
    var t := ConnectNext(s, k, c);
    if c == DialOk {
      assert t.conns[t.fd.value].order == [];
    } else {
      MoveSender(s, t, k);
    }
  }

  lemma LockSender(s: State, t: State, k: nat)
    requires SenderOk(s) && k < |s.calls| == |t.calls| && t.calls == s.calls[k := t.calls[k]] && t.conns == s.conns && t.fd == s.fd
    requires t.calls[k].written == s.calls[k].written == 0
    requires forall i :: 0 <= i < |s.conns| ==> OrderOk(s.calls, s.conns[i])
    ensures SenderOk(t)
  {
    if t.fd.Some? && t.fd.value < |t.conns| {
      assert OrderOk(s.calls, s.conns[s.fd.value]);
      assert k !in t.conns[t.fd.value].order;
    }
  }

  lemma WriteAtEnd(wh: Header -> Bytes, s: State, c: Conn, k: nat, n: nat)
    requires k < |s.calls| && 0 < n && s.calls[k].written + n <= |FrameOf(wh, s.calls[k])|
    requires AtEnd(c, k, s.calls[k].written) && OrderOk(s.calls, c)
    ensures AtEnd(Write(wh, s, c, k, n), k, s.calls[k].written + n)
  {
  }

  lemma SendSomeSender(wh: Header -> Bytes, s: State, t: State, k: nat, n: nat)
    requires SenderOk(s) && LocksOk(s) && SendersOk(wh, s) && SendEnabled(wh, s, k, SendSome(n))
    requires t.calls == s.calls[k := s.calls[k].(written := s.calls[k].written + n)] && t.fd == s.fd
    requires t.conns == s.conns[s.fd.value := Write(wh, s, s.conns[s.fd.value], k, n)]
    ensures SenderOk(t)
  {
    var c := s.conns[s.fd.value];
    assert AtEnd(c, k, s.calls[k].written);
    WriteAtEnd(wh, s, c, k, n);
    forall j | 0 <= j < |t.calls| && t.calls[j].pc == Sending
      ensures j == k
    {
      assert s.calls[j].pc == Sending;
    }
  }

  lemma SendSender(wh: Header -> Bytes, s: State, t: State, k: nat, d: SendStep)
    requires SenderOk(s) && LocksOk(s) && SendersOk(wh, s) && SendEnabled(wh, s, k, d) && t == SendNext(wh, s, k, d)
    ensures SenderOk(t)
  {
    match d
    case LockSend => LockSender(s, t, k);
    case SendSome(n) => SendSomeState(wh, s, t, k, n); SendSomeSender(wh, s, t, k, n);
    case SendError => MoveSender(s, t, k);
    case SendDone => MoveSender(s, t, k);
  }

  lemma PrepareSender(s: State, k: nat, p: PrepareStep)
    requires SenderOk(s) && PrepareEnabled(s, k, p)
    ensures SenderOk(PrepareNext(s, k, p))
  {
    MoveSender(s, PrepareNext(s, k, p), k);
  }

  lemma GiveUpSender(s: State, k: nat, u: GiveUpStep)
    requires SenderOk(s) && GiveUpEnabled(s, k, u)
    ensures SenderOk(GiveUpNext(s, k, u))
  {
    MoveSender(s, GiveUpNext(s, k, u), k);
  }

  lemma BeginSender(s: State, c: Call)
    requires SenderOk(s) && c.pc == Fresh
    ensures SenderOk(s.(calls := s.calls + [c]))
  {
  }

  lemma CallerSender(wh: Header -> Bytes, s: State, ev: CallerEvent)
    requires SenderOk(s) && LocksOk(s) && SendersOk(wh, s) && CallerEnabled(wh, s, ev)
    ensures SenderOk(CallerNext(wh, s, ev))
  {
    var t := CallerNext(wh, s, ev);
    match ev
    case Begin(host, request) => BeginSender(s, NewCall(host, request));
    case Prepare(k, p) => PrepareSender(s, k, p);
    case Connect(k, c) => ConnectSender(s, k, c);
    case Register(k, deadline) => MoveSender(s, t, k);
    case Send(k, d) => SendSender(wh, s, t, k, d);
    case GiveUp(k, u) => GiveUpSender(s, k, u);
  }

  lemma RxSender(s: State, ev: RxEvent)
    requires Ownership(s) && SenderOk(s) && RxEnabled(s, ev)
    ensures SenderOk(RxNext(s, ev))
  {
    RxQuiet(s, ev);
    QuietSender(s, RxNext(s, ev));
  }

  lemma StepSender(wh: Header -> Bytes, s: State, ev: Event, t: State)
    requires Inv(s) && SendersOk(wh, s) && SenderOk(s) && Step(wh, s, ev, t)
    ensures SenderOk(t)
  {
    match ev
    case Caller(c) => CallerSender(wh, s, c);
    case Rx(r) => RxSender(s, r);
    case Timer(x) => TimerQuiet(s, x); QuietSender(s, t);
    case Dtor(d) => DtorQuiet(s, d); QuietSender(s, t);
  }

  lemma {:induction false} RunsKeepSender(wh: Header -> Bytes, evs: seq<Event>, s: State)
    requires Leads(wh, evs, s)
    ensures SenderOk(s)
    decreases |evs|
  {
    if evs != [] {
      var s0 :| LeadsVia(wh, evs, s0, s);
      RunsKeepSender(wh, evs[..|evs| - 1], s0);
      assert Reachable(wh, s0);
      ReachableOk(wh, s0);
      ReachableSenders(wh, s0);
      StepSender(wh, s0, evs[|evs| - 1], s);
    }
  }

  /** The frame last begun on the connection is not complete. */
  predicate CutOff(wh: Header -> Bytes, s: State, c: Conn) {
    c.order != [] && Last(c) < |s.calls| && c.tail < |FrameOf(wh, s.calls[Last(c)])|
  }

  /** A send tears its connection exactly if it begins a frame after one that was cut off, or goes on with a frame
      that did not begin there. */
  lemma SendTearsIff(wh: Header -> Bytes, s: State, k: nat, n: nat)
    requires Reachable(wh, s) && SendEnabled(wh, s, k, SendSome(n)) && !s.conns[s.fd.value].torn
    ensures var c := s.conns[s.fd.value];
      SendNext(wh, s, k, SendSome(n)).conns[s.fd.value].torn <==>
        if s.calls[k].written == 0 then CutOff(wh, s, c) else k !in c.order
  {
    var evs :| Leads(wh, evs, s);
    RunsKeepSender(wh, evs, s);
    ReachableSenders(wh, s);
    var c := s.conns[s.fd.value];
    assert AtEnd(c, k, s.calls[k].written) && OrderOk(s.calls, c);
    WriteTears(wh, s, c, k, n);
  }

  lemma WriteTears(wh: Header -> Bytes, s: State, c: Conn, k: nat, n: nat)
    requires k < |s.calls| && 0 < n && s.calls[k].written + n <= |FrameOf(wh, s.calls[k])|
    requires !c.torn && AtEnd(c, k, s.calls[k].written) && OrderOk(s.calls, c) && SentWhole(wh, s.calls, c)
    ensures Write(wh, s, c, k, n).torn <==> if s.calls[k].written == 0 then CutOff(wh, s, c) else k !in c.order
  {
    if c.order != [] {
      assert c.order[|c.order| - 1] == Last(c) && Last(c) in c.order;
    }
  }

  // A run to a torn connection.

  function Id2(request: Request): Request {
    request.(requestId := 2)
  }

  /** Bytes of the first call's frame, then the whole frame of the second. */
  function Cut(wh: Header -> Bytes, r0: Request, n: nat): Conn
    requires n <= |RequestFrame(wh, ChannelRun.Id1(r0))|
  {
    Conn(RequestFrame(wh, ChannelRun.Id1(r0))[..n], [0], n, false, [], [])
  }

  function TornBy(wh: Header -> Bytes, c: Conn, r1: Request): Conn {
    c.(sent := c.sent + RequestFrame(wh, Id2(r1)), torn := true)
  }

  /** The first send fails in mid-frame, and the second call finds the connection usable. */
  lemma SecondSends(wh: Header -> Bytes, host: nat, r0: Request, r1: Request, n: nat) returns (s: State)
    requires 0 < n < |RequestFrame(wh, ChannelRun.Id1(r0))|
    ensures Reachable(wh, s) && s.conns == [Cut(wh, r0, n)] && s.fd == Some(0)
    ensures s.calls == [ChannelRun.CallAs(SendFailed, host, ChannelRun.Id1(r0), n, Slot.InTable),
                        ChannelRun.CallAs(Sending, host, Id2(r1), 0, Slot.InTable)]
  {
    ChannelRun.FirstSent(wh, host, r0, n);
    var s0 := ChannelRun.First(host, Sending, r0, n, Cut(wh, r0, n), Some(0));
    var s1 := ChannelRun.First(host, SendFailed, r0, n, Cut(wh, r0, n), None);
    ChannelRun.OneStep(wh, s0, Caller(Send(0, SendError)), s1);
    ChannelRun.CallAddressed(wh, s1, host, r1);
    var s2 := s1.(nextId := 3);
    ChannelRun.CallReuses(wh, s2, host, Id2(r1));
    ChannelRun.CallSends(wh, s2, host, Id2(r1));
    s := ChannelRun.Added(ChannelRun.Waits(s2, Id2(r1)), Sending, host, Id2(r1), Slot.InTable);
  }

  lemma SecondTears(wh: Header -> Bytes, host: nat, r0: Request, r1: Request, n: nat) returns (t: State)
    requires 0 < n < |RequestFrame(wh, ChannelRun.Id1(r0))|
    ensures Reachable(wh, t) && t.conns == [TornBy(wh, Cut(wh, r0, n), r1)]
    ensures |t.calls| == 2 && t.calls[0].request == ChannelRun.Id1(r0) && t.calls[1].request == Id2(r1)
  {
    var s := SecondSends(wh, host, r0, r1, n);
    var frame := RequestFrame(wh, Id2(r1));
    t := SendNext(wh, s, 1, SendSome(|frame|));
    assert frame[0..|frame|] == frame;
    assert Write(wh, s, s.conns[0], 1, |frame|) == TornBy(wh, Cut(wh, r0, n), r1);
    ChannelRun.OneStep(wh, s, Caller(Send(1, SendSome(|frame|))), t);
  }

  /** The first call's message with the second's frame in the place of the end of its arguments. */
  function Mixed(wh: Header -> Bytes, m0: Request, m1: Request): Request
    requires |RequestFrame(wh, m1)| <= |m0.args|
  {
    m0.(args := m0.args[..|m0.args| - |RequestFrame(wh, m1)|] + RequestFrame(wh, m1))
  }

  lemma CutBytes(wh: Header -> Bytes, m0: Request, m1: Request, n: nat)
    requires |RequestFrame(wh, m1)| <= |m0.args| && n == |RequestFrame(wh, m0)| - |RequestFrame(wh, m1)|
    ensures RequestFrame(wh, m0)[..n] + RequestFrame(wh, m1) == RequestFrame(wh, Mixed(wh, m0, m1))
  {
    var header, f1 := wh(HeaderOf(m0)), RequestFrame(wh, m1);
    assert HeaderOf(Mixed(wh, m0, m1)) == HeaderOf(m0);
    var head := LE(|header|, 4) + header;
    assert RequestFrame(wh, m0) == head + m0.args;
    assert (head + m0.args)[..n] == head + m0.args[..|m0.args| - |f1|];
    assert head + (m0.args[..|m0.args| - |f1|] + f1) == head + m0.args[..|m0.args| - |f1|] + f1;
  }

  /** On a torn connection a provider can dispatch a request that nobody sent: the first call's header, cut off in its
      arguments, swallows the second call's frame. */
  lemma UnsentRequest(wh: Header -> Bytes, g: Registry, host: nat, r0: Request, r1: Request) returns (s: State)
    requires Lawful(g, wh) && |RequestFrame(wh, Id2(r1))| <= |r0.args|
    requires var x := Mixed(wh, ChannelRun.Id1(r0), Id2(r1)); Fits(wh, x) && Accepted(g, wh, x) && x.args != r0.args
    ensures Reachable(wh, s) && |s.conns| == 1 && s.conns[0].torn
    ensures Drain(g, s.conns[0].sent).requests == [Mixed(wh, ChannelRun.Id1(r0), Id2(r1))]
    ensures forall k :: 0 <= k < |s.calls| ==> s.calls[k].request !in Drain(g, s.conns[0].sent).requests
  {
    var m0, m1 := ChannelRun.Id1(r0), Id2(r1);
    var n := |RequestFrame(wh, m0)| - |RequestFrame(wh, m1)|;
    s := SecondTears(wh, host, r0, r1, n);
    CutBytes(wh, m0, m1, n);
    FrameAlone(g, wh, Mixed(wh, m0, m1));
    OnlyRequest(g, s.conns[0].sent, Mixed(wh, m0, m1), m0, m1);
  }

  lemma OnlyRequest(g: Registry, sent: Bytes, x: Request, m0: Request, m1: Request)
    requires Drain(g, sent) == Drained([x], false, []) && x != m0 && x != m1
    ensures m0 !in Drain(g, sent).requests && m1 !in Drain(g, sent).requests
  {
  }
}
