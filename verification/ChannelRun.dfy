/** Runs of the channel, put together step by step. */
module ChannelRun {
  import opened ByteStrings
  import opened Wire
  import opened Channel

  lemma OneStep(wh: Header -> Bytes, s: State, ev: Event, s': State)
    requires Reachable(wh, s) && Step(wh, s, ev, s')
    ensures Reachable(wh, s')
  {
    var past :| Leads(wh, past, s);
    var all := past + [ev];
    assert all[..|all| - 1] == past && all[|all| - 1] == ev;
    assert LeadsVia(wh, all, s, s');
    assert Leads(wh, all, s');
  }

  lemma AtStart(wh: Header -> Bytes)
    ensures Reachable(wh, Start())
  {
    assert Leads(wh, [], Start());
  }

  function CallAs(pc: Pc, host: nat, request: Request, written: nat, slot: Slot): Call {
    Call(pc, host, request, written, None, slot, 0, 0, Unset)
  }

  // One more call.

  function Added(s: State, pc: Pc, host: nat, request: Request, slot: Slot): State {
    s.(calls := s.calls + [CallAs(pc, host, request, 0, slot)])
  }

  lemma AddedPut(s: State, pc: Pc, pc': Pc, host: nat, m: Request, m': Request, slot: Slot, slot': Slot)
    ensures Put(Added(s, pc, host, m, slot), |s.calls|, CallAs(pc', host, m', 0, slot')) == Added(s, pc', host, m', slot')
  {
    assert (s.calls + [CallAs(pc, host, m, 0, slot)])[|s.calls| := CallAs(pc', host, m', 0, slot')]
        == s.calls + [CallAs(pc', host, m', 0, slot')];
  }

  /** A call is made, gets the next id and an address. */
  lemma CallAddressed(wh: Header -> Bytes, s: State, host: nat, request: Request)
    requires Reachable(wh, s) && s.dtor == Alive
    ensures Reachable(wh, Added(s.(nextId := s.nextId + 1), Addressed, host, request.(requestId := s.nextId), NoSlot))
  {
    var k, m0, m := |s.calls|, request.(requestId := 0), request.(requestId := s.nextId);
    var s1 := Added(s, Fresh, host, m0, NoSlot);
    OneStep(wh, s, Caller(Begin(host, request)), s1);
    var t := s.(nextId := s.nextId + 1);
    AddedPut(s, Fresh, Numbered, host, m0, m, NoSlot, NoSlot);
    OneStep(wh, s1, Caller(Prepare(k, Number)), Added(t, Numbered, host, m, NoSlot));
    AddedPut(t, Numbered, Addressed, host, m, m, NoSlot, NoSlot);
    OneStep(wh, Added(t, Numbered, host, m, NoSlot), Caller(Prepare(k, Resolve)), Added(t, Addressed, host, m, NoSlot));
  }

  /** It finds the connection usable. */
  lemma CallReuses(wh: Header -> Bytes, s: State, host: nat, m: Request)
    requires Reachable(wh, Added(s, Addressed, host, m, NoSlot)) && s.connMtx == None
    requires s.fd.Some? && s.running && s.host == Some(host)
    ensures Reachable(wh, Added(s, Connected, host, m, NoSlot))
  {
    var k := |s.calls|;
    AddedPut(s, Addressed, Locked, host, m, m, NoSlot, NoSlot);
    var s1 := Added(s, Locked, host, m, NoSlot).(connMtx := Some(k));
    OneStep(wh, Added(s, Addressed, host, m, NoSlot), Caller(Connect(k, LockConn)), s1);
    AddedPut(s, Locked, Connected, host, m, m, NoSlot, NoSlot);
    OneStep(wh, s1, Caller(Connect(k, Reuse)), Added(s, Connected, host, m, NoSlot));
  }

  function Dialled(s: State, host: nat): State {
    s.(conns := s.conns + [Conn([], [], 0, false, [], [])], fd := Some(|s.conns|), host := Some(host),
       running := true, rx := Testing(|s.conns|))
  }

  /** There is no connection yet: nothing to close, no thread to join. */
  lemma CallClears(wh: Header -> Bytes, s: State, host: nat, m: Request)
    requires Reachable(wh, Added(s, Addressed, host, m, NoSlot)) && s.connMtx == None
    requires s.fd == None && s.rx.NoThread?
    ensures Reachable(wh, Added(s, Dialing, host, m, NoSlot).(connMtx := Some(|s.calls|), host := None))
  {
    var k := |s.calls|;
    AddedPut(s, Addressed, Locked, host, m, m, NoSlot, NoSlot);
    var s1 := Added(s, Locked, host, m, NoSlot).(connMtx := Some(k));
    OneStep(wh, Added(s, Addressed, host, m, NoSlot), Caller(Connect(k, LockConn)), s1);
    AddedPut(s, Locked, Joining, host, m, m, NoSlot, NoSlot);
    var s2 := Added(s, Joining, host, m, NoSlot).(connMtx := Some(k));
    OneStep(wh, s1, Caller(Connect(k, CloseOld)), s2);
    AddedPut(s, Joining, Dialing, host, m, m, NoSlot, NoSlot);
    OneStep(wh, s2, Caller(Connect(k, JoinRx)), Added(s, Dialing, host, m, NoSlot).(connMtx := Some(k), host := None));
  }

  lemma CallDials(wh: Header -> Bytes, s: State, host: nat, m: Request)
    requires Reachable(wh, Added(s, Addressed, host, m, NoSlot)) && s.connMtx == None
    requires s.fd == None && s.rx.NoThread?
    ensures Reachable(wh, Added(Dialled(s, host), Connected, host, m, NoSlot))
  {
    CallClears(wh, s, host, m);
    AddedPut(s, Dialing, Connected, host, m, m, NoSlot, NoSlot);
    OneStep(wh, Added(s, Dialing, host, m, NoSlot).(connMtx := Some(|s.calls|), host := None),
            Caller(Connect(|s.calls|, DialOk)), Added(Dialled(s, host), Connected, host, m, NoSlot));
  }

  function Waits(s: State, m: Request): State {
    s.(pending := s.pending[m.requestId := |s.calls|], sendMtx := Some(|s.calls|))
  }

  /** It registers and takes the send lock. */
  lemma CallSends(wh: Header -> Bytes, s: State, host: nat, m: Request)
    requires Reachable(wh, Added(s, Connected, host, m, NoSlot)) && s.sendMtx == None
    ensures Reachable(wh, Added(Waits(s, m), Sending, host, m, InTable))
  {
    var k := |s.calls|;
    AddedPut(s, Connected, Registered, host, m, m, NoSlot, InTable);
    var s1 := Added(s, Registered, host, m, InTable).(pending := s.pending[m.requestId := k]);
    OneStep(wh, Added(s, Connected, host, m, NoSlot), Caller(Register(k, None)), s1);
    AddedPut(s, Registered, Sending, host, m, m, InTable, InTable);
    OneStep(wh, s1, Caller(Send(k, LockSend)), Added(Waits(s, m), Sending, host, m, InTable));
  }

  // The first call.

  function Id1(request: Request): Request {
    request.(requestId := 1)
  }

  /** The channel with its first connection and its first call on it. */
  function First(host: nat, pc: Pc, request: Request, written: nat, c: Conn, sender: Option<nat>): State {
    State([CallAs(pc, host, Id1(request), written, InTable)], map[1 := 0], 2, [c], Some(0), Some(host), true,
          None, sender, Testing(0), Waiting, true, Alive)
  }

  function Idle(): Conn {
    Conn([], [], 0, false, [], [])
  }

  lemma FirstSends(wh: Header -> Bytes, host: nat, request: Request)
    ensures Reachable(wh, First(host, Sending, request, 0, Idle(), Some(0)))
  {
    AtStart(wh);
    CallAddressed(wh, Start(), host, request);
    var s := Start().(nextId := 2);
    CallDials(wh, s, host, Id1(request));
    CallSends(wh, Dialled(s, host), host, Id1(request));
    var t := Added(Waits(Dialled(s, host), Id1(request)), Sending, host, Id1(request), InTable);
    assert t.calls == [CallAs(Sending, host, Id1(request), 0, InTable)] && t.conns == [Idle()];
    assert t.pending == map[1 := 0];
  }

  /** The kernel takes the first n bytes of its frame. */
  lemma FirstSent(wh: Header -> Bytes, host: nat, request: Request, n: nat)
    requires 0 < n <= |RequestFrame(wh, Id1(request))|
    ensures Reachable(wh, First(host, Sending, request, n, Conn(RequestFrame(wh, Id1(request))[..n], [0], n, false, [], []), Some(0)))
  {
    var frame := RequestFrame(wh, Id1(request));
    FirstSends(wh, host, request);
    var s := First(host, Sending, request, 0, Idle(), Some(0));
    var c := Conn(frame[..n], [0], n, false, [], []);
    assert [] + frame[0..n] == frame[..n];
    assert Write(wh, s, Idle(), 0, n) == c;
    OneStep(wh, s, Caller(Send(0, SendSome(n))), First(host, Sending, request, n, c, Some(0)));
  }

  // Its answer.

  function Reads(s: State, got: Bytes): State
    requires |s.conns| == 1
  {
    s.(rx := Reading(0, got), conns := [s.conns[0].(recvd := got)])
  }

  lemma ReadMore(wh: Header -> Bytes, s: State, got: Bytes, data: Bytes)
    requires |s.conns| == 1 && s.fd == Some(0) && Reachable(wh, Reads(s, got))
    requires WellFormed(got) && 0 < |data| <= Wanted(got)
    ensures Reachable(wh, Reads(s, got + data))
  {
    var t := Reads(s, got + data);
    assert [s.conns[0].(recvd := got)][0 := s.conns[0].(recvd := got + data)] == t.conns;
    OneStep(wh, Reads(s, got), Rx(RxBytes(data)), t);
  }

  /** A whole response frame is read, part by part. */
  lemma ReadFrame(wh: Header -> Bytes, s: State, r: Response)
    requires |s.conns| == 1 && s.fd == Some(0) && Reachable(wh, Reads(s, [])) && ResponseFits(r)
    ensures Reachable(wh, Reads(s, ResponseFrame(r.requestId, r.body))) && Complete(ResponseFrame(r.requestId, r.body))
    ensures ResponseOf(ResponseFrame(r.requestId, r.body)) == r
  {
    var size, id := LE(8 + |r.body|, 4), LE(r.requestId, 8);
    LERoundTrip(8 + |r.body|, 4);
    LERoundTrip(r.requestId, 8);
    assert [] + size == size;
    ReadMore(wh, s, [], size);
    assert size[..4] == size;
    ReadMore(wh, s, size, id);
    var head := size + id;
    assert head[..4] == size;
    var all := ResponseFrame(r.requestId, r.body);
    assert all == head + r.body && all[..4] == size && all[4..12] == id && all[12..] == r.body;
    if r.body != [] {
      ReadMore(wh, s, head, r.body);
    } else {
      assert head + [] == head;
    }
  }

  function Whole(wh: Header -> Bytes, m: Request): Conn {
    Conn(RequestFrame(wh, m), [0], |RequestFrame(wh, m)|, false, [], [])
  }

  /** The first call of a channel, answered. */
  function AnsweredFirst(wh: Header -> Bytes, host: nat, request: Request, body: Bytes): State {
    var m := Id1(request);
    First(host, Sending, request, |RequestFrame(wh, m)|,
          Whole(wh, m).(recvd := ResponseFrame(1, body), taken := [Response(1, body)]), Some(0))
    .(calls := [Ran(CallAs(Sending, host, m, |RequestFrame(wh, m)|, WithRx), Answered(body))],
      pending := map[], rx := Holding(0, 0, body, true))
  }

  lemma FirstAnswered(wh: Header -> Bytes, host: nat, request: Request, body: Bytes)
    requires ResponseFits(Response(1, body))
    ensures Reachable(wh, AnsweredFirst(wh, host, request, body))
  {
    var m, n := Id1(request), |RequestFrame(wh, Id1(request))|;
    assert RequestFrame(wh, m)[..n] == RequestFrame(wh, m);
    FirstSent(wh, host, request, n);
    var s := First(host, Sending, request, n, Whole(wh, m), Some(0));
    OneStep(wh, s, Rx(RxTest), Reads(s, []));
    var got := ResponseFrame(1, body);
    ReadFrame(wh, s, Response(1, body));
    var t := AnsweredFirst(wh, host, request, body);
    var held := t.(calls := [CallAs(Sending, host, m, n, WithRx)], rx := Holding(0, 0, body, false));
    FirstFound(Reads(s, got), held, m, body);
    OneStep(wh, Reads(s, got), Rx(RxLookup), held);
    assert [held.calls[0]][0 := t.calls[0]] == t.calls;
    OneStep(wh, held, Rx(RxRun), t);
  }

  lemma FirstFound(s: State, held: State, m: Request, body: Bytes)
    requires |s.calls| == 1 && |s.conns| == 1 && s.pending == map[1 := 0] && s.rx == Reading(0, ResponseFrame(1, body))
    requires ResponseOf(ResponseFrame(1, body)) == Response(1, body) && s.conns[0].taken == []
    requires held == s.(calls := [s.calls[0].(slot := WithRx)], pending := map[],
                        conns := [s.conns[0].(taken := [Response(1, body)])], rx := Holding(0, 0, body, false))
    ensures Lookup(s) == held
  {
    assert [s.calls[0]][0 := s.calls[0].(slot := WithRx)] == held.calls && s.calls == [s.calls[0]];
    assert s.conns == [s.conns[0]] && [] + [Response(1, body)] == [Response(1, body)];
    assert s.pending - {1} == map[];
  }
}
