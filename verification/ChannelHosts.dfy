/**
  A request can go to the wrong host: ensureConnected is left before sendLocked is entered, and in between another caller
  may have connected the channel to a host of its own.
 */
module ChannelHosts {
  import opened ByteStrings
  import opened Wire
  import opened Channel
  import opened ChannelSafety
  import opened ChannelRun

  /** Two calls, to hosts a and b, on a channel that has had the first `dials` connections. */
  function Two(c0: Call, c1: Call, pending: map<nat, nat>, dials: nat, fd: Option<nat>, host: Option<nat>, running: bool,
               connMtx: Option<nat>, sendMtx: Option<nat>, rx: Rx): State {
    State([c0, c1], pending, 3, seq(dials, _ => Conn([], [], 0, false, [], [])), fd, host, running, connMtx, sendMtx, rx,
          Waiting, true, Alive)
  }

  function Id2(request: Request): Request {
    request.(requestId := 2)
  }

  /** The first call is connected to its host, the second has its address. */
  lemma BothAddressed(wh: Header -> Bytes, a: nat, b: nat, m: Request, n: Request)
    ensures Reachable(wh, Two(CallAs(Connected, a, Id1(m), 0, NoSlot), CallAs(Addressed, b, Id2(n), 0, NoSlot),
                              map[], 1, Some(0), Some(a), true, None, None, Testing(0)))
  {
    AtStart(wh);
    CallAddressed(wh, Start(), a, m);
    var s := Start().(nextId := 2);
    CallDials(wh, s, a, Id1(m));
    var t := Added(Dialled(s, a), Connected, a, Id1(m), NoSlot);
    CallAddressed(wh, t, b, n);
    var u := Added(t.(nextId := 3), Addressed, b, Id2(n), NoSlot);
    assert u.calls == [CallAs(Connected, a, Id1(m), 0, NoSlot), CallAs(Addressed, b, Id2(n), 0, NoSlot)];
    assert u.conns == seq(1, _ => Conn([], [], 0, false, [], []));
  }

  /** Moving the second call on. */
  lemma SecondMoves(c0: Call, c1: Call, pc: Pc, s: State)
    requires s.calls == [c0, c1]
    ensures Goto(s, 1, pc) == s.(calls := [c0, c1.(pc := pc)])
  {
    assert [c0, c1][1 := c1.(pc := pc)] == [c0, c1.(pc := pc)];
  }

  /** The second call finds the wrong host and closes the connection. */
  lemma SecondCloses(wh: Header -> Bytes, a: nat, b: nat, c0: Call, c1: Call)
    requires a != b && c1.host == b && c1.pc == Addressed
    requires Reachable(wh, Two(c0, c1, map[], 1, Some(0), Some(a), true, None, None, Testing(0)))
    ensures Reachable(wh, Two(c0, c1.(pc := Joining), map[], 1, None, Some(a), true, Some(1), None, Testing(0)))
  {
    var s := Two(c0, c1, map[], 1, Some(0), Some(a), true, None, None, Testing(0));
    SecondMoves(c0, c1, Locked, s);
    var t := Two(c0, c1.(pc := Locked), map[], 1, Some(0), Some(a), true, Some(1), None, Testing(0));
    OneStep(wh, s, Caller(Connect(1, LockConn)), t);
    SecondMoves(c0, c1.(pc := Locked), Joining, t);
    OneStep(wh, t, Caller(Connect(1, CloseOld)),
            Two(c0, c1.(pc := Joining), map[], 1, None, Some(a), true, Some(1), None, Testing(0)));
  }

  /** The receive thread finds its connection closed and leaves; nobody waits yet. */
  lemma ReaderLeaves(wh: Header -> Bytes, a: nat, c0: Call, c1: Call)
    requires Reachable(wh, Two(c0, c1, map[], 1, None, Some(a), true, Some(1), None, Testing(0)))
    ensures Reachable(wh, Two(c0, c1, map[], 1, None, Some(a), false, Some(1), None, Ended(0)))
  {
    var s := Two(c0, c1, map[], 1, None, Some(a), true, Some(1), None, Testing(0));
    OneStep(wh, s, Rx(RxTest), s.(rx := Reading(0, [])));
    OneStep(wh, s.(rx := Reading(0, [])), Rx(RxBreak), s.(rx := Leaving(0)));
    var q := s.(rx := Quitting(0), running := false);
    OneStep(wh, s.(rx := Leaving(0)), Rx(RxQuit), q);
    NobodyWaits(q);
    OneStep(wh, q, Rx(RxSwap([])), q.(rx := Clearing(0, [], false)));
    OneStep(wh, q.(rx := Clearing(0, [], false)), Rx(RxEnd), q.(rx := Ended(0)));
  }

  lemma NobodyWaits(s: State)
    requires s.pending == map[]
    ensures Lists(s, [], Any()) && Take(s, [], WithRx) == s
  {
    assert Claim(s.calls, [], WithRx) == s.calls;
    assert Without(s, []) == map[];
  }

  /** The second call connects the channel to its own host. */
  lemma SecondDials(wh: Header -> Bytes, a: nat, b: nat, c0: Call, c1: Call)
    requires c1.host == b && c1.pc == Joining
    requires Reachable(wh, Two(c0, c1, map[], 1, None, Some(a), false, Some(1), None, Ended(0)))
    ensures Reachable(wh, Two(c0, c1.(pc := Connected), map[], 2, Some(1), Some(b), true, None, None, Testing(1)))
  {
    var s := Two(c0, c1, map[], 1, None, Some(a), false, Some(1), None, Ended(0));
    SecondMoves(c0, c1, Dialing, s);
    var t := Two(c0, c1.(pc := Dialing), map[], 1, None, None, false, Some(1), None, NoThread);
    OneStep(wh, s, Caller(Connect(1, JoinRx)), t);
    SecondMoves(c0, c1.(pc := Dialing), Connected, t);
    var u := Two(c0, c1.(pc := Connected), map[], 2, Some(1), Some(b), true, None, None, Testing(1));
    assert t.conns + [Conn([], [], 0, false, [], [])] == u.conns;
    OneStep(wh, t, Caller(Connect(1, DialOk)), u);
  }

  /** The first call goes on where it was: it registers and takes the send lock. */
  lemma FirstGoesOn(wh: Header -> Bytes, b: nat, c0: Call, c1: Call)
    requires c0.pc == Connected && c0.request.requestId == 1
    requires Reachable(wh, Two(c0, c1, map[], 2, Some(1), Some(b), true, None, None, Testing(1)))
    ensures Reachable(wh, Two(c0.(pc := Sending, deadline := None, slot := InTable), c1, map[1 := 0], 2, Some(1), Some(b),
                              true, None, Some(0), Testing(1)))
  {
    var s := Two(c0, c1, map[], 2, Some(1), Some(b), true, None, None, Testing(1));
    var r := c0.(pc := Registered, deadline := None, slot := InTable);
    assert [c0, c1][0 := r] == [r, c1];
    var t := Two(r, c1, map[1 := 0], 2, Some(1), Some(b), true, None, None, Testing(1));
    OneStep(wh, s, Caller(Register(0, None)), t);
    assert [r, c1][0 := r.(pc := Sending)] == [r.(pc := Sending), c1];
    OneStep(wh, t, Caller(Send(0, LockSend)),
            Two(r.(pc := Sending), c1, map[1 := 0], 2, Some(1), Some(b), true, None, Some(0), Testing(1)));
  }

  /** The request of call k has gone out whole, and all of it on a connection to another host than the call's. */
  ghost predicate Misdelivered(wh: Header -> Bytes, s: State, k: nat) {
    && k < |s.calls| && s.fd.Some? && s.fd.value < |s.conns| && s.host.Some? && s.host.value != s.calls[k].host
    && s.conns[s.fd.value].sent == RequestFrame(wh, s.calls[k].request) && s.calls[k].slot == InTable
    && s.conns[s.fd.value].order == [k] && !s.conns[s.fd.value].torn
  }

  /** Any request to one host can go to any other that another caller of the same channel wants. */
  lemma WrongHost(wh: Header -> Bytes, a: nat, b: nat, m: Request, n: Request) returns (s: State)
    requires a != b
    ensures Reachable(wh, s) && Misdelivered(wh, s, 0) && s.calls[0].host == a && s.calls[0].request == Id1(m) && s.host == Some(b)
  {
    var c0, c1 := CallAs(Connected, a, Id1(m), 0, NoSlot), CallAs(Addressed, b, Id2(n), 0, NoSlot);
    BothAddressed(wh, a, b, m, n);
    SecondCloses(wh, a, b, c0, c1);
    ReaderLeaves(wh, a, c0, c1.(pc := Joining));
    SecondDials(wh, a, b, c0, c1.(pc := Joining));
    FirstGoesOn(wh, b, c0, c1.(pc := Connected));
    s := FirstOut(wh, b, CallAs(Sending, a, Id1(m), 0, InTable), c1.(pc := Connected));
  }

  lemma FirstOut(wh: Header -> Bytes, b: nat, c0: Call, c1: Call) returns (t: State)
    requires c0.pc == Sending && c0.written == 0 && c0.slot == InTable && c0.host != b
    requires Reachable(wh, Two(c0, c1, map[1 := 0], 2, Some(1), Some(b), true, None, Some(0), Testing(1)))
    ensures Reachable(wh, t) && Misdelivered(wh, t, 0) && t.calls[0].host == c0.host && t.calls[0].request == c0.request
    ensures t.host == Some(b)
  {
    var s := Two(c0, c1, map[1 := 0], 2, Some(1), Some(b), true, None, Some(0), Testing(1));
    var frame := FrameOf(wh, c0);
    assert |frame| >= 4;
    t := CallerNext(wh, s, Send(0, SendSome(|frame|)));
    assert [] + frame[0..|frame|] == frame && [] + [0] == [0];
    OneStep(wh, s, Caller(Send(0, SendSome(|frame|))), t);
  }

  // When it goes to the right one.

  /** The events lead from s to t. */
  ghost predicate Goes(wh: Header -> Bytes, evs: seq<Event>, s: State, t: State)
    decreases |evs|, 1
  {
    if evs == [] then t == s else exists u :: GoesVia(wh, evs, s, u, t)
  }

  ghost predicate GoesVia(wh: Header -> Bytes, evs: seq<Event>, s: State, u: State, t: State)
    requires evs != []
    decreases |evs|, 0
  {
    Goes(wh, evs[..|evs| - 1], s, u) && Step(wh, u, evs[|evs| - 1], t)
  }

  function DialsFor(ev: Event): Option<nat> {
    if ev.Caller? && ev.c.Connect? && ev.c.c.DialOk? then Some(ev.c.k) else None
  }

  /** The call that dialled last. */
  function LastDialler(evs: seq<Event>): Option<nat> {
    if evs == [] then None
    else
      var k := DialsFor(evs[|evs| - 1]);
      if k.Some? then k else LastDialler(evs[..|evs| - 1])
  }

  /** Calls keep their hosts. */
  ghost predicate SameHosts(s: State, t: State) {
    |s.calls| <= |t.calls| && forall k :: 0 <= k < |s.calls| ==> t.calls[k].host == s.calls[k].host
  }

  /** What the channel is connected to after a step that dials for call k, or for nobody. */
  ghost predicate HostAfter(s: State, t: State, k: Option<nat>) {
    t.fd.Some? ==> if k.Some? then k.value < |t.calls| && t.host == Some(t.calls[k.value].host) else s.fd.Some? && t.host == s.host
  }

  lemma ConnectHost(s: State, k: nat, c: ConnectStep)
    requires ThreadsOk(s) && ConnectEnabled(s, k, c)
    ensures var t := ConnectNext(s, k, c); SameHosts(s, t) && HostAfter(s, t, if c.DialOk? then Some(k) else None)
  {
  }

  lemma CallerHost(wh: Header -> Bytes, s: State, ev: CallerEvent)
    requires ThreadsOk(s) && CallerEnabled(wh, s, ev)
    ensures SameHosts(s, CallerNext(wh, s, ev)) && HostAfter(s, CallerNext(wh, s, ev), DialsFor(Caller(ev)))
  {
    match ev
    case Begin(host, request) =>
    case Prepare(k, p) => PrepareHost(s, k, p);
    case Connect(k, c) => ConnectHost(s, k, c);
    case Register(k, deadline) =>
    case Send(k, d) => SendHost(wh, s, k, d);
    case GiveUp(k, u) => GiveUpHost(s, k, u);
  }

  lemma PrepareHost(s: State, k: nat, p: PrepareStep)
    requires PrepareEnabled(s, k, p)
    ensures SameHosts(s, PrepareNext(s, k, p)) && HostAfter(s, PrepareNext(s, k, p), None)
  {
  }

  lemma SendHost(wh: Header -> Bytes, s: State, k: nat, d: SendStep)
    requires SendEnabled(wh, s, k, d)
    ensures SameHosts(s, SendNext(wh, s, k, d)) && HostAfter(s, SendNext(wh, s, k, d), None)
  {
  }

  lemma GiveUpHost(s: State, k: nat, u: GiveUpStep)
    requires GiveUpEnabled(s, k, u)
    ensures SameHosts(s, GiveUpNext(s, k, u)) && HostAfter(s, GiveUpNext(s, k, u), None)
  {
  }

  lemma RxHost(s: State, ev: RxEvent)
    requires RxEnabled(s, ev)
    ensures SameHosts(s, RxNext(s, ev)) && HostAfter(s, RxNext(s, ev), None)
  {
  }

  lemma TimerHost(s: State, ev: TimerEvent)
    requires TimerEnabled(s, ev)
    ensures SameHosts(s, TimerNext(s, ev)) && HostAfter(s, TimerNext(s, ev), None)
  {
  }

  lemma DtorHost(s: State, ev: DtorEvent)
    requires DtorEnabled(s, ev)
    ensures SameHosts(s, DtorNext(s, ev)) && HostAfter(s, DtorNext(s, ev), None)
  {
  }

  lemma StepHost(wh: Header -> Bytes, s: State, ev: Event, t: State)
    requires ThreadsOk(s) && Step(wh, s, ev, t)
    ensures SameHosts(s, t) && HostAfter(s, t, DialsFor(ev))
  {
    match ev
    case Caller(c) => CallerHost(wh, s, c);
    case Rx(r) => RxHost(s, r);
    case Timer(x) => TimerHost(s, x);
    case Dtor(d) => DtorHost(s, d);
  }

  lemma {:induction false} GoesHost(wh: Header -> Bytes, evs: seq<Event>, s: State, t: State)
    requires Inv(s) && Goes(wh, evs, s, t)
    ensures Inv(t) && SameHosts(s, t) && HostAfter(s, t, LastDialler(evs))
    decreases |evs|
  {
    if evs != [] {
      var u :| GoesVia(wh, evs, s, u, t);
      GoesHost(wh, evs[..|evs| - 1], s, u);
      StepHost(wh, u, evs[|evs| - 1], t);
      StepKeeps(wh, u, evs[|evs| - 1], t);
    }
  }

  /** From the moment ensureConnected says yes to a call until it sends, or any later one: while there is a connection, it
      is to the call's host exactly if nobody has dialled since, or the last who did had the same host. */
  lemma RightHostIff(wh: Header -> Bytes, evs: seq<Event>, s: State, t: State, k: nat)
    requires Reachable(wh, s) && At(s, k, Connected) && s.host == Some(s.calls[k].host) && Goes(wh, evs, s, t) && t.fd.Some?
    ensures k < |t.calls| && t.calls[k].host == s.calls[k].host
    ensures var last := LastDialler(evs);
      && (last.Some? ==> last.value < |t.calls|)
      && (t.host == Some(t.calls[k].host) <==> last.None? || t.calls[last.value].host == t.calls[k].host)
  {
    ReachableOk(wh, s);
    GoesHost(wh, evs, s, t);
  }
}
