/** A call writes its frame on one connection only. */
module ChannelOrders {
  import opened ByteStrings
  import opened Wire
  import opened Channel
  import opened ChannelSafety
  import opened ChannelStreams

  /** No call is in the order of two connections. */
  ghost predicate Apart(conns: seq<Conn>) {
    forall i, j :: 0 <= i < j < |conns| ==> Disjoint(conns[i].order, conns[j].order)
  }

  predicate Disjoint(a: seq<nat>, b: seq<nat>) {
    forall k :: k in a ==> k !in b
  }

  lemma SameOrders(s: State, t: State)
    requires Apart(s.conns) && |t.conns| == |s.conns|
    requires forall i :: 0 <= i < |s.conns| ==> t.conns[i].order == s.conns[i].order
    ensures Apart(t.conns)
  {
  }

  lemma DialApart(conns: seq<Conn>, c: Conn)
    requires Apart(conns) && c.order == []
    ensures Apart(conns + [c])
  {
  }

  /** A call enters an order only when it has written nothing, and then it is in no other. */
  lemma WriteApart(wh: Header -> Bytes, s: State, i: nat, k: nat, n: nat)
    requires Apart(s.conns) && i < |s.conns| && forall j :: 0 <= j < |s.conns| ==> OrderOk(s.calls, s.conns[j])
    requires k < |s.calls| && s.calls[k].written + n <= |FrameOf(wh, s.calls[k])|
    ensures Apart(s.conns[i := Write(wh, s, s.conns[i], k, n)])
  {
    var d := Write(wh, s, s.conns[i], k, n);
    if d.order != s.conns[i].order {
      assert d.order == s.conns[i].order + [k] && s.calls[k].written == 0;
      forall j | 0 <= j < |s.conns|
        ensures k !in s.conns[j].order
      {
        assert OrderOk(s.calls, s.conns[j]);
      }
    }
  }

  lemma SendApart(wh: Header -> Bytes, s: State, k: nat, d: SendStep)
    requires Apart(s.conns) && SendersOk(wh, s) && SendEnabled(wh, s, k, d)
    ensures Apart(SendNext(wh, s, k, d).conns)
  {
    if d.SendSome? {
      SendSomeState(wh, s, SendNext(wh, s, k, d), k, d.n);
      WriteApart(wh, s, s.fd.value, k, d.n);
    }
  }

  lemma ConnectApart(s: State, k: nat, c: ConnectStep)
    requires Apart(s.conns) && ConnectEnabled(s, k, c)
    ensures Apart(ConnectNext(s, k, c).conns)
  {
    if c == DialOk {
      DialApart(s.conns, Conn([], [], 0, false, [], []));
    }
  }

  lemma CallerApart(wh: Header -> Bytes, s: State, ev: CallerEvent)
    requires Apart(s.conns) && SendersOk(wh, s) && CallerEnabled(wh, s, ev)
    ensures Apart(CallerNext(wh, s, ev).conns)
  {
    match ev
    case Begin(host, request) =>
    case Prepare(k, p) =>
    case Connect(k, c) => ConnectApart(s, k, c);
    case Register(k, deadline) =>
    case Send(k, d) => SendApart(wh, s, k, d);
    case GiveUp(k, u) =>
  }

  lemma StepApart(wh: Header -> Bytes, s: State, ev: Event, t: State)
    requires Inv(s) && SendersOk(wh, s) && Apart(s.conns) && Step(wh, s, ev, t)
    ensures Apart(t.conns)
  {
    match ev
    case Caller(c) => CallerApart(wh, s, c);
    case Rx(r) => RxQuiet(s, r); SameOrders(s, t);
    case Timer(x) => TimerQuiet(s, x); SameOrders(s, t);
    case Dtor(d) => DtorQuiet(s, d); SameOrders(s, t);
  }

  lemma {:induction false} RunsKeepApart(wh: Header -> Bytes, evs: seq<Event>, s: State)
    requires Leads(wh, evs, s)
    ensures Apart(s.conns)
    decreases |evs|
  {
    if evs != [] {
      var s0 :| LeadsVia(wh, evs, s0, s);
      RunsKeepApart(wh, evs[..|evs| - 1], s0);
      assert Reachable(wh, s0);
      ReachableOk(wh, s0);
      ReachableSenders(wh, s0);
      StepApart(wh, s0, evs[|evs| - 1], s);
    }
  }

  /** However often a channel reconnects, and whatever became of a call's frame: no other connection has it. */
  lemma OneConnectionEach(wh: Header -> Bytes, s: State, i: nat, j: nat, k: nat)
    requires Reachable(wh, s) && i < |s.conns| && j < |s.conns| && k in s.conns[i].order && k in s.conns[j].order
    ensures i == j
  {
    var evs :| Leads(wh, evs, s);
    RunsKeepApart(wh, evs, s);
    assert i < j ==> Disjoint(s.conns[i].order, s.conns[j].order);
    assert j < i ==> Disjoint(s.conns[j].order, s.conns[i].order);
  }

  /** Calls that have begun to send have different ids, none of them 0. */
  lemma SenderIds(wh: Header -> Bytes, s: State, j: nat, k: nat)
    requires Reachable(wh, s) && j < |s.calls| && k < |s.calls| && s.calls[j].written > 0 && s.calls[k].written > 0
    requires s.calls[j].request.requestId == s.calls[k].request.requestId
    ensures j == k
  {
    ReachableOk(wh, s);
    ReachableSenders(wh, s);
    assert CallAt(s, j) && CallAt(s, k);
  }
}
