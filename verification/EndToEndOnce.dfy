/**
  End to end, at most once: no provider dispatches a call twice, no response comes twice, and a response that is
  discarded as unknown was never anyone's answer.
 */
module EndToEndOnce {
  import opened ByteStrings
  import opened Wire
  import Reactor
  import Streams = ReactorStreams
  import ServerTheorems = ReactorTheorems
  import Channel
  import ChannelSafety
  import ChannelStreams
  import ChannelTheorems
  import ChannelOrders
  import opened EndToEnd

  // The requests of one socket, in order.

  /** How many requests the socket had dispatched before coroutine co. */
  function Rank(coros: seq<Reactor.Coro>, sock: nat, co: nat): nat
    requires co <= |coros|
  {
    |Streams.RequestsOf(coros[..co], sock)|
  }

  lemma {:induction false} AtRank(coros: seq<Reactor.Coro>, sock: nat, co: nat)
    requires co < |coros| && coros[co].connId == sock
    ensures Rank(coros, sock, co) < |Streams.RequestsOf(coros, sock)|
    ensures Streams.RequestsOf(coros, sock)[Rank(coros, sock, co)] == coros[co].request
  {
    if co < |coros| - 1 {
      var before := coros[..|coros| - 1];
      AtRank(before, sock, co);
      assert before[..co] == coros[..co];
    }
  }

  lemma RankRises(coros: seq<Reactor.Coro>, sock: nat, a: nat, b: nat)
    requires a < b < |coros| && coros[a].connId == sock
    ensures Rank(coros, sock, a) < Rank(coros, sock, b)
  {
    AtRank(coros[..b], sock, a);
    assert coros[..b][..a] == coros[..a];
  }

  /** What a provider has dispatched from a connection is, in order, what the first calls on it sent. */
  lemma DispatchedInOrder(wh: Header -> Bytes, s: Channel.State, c: nat, peer: Peer)
    requires Channel.Reachable(wh, s) && c < |s.conns| && Joined(wh, s.conns[c], peer) && Sized(wh, s, s.conns[c], peer)
    ensures Streams.RequestsOf(peer.p.w.s.p.coros, peer.sock) <= ChannelStreams.RequestsIn(s.calls, s.conns[c].order)
  {
    var g, conn, received := peer.p.e.registry, s.conns[c], peer.p.w.socks[peer.sock].received;
    var ms := ChannelStreams.RequestsIn(s.calls, conn.order);
    ServerTheorems.SocketContract(peer.p.e, peer.p.w, peer.sock);
    ChannelTheorems.ConnectionCarriesFrames(wh, s, c);
    RequestsInFit(wh, s, conn);
    DrainMonotone(g, received, Concat(Frames(wh, ms)));
    DrainOfClientStream(g, wh, ms);
  }

  /** The call that a coroutine of the connection's peer works for. */
  lemma CallOf(wh: Header -> Bytes, s: Channel.State, c: nat, peer: Peer, co: nat) returns (k: nat)
    requires Channel.Reachable(wh, s) && c < |s.conns| && Joined(wh, s.conns[c], peer) && Sized(wh, s, s.conns[c], peer)
    requires co < |peer.p.w.s.p.coros| && peer.p.w.s.p.coros[co].connId == peer.sock
    ensures Rank(peer.p.w.s.p.coros, peer.sock, co) < |s.conns[c].order|
    ensures k == s.conns[c].order[Rank(peer.p.w.s.p.coros, peer.sock, co)] && k < |s.calls|
    ensures s.calls[k].request == peer.p.w.s.p.coros[co].request && s.calls[k].written > 0
  {
    DispatchedInOrder(wh, s, c, peer);
    AtRank(peer.p.w.s.p.coros, peer.sock, co);
    k := s.conns[c].order[Rank(peer.p.w.s.p.coros, peer.sock, co)];
    ChannelStreams.ReachableSenders(wh, s);
    assert ChannelStreams.OrderOk(s.calls, s.conns[c]);
  }

  lemma OrderDistinct(wh: Header -> Bytes, s: Channel.State, c: nat, i: nat, j: nat)
    requires Channel.Reachable(wh, s) && c < |s.conns| && i < |s.conns[c].order| && j < |s.conns[c].order|
    requires s.conns[c].order[i] == s.conns[c].order[j]
    ensures i == j
  {
    ChannelStreams.ReachableSenders(wh, s);
    assert ChannelStreams.OrderOk(s.calls, s.conns[c]);
  }

  /** No call is dispatched twice: two coroutines with one request id, on whatever connections of the channel, are one
      coroutine on one connection. */
  lemma DispatchedOnce(wh: Header -> Bytes, s: Channel.State, c: nat, peer: Peer, co: nat, c': nat, peer': Peer, co': nat)
    requires Channel.Reachable(wh, s)
    requires c < |s.conns| && Joined(wh, s.conns[c], peer) && Sized(wh, s, s.conns[c], peer)
    requires c' < |s.conns| && Joined(wh, s.conns[c'], peer') && Sized(wh, s, s.conns[c'], peer')
    requires co < |peer.p.w.s.p.coros| && peer.p.w.s.p.coros[co].connId == peer.sock
    requires co' < |peer'.p.w.s.p.coros| && peer'.p.w.s.p.coros[co'].connId == peer'.sock
    requires peer.p.w.s.p.coros[co].request.requestId == peer'.p.w.s.p.coros[co'].request.requestId
    ensures c == c' && (peer == peer' ==> co == co')
  {
    var k := CallOf(wh, s, c, peer, co);
    var k' := CallOf(wh, s, c', peer', co');
    ChannelOrders.SenderIds(wh, s, k, k');
    ChannelOrders.OneConnectionEach(wh, s, c, c', k);
    if peer == peer' && co != co' {
      var coros := peer.p.w.s.p.coros;
      OrderDistinct(wh, s, c, Rank(coros, peer.sock, co), Rank(coros, peer.sock, co'));
      if co < co' {
        RankRises(coros, peer.sock, co, co');
      } else {
        RankRises(coros, peer.sock, co', co);
      }
    }
  }

  // Responses.

  /** No id comes twice. */
  ghost predicate IdsOnce(rs: seq<Response>) {
    forall i, j :: 0 <= i < j < |rs| ==> rs[i].requestId != rs[j].requestId
  }

  lemma ResponsesOnce(wh: Header -> Bytes, s: Channel.State, c: nat, peer: Peer)
    requires Channel.Reachable(wh, s) && c < |s.conns| && Joined(wh, s.conns[c], peer) && Sized(wh, s, s.conns[c], peer)
    ensures IdsOnce(ReadResponses(s.conns[c].recvd))
  {
    var p, rs := peer.p, ReadResponses(s.conns[c].recvd);
    var coros, ids := p.w.s.p.coros, Reactor.DeliveredOn(p.w.s, peer.sock);
    ReadIsDelivered(p, peer.sock, s.conns[c].recvd);
    forall i, j | 0 <= i < j < |rs|
      ensures rs[i].requestId != rs[j].requestId
    {
      assert rs[i] == ResponseBy(coros[ids[i]]) && rs[j] == ResponseBy(coros[ids[j]]);
      if rs[i].requestId == rs[j].requestId {
        DispatchedOnce(wh, s, c, peer, ids[i], c, peer, ids[j]);
      }
    }
  }

  /** The same id on two connections: it is one connection. */
  lemma OneConnection(wh: Header -> Bytes, s: Channel.State, c: nat, peer: Peer, r: Response, c': nat, peer': Peer, r': Response)
    requires Channel.Reachable(wh, s) && r.requestId == r'.requestId
    requires c < |s.conns| && Joined(wh, s.conns[c], peer) && Sized(wh, s, s.conns[c], peer)
    requires c' < |s.conns| && Joined(wh, s.conns[c'], peer') && Sized(wh, s, s.conns[c'], peer')
    requires r in ReadResponses(s.conns[c].recvd) && r' in ReadResponses(s.conns[c'].recvd)
    ensures c == c'
  {
    var co := ResponseComputed(peer.p, peer.sock, s.conns[c].recvd, r);
    var co' := ResponseComputed(peer'.p, peer'.sock, s.conns[c'].recvd, r');
    DispatchedOnce(wh, s, c, peer, co, c', peer', co');
  }

  // A response that finds no call waiting.

  /** The response just read is the last of those read off its connection; those before it were taken. */
  lemma JustRead(wh: Header -> Bytes, s: Channel.State)
    requires Channel.Reachable(wh, s) && Channel.RxEnabled(s, Channel.RxLookup)
    ensures var c := s.rx.conn;
      c < |s.conns| && ReadResponses(s.conns[c].recvd) == s.conns[c].taken + [Channel.ResponseOf(s.rx.got)]
  {
    ChannelStreams.ReachableStreams(wh, s);
    var c, got := s.conns[s.rx.conn], s.rx.got;
    assert c.recvd + [] == c.recvd;
    assert ChannelStreams.ReadsAs(c, got);
    assert ReadResponses(c.recvd + []) == c.taken + ReadResponses(got + []);
    ChannelStreams.ReadComplete(got, []);
    assert ReadResponses([]) == [];
    assert [Channel.ResponseOf(got)] + [] == [Channel.ResponseOf(got)];
  }

  /** An answer was taken off some connection before. */
  lemma AnswerTaken(wh: Header -> Bytes, s: Channel.State, k: nat) returns (i: nat)
    requires Channel.Reachable(wh, s) && k < |s.calls| && s.calls[k].outcome.Answered?
    ensures i < |s.conns| && AnswerTo(s.calls[k]) in s.conns[i].taken
    ensures s.conns[i].taken <= ReadResponses(s.conns[i].recvd)
  {
    ChannelStreams.ReachableStreams(wh, s);
    i :| 0 <= i < |s.conns| && AnswerTo(s.calls[k]) in s.conns[i].taken;
    ChannelTheorems.TakenWasRead(wh, s, i);
  }

  ghost predicate AllJoined(wh: Header -> Bytes, s: Channel.State, peers: seq<Peer>) {
    && |peers| == |s.conns|
    && forall c :: 0 <= c < |peers| ==> Joined(wh, s.conns[c], peers[c]) && Sized(wh, s, s.conns[c], peers[c])
  }

  lemma LastIsNew(taken: seq<Response>, r: Response)
    requires IdsOnce(taken + [r])
    ensures forall r' :: r' in taken ==> r'.requestId != r.requestId
  {
    forall i | 0 <= i < |taken|
      ensures taken[i].requestId != r.requestId
    {
      assert (taken + [r])[i] == taken[i] && (taken + [r])[|taken|] == r;
    }
  }

  lemma NotAnsweredTwice(wh: Header -> Bytes, s: Channel.State, peers: seq<Peer>, k: nat)
    requires Channel.Reachable(wh, s) && Channel.RxEnabled(s, Channel.RxLookup) && AllJoined(wh, s, peers)
    requires k < |s.calls| && s.calls[k].request.requestId == Channel.ResponseOf(s.rx.got).requestId
    ensures !s.calls[k].outcome.Answered?
  {
    if s.calls[k].outcome.Answered? {
      var c, r, r' := s.rx.conn, Channel.ResponseOf(s.rx.got), AnswerTo(s.calls[k]);
      JustRead(wh, s);
      var i := AnswerTaken(wh, s, k);
      var taken := s.conns[c].taken;
      assert (taken + [r])[|taken|] == r;
      OneConnection(wh, s, c, peers[c], r, i, peers[i], r');
      ResponsesOnce(wh, s, c, peers[c]);
      LastIsNew(taken, r);
      assert false;
    }
  }

  /** The response just read answers a call that was sent on the same connection. */
  lemma JustReadCall(wh: Header -> Bytes, s: Channel.State, peers: seq<Peer>) returns (k: nat)
    requires Channel.Reachable(wh, s) && Channel.RxEnabled(s, Channel.RxLookup) && AllJoined(wh, s, peers)
    ensures k < |s.calls| && s.calls[k].request.requestId == Channel.ResponseOf(s.rx.got).requestId
    ensures k in s.conns[s.rx.conn].order && s.calls[k].written > 0
  {
    var c, r := s.rx.conn, Channel.ResponseOf(s.rx.got);
    JustRead(wh, s);
    assert (s.conns[c].taken + [r])[|s.conns[c].taken|] == r;
    var co := ResponseComputed(peers[c].p, peers[c].sock, s.conns[c].recvd, r);
    k := CallOf(wh, s, c, peers[c], co);
  }

  /** A call that is over and was not answered has failed, unless its own sender is about to fail it. */
  lemma OverHasFailed(wh: Header -> Bytes, s: Channel.State, k: nat)
    requires Channel.Reachable(wh, s) && k < |s.calls| && !s.calls[k].outcome.Answered?
    requires s.calls[k].slot == Channel.Freed && s.calls[k].pc != Channel.Failing
    ensures s.calls[k].outcome == Channel.Failed
  {
    ChannelSafety.ReachableOk(wh, s);
    assert ChannelSafety.CallAt(s, k);
  }

  /** A response that finds no call waiting under its id belongs to a call that was never answered: the timer has
      claimed it, or its own sender after a failed send, or it is over and has failed. In particular it is not a
      second response, and there is such a call. */
  lemma DiscardedNeverAnswered(wh: Header -> Bytes, s: Channel.State, peers: seq<Peer>) returns (k: nat)
    requires Channel.Reachable(wh, s) && Channel.RxEnabled(s, Channel.RxLookup) && AllJoined(wh, s, peers)
    requires Channel.ResponseOf(s.rx.got).requestId !in s.pending
    ensures k < |s.calls| && s.calls[k].request.requestId == Channel.ResponseOf(s.rx.got).requestId
    ensures k in s.conns[s.rx.conn].order && !s.calls[k].outcome.Answered?
    ensures s.calls[k].slot == Channel.WithTimer || s.calls[k].slot == Channel.WithCaller || s.calls[k].slot == Channel.Freed
    ensures s.calls[k].slot == Channel.Freed && s.calls[k].pc != Channel.Failing ==> s.calls[k].outcome == Channel.Failed
  {
    k := JustReadCall(wh, s, peers);
    NotAnsweredTwice(wh, s, peers, k);
    ChannelTheorems.DiscardedOnlyIfClaimed(wh, s, k);
    if s.calls[k].slot == Channel.Freed && s.calls[k].pc != Channel.Failing {
      OverHasFailed(wh, s, k);
    }
  }
}
