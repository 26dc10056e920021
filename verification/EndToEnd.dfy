/**
  From a call to its answer: the channel, the network and the io_uring provider together.

  The channel and any number of providers run independently. The network is two FIFO byte streams a connection:
  each side has seen a prefix of what the other has sent. What is asked of a connection - that it was not torn, that
  its frames fit their length fields, that its provider's run is clean and its codec lawful - is asked only of the
  connection that the answer came in on. EndToEndRun shows that all of it can be met.
 */
module EndToEnd {
  import opened ByteStrings
  import opened Wire
  import Reactor
  import Runs = ReactorRun
  import Safety = ReactorSafety
  import Streams = ReactorStreams
  import ServerTheorems = ReactorTheorems
  import Channel
  import ChannelSafety
  import ChannelStreams
  import ChannelTheorems

  /** One provider: its configuration and the state it is in. */
  datatype Provider = Provider(e: Reactor.Config, w: Runs.World)

  /** The far end of a client connection: which provider, and which of the sockets it has accepted. */
  datatype Peer = Peer(p: Provider, sock: nat)

  ghost predicate Running(wh: Header -> Bytes, p: Provider) {
    Safety.Reachable(p.e, p.w) && p.w.clean && Lawful(p.e.registry, wh)
  }

  /** Two FIFO byte streams. */
  ghost predicate Linked(c: Channel.Conn, sock: Runs.Sock) {
    sock.received <= c.sent && c.recvd <= sock.accepted
  }

  /** The connection, not torn, ends at this peer. */
  ghost predicate Joined(wh: Header -> Bytes, c: Channel.Conn, peer: Peer) {
    && Running(wh, peer.p) && peer.sock < |peer.p.w.socks|
    && Linked(c, peer.p.w.socks[peer.sock])
    && !c.torn
  }

  /** The requests that went out on the connection fit their wire types. */
  ghost predicate RequestsFit(wh: Header -> Bytes, s: Channel.State, c: Channel.Conn) {
    forall j :: 0 <= j < |c.order| && c.order[j] < |s.calls| ==> Fits(wh, s.calls[c.order[j]].request)
  }

  /** And so do the responses to what came in on the peer's socket. */
  ghost predicate ResponsesFit(coros: seq<Reactor.Coro>, sock: nat) {
    forall co :: 0 <= co < |coros| && coros[co].connId == sock && coros[co].result.Some? ==> ResponseFits(ResponseBy(coros[co]))
  }

  ghost predicate Sized(wh: Header -> Bytes, s: Channel.State, c: Channel.Conn, peer: Peer) {
    RequestsFit(wh, s, c) && ResponsesFit(peer.p.w.s.p.coros, peer.sock)
  }

  function ResponseBy(k: Reactor.Coro): Response
    requires k.result.Some?
  {
    Response(k.request.requestId, k.result.value)
  }

  /** The provider ran the service on exactly this request, from this connection, and the service answered `body`. */
  ghost predicate Served(peer: Peer, request: Request, body: Bytes) {
    exists co :: 0 <= co < |peer.p.w.s.p.coros| && ServedBy(peer.p.w.s.p.coros[co], peer.sock, request, body)
  }

  ghost predicate ServedBy(k: Reactor.Coro, sock: nat, request: Request, body: Bytes) {
    k.connId == sock && k.request == request && k.result == Some(body)
  }

  function ResponsesBy(coros: seq<Reactor.Coro>, ids: seq<nat>): (rs: seq<Response>)
    requires forall j :: 0 <= j < |ids| ==> ids[j] < |coros| && coros[ids[j]].result.Some?
    ensures |rs| == |ids| && forall j :: 0 <= j < |ids| ==> rs[j] == ResponseBy(coros[ids[j]])
  {
    seq(|ids|, j requires 0 <= j < |ids| => ResponseBy(coros[ids[j]]))
  }

  /** What a client reads off a connection is a prefix of the responses delivered there, each coroutine's once. */
  lemma ReadIsDelivered(p: Provider, sock: nat, stream: Bytes)
    requires Safety.Reachable(p.e, p.w) && p.w.clean && sock < |p.w.socks|
    requires stream <= p.w.socks[sock].accepted && ResponsesFit(p.w.s.p.coros, sock)
    ensures var coros, ids := p.w.s.p.coros, Reactor.DeliveredOn(p.w.s, sock);
      && NoDup(ids)
      && (forall j :: 0 <= j < |ids| ==> ids[j] < |coros| && coros[ids[j]].connId == sock && coros[ids[j]].result.Some?)
      && ReadResponses(stream) <= ResponsesBy(coros, ids)
  {
    var coros, ids := p.w.s.p.coros, Reactor.DeliveredOn(p.w.s, sock);
    ServerTheorems.NoCrossTalk(p.e, p.w, sock);
    ServerTheorems.SocketContract(p.e, p.w, sock);
    var rs := ResponsesBy(coros, ids);
    assert Streams.FramesOf(coros, ids) == ResponseFrames(rs);
    ReadOfResponseFrames(rs, stream);
  }

  /** Every response a client reads off a connection was computed by the provider for a request it took from the
      same connection and that has the same id. */
  lemma ResponseComputed(p: Provider, sock: nat, stream: Bytes, r: Response) returns (co: nat)
    requires Safety.Reachable(p.e, p.w) && p.w.clean && sock < |p.w.socks|
    requires stream <= p.w.socks[sock].accepted && r in ReadResponses(stream)
    requires ResponsesFit(p.w.s.p.coros, sock)
    ensures co < |p.w.s.p.coros| && p.w.s.p.coros[co].connId == sock && p.w.s.p.coros[co].result.Some?
    ensures r == ResponseBy(p.w.s.p.coros[co])
  {
    ReadIsDelivered(p, sock, stream);
    var j :| 0 <= j < |ReadResponses(stream)| && ReadResponses(stream)[j] == r;
    co := Reactor.DeliveredOn(p.w.s, sock)[j];
  }

  lemma {:induction false} RequestListed(coros: seq<Reactor.Coro>, sock: nat, co: nat)
    requires co < |coros| && coros[co].connId == sock
    ensures coros[co].request in Streams.RequestsOf(coros, sock)
  {
    if co == |coros| - 1 {
      assert Streams.RequestsOf(coros, sock)[|Streams.RequestsOf(coros[..co], sock)|] == coros[co].request;
    } else {
      RequestListed(coros[..|coros| - 1], sock, co);
    }
  }

  /** Every request a provider dispatches from a connection is among those its bytes parse to. */
  lemma RequestReceived(p: Provider, sock: nat, co: nat)
    requires Safety.Reachable(p.e, p.w) && p.w.clean && sock < |p.w.socks|
    requires co < |p.w.s.p.coros| && p.w.s.p.coros[co].connId == sock
    ensures p.w.s.p.coros[co].request in Drain(p.e.registry, p.w.socks[sock].received).requests
  {
    ServerTheorems.SocketContract(p.e, p.w, sock);
    RequestListed(p.w.s.p.coros, sock, co);
    InPrefix(Streams.RequestsOf(p.w.s.p.coros, sock), Drain(p.e.registry, p.w.socks[sock].received).requests,
             p.w.s.p.coros[co].request);
  }

  /** Whatever of a stream of frames has arrived, only messages of the stream are dispatched. */
  lemma DispatchedWasFramed(wh: Header -> Bytes, g: Registry, ms: seq<Request>, received: Bytes, request: Request)
    requires Lawful(g, wh) && forall m :: m in ms ==> Fits(wh, m)
    requires received <= Concat(Frames(wh, ms)) && request in Drain(g, received).requests
    ensures request in ms
  {
    var all := Concat(Frames(wh, ms));
    DrainMonotone(g, received, all);
    DrainOfClientStream(g, wh, ms);
    InPrefix(Drain(g, received).requests, Drain(g, all).requests, request);
    InPrefix(Drain(g, all).requests, ms, request);
  }

  lemma RequestsInFit(wh: Header -> Bytes, s: Channel.State, c: Channel.Conn)
    requires RequestsFit(wh, s, c) && forall j :: 0 <= j < |c.order| ==> c.order[j] < |s.calls|
    ensures forall m :: m in ChannelStreams.RequestsIn(s.calls, c.order) ==> Fits(wh, m)
  {
    forall m | m in ChannelStreams.RequestsIn(s.calls, c.order)
      ensures Fits(wh, m)
    {
      var j :| 0 <= j < |c.order| && ChannelStreams.RequestsIn(s.calls, c.order)[j] == m;
    }
  }

  /** What any prefix of a connection's bytes parses to was sent on it by some call. */
  lemma RequestSent(wh: Header -> Bytes, g: Registry, s: Channel.State, c: nat, received: Bytes, request: Request)
    returns (k: nat)
    requires Channel.Reachable(wh, s) && c < |s.conns| && !s.conns[c].torn && Lawful(g, wh)
    requires received <= s.conns[c].sent && request in Drain(g, received).requests
    requires RequestsFit(wh, s, s.conns[c])
    ensures k < |s.calls| && s.calls[k].request == request && k in s.conns[c].order
  {
    var conn := s.conns[c];
    ChannelTheorems.ConnectionCarriesFrames(wh, s, c);
    RequestsInFit(wh, s, conn);
    DispatchedWasFramed(wh, g, ChannelStreams.RequestsIn(s.calls, conn.order), received, request);
    var j :| 0 <= j < |conn.order| && ChannelStreams.RequestsIn(s.calls, conn.order)[j] == request;
    k := conn.order[j];
  }

  lemma InPrefix(a: seq<Request>, b: seq<Request>, x: Request)
    requires a <= b && x in a
    ensures x in b
  {
  }

  function AnswerTo(c: Channel.Call): Response
    requires c.outcome.Answered?
  {
    Response(c.request.requestId, c.outcome.body)
  }

  lemma AnswerServed(wh: Header -> Bytes, s: Channel.State, c: nat, peer: Peer, k: nat)
    requires Channel.Reachable(wh, s) && c < |s.conns| && Joined(wh, s.conns[c], peer) && Sized(wh, s, s.conns[c], peer)
    requires k < |s.calls| && s.calls[k].outcome.Answered? && AnswerTo(s.calls[k]) in ReadResponses(s.conns[c].recvd)
    ensures Served(peer, s.calls[k].request, s.calls[k].outcome.body)
  {
    var p, sock := peer.p, peer.sock;
    var co := ResponseComputed(p, sock, s.conns[c].recvd, AnswerTo(s.calls[k]));
    RequestReceived(p, sock, co);
    var j := RequestSent(wh, p.e.registry, s, c, p.w.socks[sock].received, p.w.s.p.coros[co].request);
    SameCall(wh, s, j, k);
    assert ServedBy(p.w.s.p.coros[co], sock, s.calls[k].request, s.calls[k].outcome.body);
  }

  /** An answered call was answered with exactly what the service computed for the request that this call sent:
      across reconnections, late and out-of-order responses, partial sends and recvs, and reused descriptors. Only the
      connection that the answer came in on has to meet anything. */
  lemma AnswerIsForItsCall(wh: Header -> Bytes, s: Channel.State, k: nat) returns (c: nat)
    requires Channel.Reachable(wh, s) && k < |s.calls| && s.calls[k].outcome.Answered?
    ensures c < |s.conns| && AnswerTo(s.calls[k]) in ReadResponses(s.conns[c].recvd)
    ensures forall peer :: Joined(wh, s.conns[c], peer) && Sized(wh, s, s.conns[c], peer) ==>
      Served(peer, s.calls[k].request, s.calls[k].outcome.body)
  {
    c := ChannelTheorems.AnswerCameIn(wh, s, k);
    forall peer | Joined(wh, s.conns[c], peer) && Sized(wh, s, s.conns[c], peer)
      ensures Served(peer, s.calls[k].request, s.calls[k].outcome.body)
    {
      AnswerServed(wh, s, c, peer, k);
    }
  }

  lemma SameCall(wh: Header -> Bytes, s: Channel.State, j: nat, k: nat)
    requires Channel.Reachable(wh, s) && j < |s.calls| && k < |s.calls| && s.calls[k].outcome.Answered?
    requires s.calls[j].request.requestId == s.calls[k].request.requestId
    ensures j == k
  {
    ChannelSafety.ReachableOk(wh, s);
    assert ChannelSafety.CallAt(s, k);
    if j != k {
      ChannelTheorems.IdsUnique(wh, s, j, k);
    }
  }
}
