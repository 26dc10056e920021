/** The end-to-end theorem speaks of runs that exist: any accepted request can be answered with any body. */
module EndToEndRun {
  import opened ByteStrings
  import opened Wire
  import Reactor
  import ReactorFeed
  import ReactorAnswer
  import Channel
  import ChannelRun
  import HeaderCodec
  import opened EndToEnd

  /** The first call of a channel was answered with this body, over a connection that meets every hypothesis. */
  ghost predicate AnsweredOver(wh: Header -> Bytes, s: Channel.State, peer: Peer, m: Request, body: Bytes) {
    && Channel.Reachable(wh, s) && |s.calls| == 1 && |s.conns| == 1
    && s.calls[0].request == m && s.calls[0].outcome == Channel.Answered(body)
    && AnswerTo(s.calls[0]) in ReadResponses(s.conns[0].recvd)
    && Joined(wh, s.conns[0], peer) && Sized(wh, s, s.conns[0], peer)
  }

  lemma AnswerHappens(wh: Header -> Bytes, e: Reactor.Config, host: nat, request: Request, body: Bytes)
    returns (s: Channel.State, peer: Peer)
    requires ReactorFeed.Roomy(e) && Lawful(e.registry, wh) && ResponseFits(Response(1, body))
    requires var m := request.(requestId := 1); Fits(wh, m) && Accepted(e.registry, wh, m)
    ensures AnsweredOver(wh, s, peer, request.(requestId := 1), body)
  {
    var m := ChannelRun.Id1(request);
    var w := ReactorAnswer.RequestServed(e, wh, m, body);
    peer := Peer(Provider(e, w), 1);
    ChannelRun.FirstAnswered(wh, host, request, body);
    s := ChannelRun.AnsweredFirst(wh, host, request, body);
    FirstResponse(Response(1, body), []);
    var got := ResponseFrame(1, body);
    assert got + [] == got;
    assert ReadResponses(got) == [Response(1, body)] + ReadResponses([]);
    assert AnswerTo(s.calls[0]) == Response(1, body);
  }

  /** With the encoding that the client writes, and a service of one method. */
  lemma HypothesesMet(host: nat, service: byte, name: byte, body: Bytes)
    returns (wh: Header -> Bytes, s: Channel.State, peer: Peer)
    requires |body| < 1000
    ensures AnsweredOver(wh, s, peer, Request([service], [name], [], 1), body)
  {
    var g := HeaderCodec.Service(map[[service] := {[name]}], (x, y, z) => true);
    wh := HeaderCodec.Encoder();
    HeaderCodec.MeetsLaw(g.services, g.argsParse);
    var request := Request([service], [name], [], 1);
    SmallHeader(HeaderOf(request));
    assert request.(requestId := 1) == request;
    s, peer := AnswerHappens(wh, Reactor.Config(g, k => true), host, request, body);
  }

  lemma SmallHeader(h: Header)
    requires |h.serviceName| == |h.methodName| == 1 && h.argsSize == 0 && h.requestId == 1
    ensures |HeaderCodec.Encoder()(h)| == 8
  {
  }
}
