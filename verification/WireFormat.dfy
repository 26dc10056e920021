/** The wire format in bytes and numbers: where each field of a frame is, what is refused, and what both providers do then. */
module WireFormat {
  import opened ByteStrings
  import opened Wire
  import opened RpcProviders

  /** A four-byte integer, low byte first. */
  lemma FourBytes(n: nat)
    ensures LE(n, 4) == [n % 256, n / 256 % 256, n / 65536 % 256, n / 16777216 % 256]
  {
    assert n / 256 / 256 == n / 65536 && n / 65536 / 256 == n / 16777216;
    assert LE(n / 16777216, 1) == [n / 16777216 % 256] + LE(n / 16777216 / 256, 0);
    assert LE(n / 65536, 2) == [n / 65536 % 256] + LE(n / 65536 / 256, 1);
    assert LE(n / 256, 3) == [n / 256 % 256] + LE(n / 256 / 256, 2);
  }

  lemma NextByte(n: nat, more: nat, k: nat)
    requires k > 0 && more == n / 256
    ensures LE(n, k) == [n % 256] + LE(more, k - 1)
  {
  }

  /** An eight-byte integer: its low half, then its high half. */
  lemma EightBytes(n: nat)
    ensures LE(n, 8) == LE(n, 4) + LE(n / 4294967296, 4)
  {
    assert n / 256 / 256 == n / 65536 && n / 65536 / 256 == n / 16777216 && n / 16777216 / 256 == n / 4294967296;
    NextByte(n, n / 256, 8);
    NextByte(n / 256, n / 65536, 7);
    NextByte(n / 65536, n / 16777216, 6);
    NextByte(n / 16777216, n / 4294967296, 5);
    FourBytes(n);
  }

  /** A request frame: four bytes of header size, the header, the arguments. */
  lemma RequestBytes(wh: Header -> Bytes, m: Request)
    ensures var f, h := RequestFrame(wh, m), wh(Header(m.serviceName, m.methodName, |m.args|, m.requestId));
      && |f| == 4 + |h| + |m.args|
      && f[..4] == [|h| % 256, |h| / 256 % 256, |h| / 65536 % 256, |h| / 16777216 % 256]
      && f[4..4 + |h|] == h && f[4 + |h|..] == m.args
  {
    FourBytes(|wh(HeaderOf(m))|);
  }

  /** A response frame: four bytes of size, which counts id and body, eight of id, the body. */
  lemma ResponseBytes(id: nat, body: Bytes)
    ensures var f, size, high := ResponseFrame(id, body), 8 + |body|, id / 4294967296;
      && |f| == 12 + |body|
      && f[..4] == [size % 256, size / 256 % 256, size / 65536 % 256, size / 16777216 % 256]
      && f[4..8] == [id % 256, id / 256 % 256, id / 65536 % 256, id / 16777216 % 256]
      && f[8..12] == [high % 256, high / 256 % 256, high / 65536 % 256, high / 16777216 % 256]
      && f[12..] == body
  {
    FourBytes(8 + |body|);
    FourBytes(id);
    FourBytes(id / 4294967296);
    EightBytes(id);
  }

  // What is refused.

  /** The frame of a message is dispatched exactly if its header takes at most 65536 bytes, its arguments at most 67108864,
      and they are those of a registered method; otherwise it is refused. */
  lemma DispatchedIff(g: Registry, wh: Header -> Bytes, m: Request)
    requires Lawful(g, wh) && Fits(wh, m)
    ensures var f, v := RequestFrame(wh, m), TryParse(g, RequestFrame(wh, m));
      && (v.Reject? || v == Dispatch(m, |f|))
      && (v.Dispatch? <==>
            && |wh(HeaderOf(m))| <= 65536 && |m.args| <= 67108864
            && m.serviceName in g.services && m.methodName in g.services[m.serviceName]
            && g.argsParse(m.serviceName, m.methodName, m.args))
  {
    ParseOfFrame(g, wh, m);
  }

  /** The size alone of an oversized header is enough to close the connection, as soon as its four bytes are there. */
  lemma OversizedHeaderCloses(g: Registry, input: Bytes)
    requires |input| >= 4 && FromLE(input[..4]) > 65536
    ensures Drain(g, input) == Drained([], true, input)
  {
    assert input[0..] == input;
  }

  /** A header that does not decode, behind frames that both providers serve: the io_uring provider closes the connection
      and the muduo provider shuts it down, each having served those frames and nothing else. */
  lemma BadHeaderCloses(g: Registry, wh: Header -> Bytes, ms: seq<Request>, h: Bytes, more: Bytes)
    requires Lawful(g, wh) && |h| <= 65536 && g.parseHeader(h) == None
    requires forall m :: m in ms ==> Fits(wh, m) && Accepted(g, wh, m)
    ensures var bad := LE(|h|, 4) + h + more;
      && Drain(g, Concat(Frames(wh, ms)) + bad) == Drained(ms, true, bad)
      && LooseDrain(g, Concat(Frames(wh, ms)) + bad) == Drained(ms, true, bad)
  {
    var bad := LE(|h|, 4) + h + more;
    var good := Concat(Frames(wh, ms));
    BadFrame(g, h, more, bad);
    DrainEmpty(g);
    DrainOfFrames(g, wh, ms, []);
    assert good + [] == good;
    ParsersAgree(g, good);
    DrainChunked(g, good, bad);
    LooseDrainChunked(g, good, bad);
    assert [] + bad == bad && ms + [] == ms;
  }

  lemma BadFrame(g: Registry, h: Bytes, more: Bytes, bad: Bytes)
    requires |h| <= 65536 && g.parseHeader(h) == None && bad == LE(|h|, 4) + h + more
    ensures Drain(g, bad) == Drained([], true, bad) && LooseDrain(g, bad) == Drained([], true, bad)
  {
    assert Pow256(4) == 4294967296;
    LERoundTrip(|h|, 4);
    assert bad[..4] == LE(|h|, 4) && bad[4..4 + |h|] == h;
    assert bad[0..] == bad;
  }

  /** Behind whole responses, a size that does not even cover the id ends the reading, whatever follows: the responses
      before it have been read, and nothing after it is. */
  lemma {:induction false} ShortSizeEndsReading(rs: seq<Response>, bad: Bytes)
    requires |bad| >= 4 && FromLE(bad[..4]) < 8 && forall r :: r in rs ==> ResponseFits(r)
    ensures ReadResponses(Concat(ResponseFrames(rs)) + bad) == rs
  {
    if rs == [] {
      assert [] + bad == bad;
    } else {
      var f, later := ResponseFrame(rs[0].requestId, rs[0].body), Concat(ResponseFrames(rs[1..]));
      ResponseFramesCons(rs);
      AppendThree(f, later, bad);
      FirstResponse(rs[0], later + bad);
      ShortSizeEndsReading(rs[1..], bad);
      assert rs == [rs[0]] + rs[1..];
    }
  }

  lemma AppendThree(a: Bytes, b: Bytes, c: Bytes)
    ensures a + b + c == a + (b + c)
  {
  }
}
