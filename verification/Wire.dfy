/**
  Wire format and request parsing.

  request frame:  [4-byte header_size][RpcHeader][args]
  response frame: [4-byte size][8-byte request_id][body], size = 8 + |body|
 */
module Wire {
  import opened ByteStrings

  const MAX_HEADER_SIZE: nat := 64 * 1024
  const MAX_BODY_SIZE: nat := 64 * 1024 * 1024

  datatype Header = Header(serviceName: Bytes, methodName: Bytes, argsSize: nat, requestId: nat)

  datatype Request = Request(serviceName: Bytes, methodName: Bytes, args: Bytes, requestId: nat)

  /** What a provider knows: the header decoder, the registered methods, which argument strings decode. */
  datatype Registry = Registry(
    parseHeader: Bytes -> Option<Header>,
    services: map<Bytes, set<Bytes>>,
    argsParse: (Bytes, Bytes, Bytes) -> bool)

  /** One turn of the drain loop: wait for bytes, close after erasing `consumed` bytes, or dispatch. */
  datatype Verdict =
    | NeedMore
    | Reject(consumed: nat)
    | Dispatch(request: Request, size: nat)

  /** The frame at the front of the buffer: not all there yet, malformed or over a limit, or complete. */
  datatype Framed =
    | Short
    | Malformed
    | Whole(header: Header, args: Bytes, size: nat)

  function NextFrame(g: Registry, input: Bytes): (f: Framed)
    ensures f.Whole? ==> 4 <= f.size <= |input| && f.size <= 4 + MAX_HEADER_SIZE + MAX_BODY_SIZE
    ensures f.Short? ==> |input| < 4 + MAX_HEADER_SIZE + MAX_BODY_SIZE
  {
    if |input| < 4 then Short
    else
      var headerSize := FromLE(input[..4]);
      if headerSize > MAX_HEADER_SIZE then Malformed
      else if |input| < 4 + headerSize then Short
      else
        match g.parseHeader(input[4..4 + headerSize])
        case None => Malformed
        case Some(h) =>
          if h.argsSize > MAX_BODY_SIZE then Malformed
          else if |input| < 4 + headerSize + h.argsSize then Short
          else Whole(h, input[4 + headerSize..4 + headerSize + h.argsSize], 4 + headerSize + h.argsSize)
  }

  /** The header names a registered method whose arguments decode. */
  predicate Known(g: Registry, h: Header, args: Bytes) {
    h.serviceName in g.services && h.methodName in g.services[h.serviceName] && g.argsParse(h.serviceName, h.methodName, args)
  }

  function RequestOf(h: Header, args: Bytes): Request {
    Request(h.serviceName, h.methodName, args, h.requestId)
  }

  function TryParse(g: Registry, input: Bytes): (v: Verdict)
    ensures v.Reject? ==> v.consumed <= |input|
    ensures v.Dispatch? ==> 4 <= v.size <= |input| && v.size <= 4 + MAX_HEADER_SIZE + MAX_BODY_SIZE
    ensures v.NeedMore? ==> |input| < 4 + MAX_HEADER_SIZE + MAX_BODY_SIZE
  {
    match NextFrame(g, input)
    case Short => NeedMore
    case Malformed => Reject(0)
    case Whole(h, args, size) => if Known(g, h, args) then Dispatch(RequestOf(h, args), size) else Reject(size)
  }

  /** Everything one run of the drain loop does to a buffer. */
  datatype Drained = Drained(requests: seq<Request>, closed: bool, rest: Bytes)

  function Drain(g: Registry, input: Bytes): (d: Drained)
    decreases |input|
  {
    match TryParse(g, input)
    case NeedMore => Drained([], false, input)
    case Reject(k) => Drained([], true, input[k..])
    case Dispatch(r, k) =>
      var d := Drain(g, input[k..]);
      Drained([r] + d.requests, d.closed, d.rest)
  }

  lemma DrainEmpty(g: Registry)
    ensures TryParse(g, []).NeedMore? && Drain(g, []) == Drained([], false, [])
  {
  }

  /** A decided verdict looks only at bytes already there. */
  lemma VerdictStable(g: Registry, a: Bytes, b: Bytes)
    requires !TryParse(g, a).NeedMore?
    ensures TryParse(g, a + b) == TryParse(g, a)
  {
    var headerSize := FromLE(a[..4]);
    assert (a + b)[..4] == a[..4];
    if headerSize <= MAX_HEADER_SIZE {
      assert (a + b)[4..4 + headerSize] == a[4..4 + headerSize];
      var h := g.parseHeader(a[4..4 + headerSize]);
      if h.Some? && h.value.argsSize <= MAX_BODY_SIZE {
        var size := 4 + headerSize + h.value.argsSize;
        assert (a + b)[4 + headerSize..size] == a[4 + headerSize..size];
      }
    }
  }

  /** What draining a + b does, given what draining a did: the chunk boundary is invisible. */
  function Resume(g: Registry, d: Drained, b: Bytes): Drained {
    if d.closed then Drained(d.requests, true, d.rest + b)
    else
      var e := Drain(g, d.rest + b);
      Drained(d.requests + e.requests, e.closed, e.rest)
  }

  lemma DrainStep(g: Registry, a: Bytes, r: Request, k: nat)
    requires TryParse(g, a) == Dispatch(r, k)
    ensures Drain(g, a) == var d := Drain(g, a[k..]); Drained([r] + d.requests, d.closed, d.rest)
  {
  }

  /** Draining does not see where one recv ended and the next began. */
  lemma {:induction false} DrainChunked(g: Registry, a: Bytes, b: Bytes)
    ensures Drain(g, a + b) == Resume(g, Drain(g, a), b)
    decreases |a|
  {
    var v := TryParse(g, a);
    if !v.NeedMore? {
      VerdictStable(g, a, b);
      if v.Reject? {
        DropOfSum(a, b, v.consumed);
      } else {
        DropOfSum(a, b, v.size);
        DrainChunked(g, a[v.size..], b);
        DrainStep(g, a, v.request, v.size);
        DrainStep(g, a + b, v.request, v.size);
        ResumeCons(g, v.request, Drain(g, a[v.size..]), b);
      }
    }
  }

  lemma DropOfSum(a: Bytes, b: Bytes, k: nat)
    requires k <= |a|
    ensures (a + b)[k..] == a[k..] + b
  {
  }

  lemma ResumeCons(g: Registry, r: Request, d: Drained, b: Bytes)
    ensures Resume(g, Drained([r] + d.requests, d.closed, d.rest), b)
         == var e := Resume(g, d, b); Drained([r] + e.requests, e.closed, e.rest)
  {
    if !d.closed {
      var e := Drain(g, d.rest + b);
      assert [r] + (d.requests + e.requests) == [r] + d.requests + e.requests;
    }
  }

  /** The requests dispatched and the close verdict when the stream arrives in the given chunks. */
  function DrainChunks(g: Registry, d: Drained, chunks: seq<Bytes>): Drained
    decreases |chunks|
  {
    if chunks == [] then d else DrainChunks(g, Resume(g, d, chunks[0]), chunks[1..])
  }

  /** Chunking of the recvs does not matter: only the concatenated stream does. */
  lemma {:induction false} ChunkingIrrelevant(g: Registry, a: Bytes, chunks: seq<Bytes>)
    ensures DrainChunks(g, Drain(g, a), chunks) == Drain(g, a + Concat(chunks))
    decreases |chunks|
  {
    if chunks == [] {
      assert a + Concat(chunks) == a;
    } else {
      var c := chunks[0];
      calc {
        DrainChunks(g, Drain(g, a), chunks);
        DrainChunks(g, Resume(g, Drain(g, a), c), chunks[1..]);
        { DrainChunked(g, a, c); }
        DrainChunks(g, Drain(g, a + c), chunks[1..]);
        { ChunkingIrrelevant(g, a + c, chunks[1..]); }
        Drain(g, a + c + Concat(chunks[1..]));
        { assert a + (c + Concat(chunks[1..])) == a + c + Concat(chunks[1..]); }
        Drain(g, a + Concat(chunks));
      }
    }
  }

  /** More bytes only add requests; after a close they add none. */
  lemma DrainMonotone(g: Registry, a: Bytes, b: Bytes)
    requires a <= b
    ensures Drain(g, a).requests <= Drain(g, b).requests
    ensures Drain(g, a).closed ==> Drain(g, b).closed && Drain(g, a).requests == Drain(g, b).requests
  {
    assert b == a + b[|a|..];
    DrainChunked(g, a, b[|a|..]);
  }

  /** The drain stops only at an incomplete frame: no complete request is left behind. */
  lemma {:induction false} DrainLeavesIncomplete(g: Registry, input: Bytes)
    ensures !Drain(g, input).closed ==> TryParse(g, Drain(g, input).rest).NeedMore?
    ensures |Drain(g, input).rest| <= |input|
    decreases |input|
  {
    match TryParse(g, input)
    case NeedMore =>
    case Reject(k) =>
    case Dispatch(r, k) => DrainLeavesIncomplete(g, input[k..]);
  }

  /** No request that this provider dispatches takes fewer than `least` bytes. */
  ghost predicate NoShorter(g: Registry, least: nat) {
    forall input :: TryParse(g, input).Dispatch? ==> TryParse(g, input).size >= least
  }

  function RequestCount(g: Registry, input: Bytes): nat {
    |Drain(g, input).requests|
  }

  /** How many times `size` fits into n: their quotient, rounded down. */
  function WholeIn(size: nat, n: nat): nat
    requires size > 0
  {
    if n < size then 0 else 1 + WholeIn(size, n - size)
  }

  lemma {:induction false} WholeInIsQuotient(size: nat, n: nat)
    requires size > 0
    ensures WholeIn(size, n) == n / size
    decreases n
  {
    if n < size {
      ModUnique(n, size, 0, n);
    } else {
      WholeInIsQuotient(size, n - size);
      var q, r := (n - size) / size, (n - size) % size;
      assert size * (q + 1) == size * q + size;
      ModUnique(n, size, q + 1, r);
    }
  }

  lemma {:induction false} WholeInMonotone(size: nat, a: nat, b: nat)
    requires size > 0 && a <= b
    ensures WholeIn(size, a) <= WholeIn(size, b)
    decreases a
  {
    if a >= size {
      WholeInMonotone(size, a - size, b - size);
    }
  }

  lemma {:induction false} DrainCount(g: Registry, least: nat, input: Bytes)
    requires NoShorter(g, least) && least > 0
    ensures |Drain(g, input).requests| <= WholeIn(least, |input|)
    decreases |input|
  {
    match TryParse(g, input)
    case NeedMore =>
    case Reject(k) =>
    case Dispatch(r, k) =>
      DrainStep(g, input, r, k);
      DrainCount(g, least, input[k..]);
      WholeInMonotone(least, |input| - k, |input| - least);
  }

  lemma CountFromSecond(g: Registry, least: nat, input: Bytes, most: nat)
    requires NoShorter(g, least) && least > 0
    requires TryParse(g, input).Dispatch? ==> |input| - TryParse(g, input).size <= most
    ensures RequestCount(g, input) <= 1 + WholeIn(least, most)
  {
    var v := TryParse(g, input);
    if v.Dispatch? {
      DrainStep(g, input, v.request, v.size);
      DrainCount(g, least, input[v.size..]);
      WholeInMonotone(least, |input| - v.size, most);
    }
  }

  /** A chunk of n bytes completes at most 1 + (n - 1) / least requests. */
  lemma ChunkCount(g: Registry, least: nat, input: Bytes, chunk: Bytes)
    requires NoShorter(g, least) && least > 0 && TryParse(g, input).NeedMore? && |chunk| > 0
    ensures RequestCount(g, input + chunk) <= 1 + WholeIn(least, |chunk| - 1)
  {
    NeedsMoreBytes(g, input, chunk);
    CountFromSecond(g, least, input + chunk, |chunk| - 1);
  }

  /** A buffer that waits for bytes waits past its own end. */
  lemma NeedsMoreBytes(g: Registry, input: Bytes, more: Bytes)
    requires TryParse(g, input).NeedMore?
    ensures TryParse(g, input + more).Dispatch? ==> TryParse(g, input + more).size > |input|
  {
    var all := input + more;
    if |input| >= 4 {
      var headerSize := FromLE(input[..4]);
      assert all[..4] == input[..4];
      if |input| >= 4 + headerSize {
        assert all[4..4 + headerSize] == input[4..4 + headerSize];
      }
    }
  }

  function HeaderOf(m: Request): Header {
    Header(m.serviceName, m.methodName, |m.args|, m.requestId)
  }

  /** The request frame a client sends for one call. */
  function RequestFrame(writeHeader: Header -> Bytes, m: Request): Bytes {
    var header := writeHeader(HeaderOf(m));
    LE(|header|, 4) + header + m.args
  }

  predicate HeaderFits(h: Header) {
    h.argsSize < Pow256(4) && h.requestId < Pow256(8)
  }

  /** The codec law: a header whose fields and whose encoding fit their wire types decodes to itself. */
  ghost predicate Lawful(g: Registry, writeHeader: Header -> Bytes) {
    forall h: Header :: HeaderFits(h) && |writeHeader(h)| < Pow256(4) ==> g.parseHeader(writeHeader(h)) == Some(h)
  }

  /** The message's sizes and its id fit the fields that carry them. */
  predicate Fits(writeHeader: Header -> Bytes, m: Request) {
    HeaderFits(HeaderOf(m)) && |writeHeader(HeaderOf(m))| < Pow256(4)
  }

  predicate Accepted(g: Registry, writeHeader: Header -> Bytes, m: Request) {
    && |writeHeader(HeaderOf(m))| <= MAX_HEADER_SIZE
    && |m.args| <= MAX_BODY_SIZE
    && Known(g, HeaderOf(m), m.args)
  }

  /** Parsing a frame recovers the message it was built from, or rejects it; nothing else happens. */
  lemma ParseOfFrame(g: Registry, writeHeader: Header -> Bytes, m: Request)
    requires Lawful(g, writeHeader) && Fits(writeHeader, m)
    ensures var f := RequestFrame(writeHeader, m);
      if Accepted(g, writeHeader, m) then TryParse(g, f) == Dispatch(m, |f|)
      else TryParse(g, f).Reject?
  {
    var header := writeHeader(HeaderOf(m));
    var f := RequestFrame(writeHeader, m);
    LERoundTrip(|header|, 4);
    assert f[..4] == LE(|header|, 4);
    if |header| <= MAX_HEADER_SIZE {
      assert f[4..4 + |header|] == header;
      assert f[4 + |header|..] == m.args;
      assert f[4 + |header|..|f|] == m.args;
    }
  }

  function Frames(writeHeader: Header -> Bytes, ms: seq<Request>): (r: seq<Bytes>)
    ensures |r| == |ms|
    ensures forall i :: 0 <= i < |ms| ==> r[i] == RequestFrame(writeHeader, ms[i])
  {
    if ms == [] then [] else [RequestFrame(writeHeader, ms[0])] + Frames(writeHeader, ms[1..])
  }

  /** Round trip: concatenated accepted client frames followed by an incomplete tail. */
  lemma {:induction false} DrainOfFrames(g: Registry, writeHeader: Header -> Bytes, ms: seq<Request>, tail: Bytes)
    requires Lawful(g, writeHeader)
    requires forall m :: m in ms ==> Fits(writeHeader, m) && Accepted(g, writeHeader, m)
    requires TryParse(g, tail).NeedMore?
    ensures Drain(g, Concat(Frames(writeHeader, ms)) + tail) == Drained(ms, false, tail)
  {
    if ms == [] {
      assert Concat(Frames(writeHeader, ms)) + tail == tail;
    } else {
      var f, later := RequestFrame(writeHeader, ms[0]), Concat(Frames(writeHeader, ms[1..])) + tail;
      assert Frames(writeHeader, ms)[1..] == Frames(writeHeader, ms[1..]);
      assert Concat(Frames(writeHeader, ms)) + tail == f + later;
      ParseOfFrame(g, writeHeader, ms[0]);
      VerdictStable(g, f, later);
      assert (f + later)[|f|..] == later;
      DrainOfFrames(g, writeHeader, ms[1..], tail);
    }
  }

  /** One accepted frame is one request. */
  lemma FrameAlone(g: Registry, writeHeader: Header -> Bytes, m: Request)
    requires Lawful(g, writeHeader) && Fits(writeHeader, m) && Accepted(g, writeHeader, m)
    ensures Drain(g, RequestFrame(writeHeader, m)) == Drained([m], false, [])
  {
    DrainEmpty(g);
    DrainOfFrames(g, writeHeader, [m], []);
    assert Frames(writeHeader, [m]) == [RequestFrame(writeHeader, m)];
    assert Concat([RequestFrame(writeHeader, m)]) + [] == RequestFrame(writeHeader, m);
  }

  /** A proper part of an accepted frame only makes the provider wait. */
  lemma PartOfFrame(g: Registry, writeHeader: Header -> Bytes, m: Request, part: Bytes)
    requires Lawful(g, writeHeader) && Fits(writeHeader, m) && Accepted(g, writeHeader, m)
    requires part < RequestFrame(writeHeader, m)
    ensures TryParse(g, part).NeedMore?
  {
    var f := RequestFrame(writeHeader, m);
    ParseOfFrame(g, writeHeader, m);
    assert f == part + f[|part|..];
    if !TryParse(g, part).NeedMore? {
      VerdictStable(g, part, f[|part|..]);
      assert false;
    }
  }

  /** Round trip: however a stream of accepted frames is truncated, exactly the whole ones are dispatched. */
  lemma DrainOfTruncatedStream(g: Registry, writeHeader: Header -> Bytes, ms: seq<Request>, m: Request, part: Bytes)
    requires Lawful(g, writeHeader)
    requires forall x :: x in ms + [m] ==> Fits(writeHeader, x) && Accepted(g, writeHeader, x)
    requires part < RequestFrame(writeHeader, m)
    ensures Drain(g, Concat(Frames(writeHeader, ms)) + part) == Drained(ms, false, part)
  {
    assert m in ms + [m];
    assert forall x :: x in ms ==> x in ms + [m];
    PartOfFrame(g, writeHeader, m, part);
    DrainOfFrames(g, writeHeader, ms, part);
  }

  function Zeros(n: nat): (r: Bytes)
    ensures |r| == n
  {
    seq(n, _ => 0)
  }

  function Copies(x: Request, n: nat): (r: seq<Request>)
    ensures |r| == n && forall i :: 0 <= i < n ==> r[i] == x
  {
    seq(n, _ => x)
  }

  /** n copies of one frame, one after the other. */
  function Stream(writeHeader: Header -> Bytes, m: Request, n: nat): Bytes {
    Concat(Frames(writeHeader, Copies(m, n)))
  }

  lemma StreamCons(writeHeader: Header -> Bytes, m: Request, n: nat)
    requires n > 0
    ensures Stream(writeHeader, m, n) == RequestFrame(writeHeader, m) + Stream(writeHeader, m, n - 1)
  {
    assert Copies(m, n)[1..] == Copies(m, n - 1);
    assert Frames(writeHeader, Copies(m, n))[1..] == Frames(writeHeader, Copies(m, n - 1));
  }

  /** k bytes of the stream are so many whole frames and a part of the next. */
  lemma {:induction false} StreamLength(writeHeader: Header -> Bytes, m: Request, k: nat) returns (part: Bytes)
    ensures part < RequestFrame(writeHeader, m)
    ensures |Stream(writeHeader, m, WholeIn(|RequestFrame(writeHeader, m)|, k)) + part| == k
    ensures WholeIn(|RequestFrame(writeHeader, m)|, k) <= k
  {
    var f := RequestFrame(writeHeader, m);
    if k < |f| {
      part := f[..k];
    } else {
      part := StreamLength(writeHeader, m, k - |f|);
      StreamCons(writeHeader, m, WholeIn(|f|, k));
    }
  }

  /** q whole frames and a part of the next one, cut from a longer stream of the same frame. */
  lemma {:induction false} StreamCut(writeHeader: Header -> Bytes, m: Request, n: nat, q: nat, part: Bytes)
    requires q < n && part <= RequestFrame(writeHeader, m)
    ensures Stream(writeHeader, m, q) + part <= Stream(writeHeader, m, n)
  {
    StreamCons(writeHeader, m, n);
    if q == 0 {
      assert Stream(writeHeader, m, 0) + part == part;
    } else {
      var f := RequestFrame(writeHeader, m);
      StreamCut(writeHeader, m, n - 1, q - 1, part);
      StreamCons(writeHeader, m, q);
      PrefixCons(f, Stream(writeHeader, m, q - 1) + part, Stream(writeHeader, m, n - 1));
      assert f + (Stream(writeHeader, m, q - 1) + part) == f + Stream(writeHeader, m, q - 1) + part;
    }
  }

  lemma PrefixCons(f: Bytes, a: Bytes, b: Bytes)
    requires a <= b
    ensures f + a <= f + b
  {
  }

  /** Of a stream of one accepted frame, cut after k bytes, exactly the whole frames are dispatched. */
  lemma DrainOfCut(g: Registry, writeHeader: Header -> Bytes, m: Request, s: Bytes, n: nat, k: nat)
    requires Lawful(g, writeHeader) && Fits(writeHeader, m) && Accepted(g, writeHeader, m)
    requires k < n && s == Stream(writeHeader, m, n)
    ensures k <= |s| && !Drain(g, s[..k]).closed
    ensures RequestCount(g, s[..k]) == WholeIn(|RequestFrame(writeHeader, m)|, k)
  {
    var part := StreamLength(writeHeader, m, k);
    var q := WholeIn(|RequestFrame(writeHeader, m)|, k);
    StreamCut(writeHeader, m, n, q, part);
    assert s[..k] == Stream(writeHeader, m, q) + part;
    DrainOfTruncatedStream(g, writeHeader, Copies(m, q), m, part);
  }

  lemma CountBetween(g: Registry, s: Bytes, i: nat, j: nat, q: nat)
    requires i <= j <= |s| && RequestCount(g, s[..i]) == 0 && !Drain(g, s[..i]).closed
    requires RequestCount(g, s[..j]) == q
    ensures TryParse(g, s[..i]).NeedMore? && RequestCount(g, s[..i] + s[i..j]) == q
  {
    NothingDrained(g, s[..i]);
    assert s[..i] + s[i..j] == s[..j];
  }

  lemma CountAfterPart(g: Registry, writeHeader: Header -> Bytes, m: Request, s: Bytes, i: nat, j: nat)
    requires Lawful(g, writeHeader) && Fits(writeHeader, m) && Accepted(g, writeHeader, m)
    requires i == |RequestFrame(writeHeader, m)| - 1 && i < j && s == Stream(writeHeader, m, j + 1)
    ensures j <= |s| && TryParse(g, s[..i]).NeedMore?
    ensures RequestCount(g, s[..i] + s[i..j]) == WholeIn(i + 1, j)
  {
    DrainOfCut(g, writeHeader, m, s, j + 1, i);
    DrainOfCut(g, writeHeader, m, s, j + 1, j);
    CountBetween(g, s, i, j, WholeIn(i + 1, j));
  }

  /** The bound is reached: after all but one byte of an accepted frame, n bytes of the same frame again and again
      complete exactly so many requests. */
  lemma ChunkCountTight(g: Registry, writeHeader: Header -> Bytes, m: Request, n: nat) returns (input: Bytes, chunk: Bytes)
    requires Lawful(g, writeHeader) && Fits(writeHeader, m) && Accepted(g, writeHeader, m) && n > 0
    ensures TryParse(g, input).NeedMore? && |chunk| == n
    ensures RequestCount(g, input + chunk) == 1 + WholeIn(|RequestFrame(writeHeader, m)|, n - 1)
  {
    var i := |RequestFrame(writeHeader, m)| - 1;
    var j := i + n;
    var s := Stream(writeHeader, m, j + 1);
    CountAfterPart(g, writeHeader, m, s, i, j);
    input, chunk := s[..i], s[i..j];
  }

  lemma NothingDrained(g: Registry, input: Bytes)
    requires Drain(g, input).requests == [] && !Drain(g, input).closed
    ensures TryParse(g, input).NeedMore?
  {
  }

  /** Of any client stream, accepted or not, the provider only ever dispatches a prefix of what was sent. */
  lemma {:induction false} DrainOfClientStream(g: Registry, writeHeader: Header -> Bytes, ms: seq<Request>)
    requires Lawful(g, writeHeader)
    requires forall m :: m in ms ==> Fits(writeHeader, m)
    ensures Drain(g, Concat(Frames(writeHeader, ms))).requests <= ms
  {
    if ms != [] {
      var f, later := RequestFrame(writeHeader, ms[0]), Concat(Frames(writeHeader, ms[1..]));
      assert Frames(writeHeader, ms)[1..] == Frames(writeHeader, ms[1..]);
      assert Concat(Frames(writeHeader, ms)) == f + later;
      ParseOfFrame(g, writeHeader, ms[0]);
      VerdictStable(g, f, later);
      assert (f + later)[|f|..] == later;
      DrainOfClientStream(g, writeHeader, ms[1..]);
    }
  }

  /** Response framing, shared by both providers. */
  function ResponseFrame(requestId: nat, body: Bytes): (f: Bytes)
    ensures |f| == 12 + |body|
  {
    LE(8 + |body|, 4) + LE(requestId, 8) + body
  }

  datatype Response = Response(requestId: nat, body: Bytes)

  predicate ResponseFits(r: Response) {
    8 + |r.body| < Pow256(4) && r.requestId < Pow256(8)
  }

  function ResponseFrames(rs: seq<Response>): (s: seq<Bytes>)
    ensures |s| == |rs|
    ensures forall i :: 0 <= i < |rs| ==> s[i] == ResponseFrame(rs[i].requestId, rs[i].body)
  {
    if rs == [] then [] else [ResponseFrame(rs[0].requestId, rs[0].body)] + ResponseFrames(rs[1..])
  }

  /** What a receive thread makes of the bytes of one connection, frame after frame. */
  function ReadResponses(stream: Bytes): seq<Response>
    decreases |stream|
  {
    if |stream| < 4 then []
    else
      var size := FromLE(stream[..4]);
      if size < 8 || |stream| < 4 + size then []
      else [Response(FromLE(stream[4..12]), stream[12..4 + size])] + ReadResponses(stream[4 + size..])
  }

  lemma FirstResponse(r: Response, more: Bytes)
    requires ResponseFits(r)
    ensures ReadResponses(ResponseFrame(r.requestId, r.body) + more) == [r] + ReadResponses(more)
  {
    var f := ResponseFrame(r.requestId, r.body);
    var s := f + more;
    LERoundTrip(8 + |r.body|, 4);
    LERoundTrip(r.requestId, 8);
    assert s[..4] == LE(8 + |r.body|, 4);
    assert s[4..12] == LE(r.requestId, 8);
    assert s[12..4 + (8 + |r.body|)] == r.body;
    assert s[4 + (8 + |r.body|)..] == more;
  }

  /** A response frame cut short yields nothing. */
  lemma PartOfResponse(r: Response, stream: Bytes)
    requires ResponseFits(r) && stream < ResponseFrame(r.requestId, r.body)
    ensures ReadResponses(stream) == []
  {
    if |stream| >= 4 {
      LERoundTrip(8 + |r.body|, 4);
      assert stream[..4] == ResponseFrame(r.requestId, r.body)[..4] == LE(8 + |r.body|, 4);
    }
  }

  /** Reading any prefix of the concatenated response frames yields a prefix of the responses. */
  lemma {:induction false} ReadOfResponseFrames(rs: seq<Response>, stream: Bytes)
    requires forall r :: r in rs ==> ResponseFits(r)
    requires stream <= Concat(ResponseFrames(rs))
    ensures ReadResponses(stream) <= rs
    ensures stream == Concat(ResponseFrames(rs)) ==> ReadResponses(stream) == rs
  {
    if rs == [] {
    } else {
      var f, later := ResponseFrame(rs[0].requestId, rs[0].body), Concat(ResponseFrames(rs[1..]));
      ResponseFramesCons(rs);
      if |stream| < |f| {
        assert stream == (f + later)[..|stream|] == f[..|stream|];
        PartOfResponse(rs[0], stream);
      } else {
        var more := stream[|f|..];
        assert stream == f + more && more == later[..|more|];
        FirstResponse(rs[0], more);
        ReadOfResponseFrames(rs[1..], more);
        assert rs == [rs[0]] + rs[1..];
      }
    }
  }

  lemma ResponseFramesCons(rs: seq<Response>)
    requires rs != []
    ensures Concat(ResponseFrames(rs)) == ResponseFrame(rs[0].requestId, rs[0].body) + Concat(ResponseFrames(rs[1..]))
  {
    assert ResponseFrames(rs)[1..] == ResponseFrames(rs[1..]);
  }
}
