/**
  The muduo provider: the second parser of the same wire format.

  It has no size limits, skips a frame that names no registered method or whose arguments do not decode, and shuts
  the connection down, consuming nothing, when a header does not decode.
 */
module RpcProviders {
  import opened ByteStrings
  import opened Wire

  function NextLooseFrame(g: Registry, input: Bytes): (f: Framed)
    ensures f.Whole? ==> 4 <= f.size <= |input|
  {
    if |input| < 4 then Short
    else
      var headerSize := FromLE(input[..4]);
      if |input| < 4 + headerSize then Short
      else
        match g.parseHeader(input[4..4 + headerSize])
        case None => Malformed
        case Some(h) =>
          if |input| < 4 + headerSize + h.argsSize then Short
          else Whole(h, input[4 + headerSize..4 + headerSize + h.argsSize], 4 + headerSize + h.argsSize)
  }

  function Called(g: Registry, h: Header, args: Bytes): seq<Request> {
    if Known(g, h, args) then [RequestOf(h, args)] else []
  }

  /** What one onMessage does to the connection's buffer; `closed` if it shut the connection down. */
  function LooseDrain(g: Registry, input: Bytes): Drained
    decreases |input|
  {
    match NextLooseFrame(g, input)
    case Short => Drained([], false, input)
    case Malformed => Drained([], true, input)
    case Whole(h, args, size) =>
      var d := LooseDrain(g, input[size..]);
      Drained(Called(g, h, args) + d.requests, d.closed, d.rest)
  }

  lemma LooseFrameStable(g: Registry, a: Bytes, b: Bytes)
    requires !NextLooseFrame(g, a).Short?
    ensures NextLooseFrame(g, a + b) == NextLooseFrame(g, a)
  {
    var headerSize := FromLE(a[..4]);
    assert (a + b)[..4] == a[..4];
    assert (a + b)[4..4 + headerSize] == a[4..4 + headerSize];
    var h := g.parseHeader(a[4..4 + headerSize]);
    if h.Some? {
      var size := 4 + headerSize + h.value.argsSize;
      assert (a + b)[4 + headerSize..size] == a[4 + headerSize..size];
    }
  }

  /** Calling onMessage again when more bytes have arrived, also after a shutdown. */
  function LooseResume(g: Registry, d: Drained, b: Bytes): Drained {
    var e := LooseDrain(g, d.rest + b);
    Drained(d.requests + e.requests, d.closed || e.closed, e.rest)
  }

  lemma LooseStep(g: Registry, input: Bytes)
    requires NextLooseFrame(g, input).Whole?
    ensures var f := NextLooseFrame(g, input);
      var d := LooseDrain(g, input[f.size..]);
      LooseDrain(g, input) == Drained(Called(g, f.header, f.args) + d.requests, d.closed, d.rest)
  {
  }

  lemma LooseResumeCons(g: Registry, c: seq<Request>, d: Drained, b: Bytes)
    ensures LooseResume(g, Drained(c + d.requests, d.closed, d.rest), b)
         == var e := LooseResume(g, d, b); Drained(c + e.requests, e.closed, e.rest)
  {
    var e := LooseDrain(g, d.rest + b);
    assert c + (d.requests + e.requests) == c + d.requests + e.requests;
  }

  /** Here too the chunks do not matter. */
  lemma {:induction false} LooseDrainChunked(g: Registry, a: Bytes, b: Bytes)
    ensures LooseDrain(g, a + b) == LooseResume(g, LooseDrain(g, a), b)
    decreases |a|
  {
    var f := NextLooseFrame(g, a);
    if !f.Short? {
      LooseFrameStable(g, a, b);
      if f.Whole? {
        DropOfSum(a, b, f.size);
        LooseStep(g, a);
        LooseStep(g, a + b);
        LooseDrainChunked(g, a[f.size..], b);
        LooseResumeCons(g, Called(g, f.header, f.args), LooseDrain(g, a[f.size..]), b);
      }
    }
  }

  /** Nothing is dispatched after a header that does not decode, however much arrives. */
  lemma {:induction false} NothingAfterShutdown(g: Registry, a: Bytes, b: Bytes)
    requires LooseDrain(g, a).closed
    ensures LooseDrain(g, a + b).requests == LooseDrain(g, a).requests && LooseDrain(g, a + b).closed
    decreases |a|
  {
    var f := NextLooseFrame(g, a);
    LooseFrameStable(g, a, b);
    if f.Whole? {
      DropOfSum(a, b, f.size);
      NothingAfterShutdown(g, a[f.size..], b);
    }
  }

  lemma LooseFrameAgrees(g: Registry, input: Bytes)
    ensures !NextFrame(g, input).Malformed? ==> NextLooseFrame(g, input) == NextFrame(g, input)
  {
  }

  /** What the io_uring provider dispatches, the muduo provider dispatches too, first and in the same order; and
      where the io_uring provider closes nothing, the two do exactly the same. */
  lemma {:induction false} ParsersAgree(g: Registry, input: Bytes)
    ensures Drain(g, input).requests <= LooseDrain(g, input).requests
    ensures !Drain(g, input).closed ==> LooseDrain(g, input) == Drain(g, input)
    decreases |input|
  {
    LooseFrameAgrees(g, input);
    var f := NextFrame(g, input);
    if f.Whole? {
      ParsersAgree(g, input[f.size..]);
    }
  }

  function RegisteredOnly(g: Registry, ms: seq<Request>): seq<Request> {
    if ms == [] then [] else (if Known(g, HeaderOf(ms[0]), ms[0].args) then [ms[0]] else []) + RegisteredOnly(g, ms[1..])
  }

  /** The messages before the first one that the io_uring provider refuses. */
  function AcceptedPrefix(g: Registry, writeHeader: Header -> Bytes, ms: seq<Request>): seq<Request> {
    if ms == [] || !Accepted(g, writeHeader, ms[0]) then [] else [ms[0]] + AcceptedPrefix(g, writeHeader, ms[1..])
  }

  lemma LooseParseOfFrame(g: Registry, writeHeader: Header -> Bytes, m: Request, more: Bytes)
    requires Lawful(g, writeHeader) && Fits(writeHeader, m)
    ensures var f := RequestFrame(writeHeader, m);
      NextLooseFrame(g, f + more) == Whole(HeaderOf(m), m.args, |f|) && (f + more)[|f|..] == more
  {
    var header, f := writeHeader(HeaderOf(m)), RequestFrame(writeHeader, m);
    var s := f + more;
    LERoundTrip(|header|, 4);
    assert s[..4] == LE(|header|, 4);
    assert s[4..4 + |header|] == header;
    assert s[4 + |header|..|f|] == m.args;
  }

  /** Of whole client frames the muduo provider calls every registered method, whatever else is among them. */
  lemma {:induction false} LooseDrainOfFrames(g: Registry, writeHeader: Header -> Bytes, ms: seq<Request>)
    requires Lawful(g, writeHeader) && forall m :: m in ms ==> Fits(writeHeader, m)
    ensures LooseDrain(g, Concat(Frames(writeHeader, ms))) == Drained(RegisteredOnly(g, ms), false, [])
  {
    if ms != [] {
      var later := Concat(Frames(writeHeader, ms[1..]));
      assert Frames(writeHeader, ms)[1..] == Frames(writeHeader, ms[1..]);
      LooseParseOfFrame(g, writeHeader, ms[0], later);
      LooseDrainOfFrames(g, writeHeader, ms[1..]);
    }
  }

  /** Of the same frames the io_uring provider dispatches exactly those before the first it refuses, and it closes
      the connection exactly if it refuses one. */
  lemma {:induction false} DrainOfFramesExactly(g: Registry, writeHeader: Header -> Bytes, ms: seq<Request>)
    requires Lawful(g, writeHeader) && forall m :: m in ms ==> Fits(writeHeader, m)
    ensures var d := Drain(g, Concat(Frames(writeHeader, ms)));
      d.requests == AcceptedPrefix(g, writeHeader, ms) && (d.closed <==> |d.requests| < |ms|)
  {
    if ms == [] {
      DrainEmpty(g);
    } else {
      var f, later := RequestFrame(writeHeader, ms[0]), Concat(Frames(writeHeader, ms[1..]));
      assert Frames(writeHeader, ms)[1..] == Frames(writeHeader, ms[1..]);
      ParseOfFrame(g, writeHeader, ms[0]);
      VerdictStable(g, f, later);
      assert (f + later)[|f|..] == later;
      DrainOfFramesExactly(g, writeHeader, ms[1..]);
    }
  }

  /** The loop has called `done` and has `buffer` left of the bytes it began with. */
  ghost predicate Left(g: Registry, all: Bytes, done: seq<Request>, buffer: Bytes) {
    var d := LooseDrain(g, buffer);
    LooseDrain(g, all) == Drained(done + d.requests, d.closed, d.rest)
  }

  lemma LeftStep(g: Registry, all: Bytes, done: seq<Request>, buffer: Bytes)
    requires Left(g, all, done, buffer) && NextLooseFrame(g, buffer).Whole?
    ensures var f := NextLooseFrame(g, buffer); Left(g, all, done + Called(g, f.header, f.args), buffer[f.size..])
  {
    var f := NextLooseFrame(g, buffer);
    LooseStep(g, buffer);
    var c, r := Called(g, f.header, f.args), LooseDrain(g, buffer[f.size..]).requests;
    assert done + (c + r) == done + c + r;
  }

  /** One muduo connection: its input buffer, the calls made for it, whether it was shut down. */
  class RpcProvider {
    const registry: Registry
    var buffer: Bytes
    var calls: seq<Request>
    var shutdown: bool

    constructor (registry: Registry)
      ensures this.registry == registry && buffer == [] && calls == [] && !shutdown
    {
      this.registry := registry;
      buffer, calls, shutdown := [], [], false;
    }

    method OnMessage()
      modifies this
      ensures var d := LooseDrain(registry, old(buffer));
        && calls == old(calls) + d.requests && buffer == d.rest
        && shutdown == (old(shutdown) || d.closed)
    {
      ghost var done: seq<Request> := [];
      while |buffer| >= 4
        invariant calls == old(calls) + done && shutdown == old(shutdown)
        invariant Left(registry, old(buffer), done, buffer)
        decreases |buffer|
      {
        var f := Peek();
        if f.Short? {
          break;
        }
        if f.Malformed? {
          shutdown := true;
          return;
        }
        LeftStep(registry, old(buffer), done, buffer);
        done := done + Called(registry, f.header, f.args);
        buffer := buffer[f.size..];
        Call(f.header, f.args);
      }
    }

    /** Reads the frame at the front without consuming it. */
    method Peek() returns (f: Framed)
      requires |buffer| >= 4
      ensures f == NextLooseFrame(registry, buffer)
    {
      var headerSize := FromLE(buffer[..4]);
      if |buffer| < 4 + headerSize {
        return Short;
      }
      var header := registry.parseHeader(buffer[4..4 + headerSize]);
      if header.None? {
        return Malformed;
      }
      var frameSize := 4 + headerSize + header.value.argsSize;
      if |buffer| < frameSize {
        return Short;
      }
      return Whole(header.value, buffer[4 + headerSize..frameSize], frameSize);
    }

    method Call(h: Header, args: Bytes)
      modifies this`calls
      ensures calls == old(calls) + Called(registry, h, args)
    {
      if h.serviceName !in registry.services {
        return;
      }
      var methods := registry.services[h.serviceName];
      if h.methodName !in methods {
        return;
      }
      if !registry.argsParse(h.serviceName, h.methodName, args) {
        return;
      }
      calls := calls + [RequestOf(h, args)];
    }

    /** The bytes sent for a response; none if it does not serialise. */
    method SendRpcResponse(requestId: nat, response: Option<Bytes>) returns (sent: Bytes)
      ensures sent == if response.Some? then ResponseFrame(requestId, response.value) else []
    {
      sent := [];
      if response.Some? {
        var responseSize := 8 + |response.value|;
        sent := sent + LE(responseSize, 4);
        sent := sent + LE(requestId, 8);
        sent := sent + response.value;
      }
    }
  }
}
