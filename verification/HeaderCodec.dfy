/**
  The encoding of RpcHeader that the client's serializer writes (rpcheader.proto): fields in the order of their
  numbers, those with their default value left out, integers as base-128 varints. The decoder reads back exactly what
  is written in that form. It is one codec that meets Lawful; the other modules assume no more than that law.
 */
module HeaderCodec {
  import opened ByteStrings
  import opened Wire

  const SERVICE_TAG: byte := 10
  const METHOD_TAG: byte := 18
  const SIZE_TAG: byte := 24
  const ID_TAG: byte := 32

  /** Seven bits a byte, low ones first; the high bit says that more follow. */
  function Varint(n: nat): (s: Bytes)
    ensures |s| >= 1
  {
    if n < 128 then [n] else [128 + n % 128] + Varint(n / 128)
  }

  /** A value read off the front of a byte string, and what follows it. */
  datatype Read<T> = Read(value: T, rest: Bytes)

  function ReadVarint(s: Bytes): (r: Option<Read<nat>>)
    ensures r.Some? ==> |r.value.rest| < |s|
  {
    if s == [] then None
    else if s[0] < 128 then Some(Read(s[0], s[1..]))
    else
      match ReadVarint(s[1..])
      case None => None
      case Some(high) => Some(Read(s[0] - 128 + 128 * high.value, high.rest))
  }

  lemma {:induction false} VarintRoundTrip(n: nat, more: Bytes)
    ensures ReadVarint(Varint(n) + more) == Some(Read(n, more))
  {
    var s := Varint(n) + more;
    if n < 128 {
      assert s[1..] == more;
    } else {
      assert s[1..] == Varint(n / 128) + more;
      VarintRoundTrip(n / 128, more);
    }
  }

  // Fields. One that holds the default value of its type is not written.

  function Field(tag: byte, value: Bytes): Bytes {
    if value == [] then [] else [tag] + Varint(|value|) + value
  }

  function Number(tag: byte, n: nat): Bytes {
    if n == 0 then [] else [tag] + Varint(n)
  }

  predicate Begins(s: Bytes, tag: byte) {
    s != [] && s[0] == tag
  }

  function ReadField(tag: byte, s: Bytes): Option<Read<Bytes>> {
    if !Begins(s, tag) then Some(Read([], s))
    else
      match ReadVarint(s[1..])
      case None => None
      case Some(len) =>
        if len.value > |len.rest| then None
        else Some(Read(len.rest[..len.value], len.rest[len.value..]))
  }

  function ReadNumber(tag: byte, s: Bytes): Option<Read<nat>> {
    if Begins(s, tag) then ReadVarint(s[1..]) else Some(Read(0, s))
  }

  lemma AppendAll(a: Bytes, b: Bytes, c: Bytes, d: Bytes)
    ensures a + b + c + d == a + (b + (c + d))
  {
  }

  lemma WrittenField(tag: byte, value: Bytes, more: Bytes)
    requires value != []
    ensures ReadField(tag, [tag] + (Varint(|value|) + (value + more))) == Some(Read(value, more))
  {
    var s := [tag] + (Varint(|value|) + (value + more));
    assert s[1..] == Varint(|value|) + (value + more);
    VarintRoundTrip(|value|, value + more);
    assert (value + more)[..|value|] == value && (value + more)[|value|..] == more;
  }

  lemma FieldRoundTrip(tag: byte, value: Bytes, more: Bytes)
    requires !Begins(more, tag)
    ensures ReadField(tag, Field(tag, value) + more) == Some(Read(value, more))
  {
    if value == [] {
      assert Field(tag, value) + more == more;
    } else {
      WrittenField(tag, value, more);
      AppendAll([tag], Varint(|value|), value, more);
    }
  }

  lemma WrittenNumber(tag: byte, n: nat, more: Bytes)
    ensures ReadNumber(tag, [tag] + (Varint(n) + more)) == Some(Read(n, more))
  {
    assert ([tag] + (Varint(n) + more))[1..] == Varint(n) + more;
    VarintRoundTrip(n, more);
  }

  lemma NumberRoundTrip(tag: byte, n: nat, more: Bytes)
    requires !Begins(more, tag)
    ensures ReadNumber(tag, Number(tag, n) + more) == Some(Read(n, more))
  {
    if n == 0 {
      assert Number(tag, n) + more == more;
    } else {
      WrittenNumber(tag, n, more);
      AppendAll([tag], Varint(n), [], more);
      assert Number(tag, n) + [] == Number(tag, n) && [] + more == more;
    }
  }

  // Headers.

  function Numbers(h: Header): Bytes {
    Number(SIZE_TAG, h.argsSize) + Number(ID_TAG, h.requestId)
  }

  function Write(h: Header): Bytes {
    Field(SERVICE_TAG, h.serviceName) + (Field(METHOD_TAG, h.methodName) + Numbers(h))
  }

  function ParseNumbers(serviceName: Bytes, methodName: Bytes, s: Bytes): Option<Header> {
    match ReadNumber(SIZE_TAG, s)
    case None => None
    case Some(size) =>
      match ReadNumber(ID_TAG, size.rest)
      case None => None
      case Some(id) => if id.rest == [] then Some(Header(serviceName, methodName, size.value, id.value)) else None
  }

  function Parse(s: Bytes): Option<Header> {
    match ReadField(SERVICE_TAG, s)
    case None => None
    case Some(service) =>
      match ReadField(METHOD_TAG, service.rest)
      case None => None
      case Some(name) => ParseNumbers(service.value, name.value, name.rest)
  }

  lemma NumbersBegin(h: Header)
    ensures !Begins(Numbers(h), SERVICE_TAG) && !Begins(Numbers(h), METHOD_TAG)
  {
  }

  lemma NumbersRoundTrip(h: Header)
    ensures ParseNumbers(h.serviceName, h.methodName, Numbers(h)) == Some(h)
  {
    var id := Number(ID_TAG, h.requestId);
    assert !Begins(id, SIZE_TAG);
    NumberRoundTrip(SIZE_TAG, h.argsSize, id);
    assert id + [] == id;
    NumberRoundTrip(ID_TAG, h.requestId, []);
  }

  /** Every header decodes to itself. */
  lemma RoundTrip(h: Header)
    ensures Parse(Write(h)) == Some(h)
  {
    var later := Field(METHOD_TAG, h.methodName) + Numbers(h);
    NumbersBegin(h);
    assert !Begins(later, SERVICE_TAG);
    FieldRoundTrip(SERVICE_TAG, h.serviceName, later);
    FieldRoundTrip(METHOD_TAG, h.methodName, Numbers(h));
    NumbersRoundTrip(h);
  }

  function Encoder(): Header -> Bytes {
    h => Write(h)
  }

  function Service(services: map<Bytes, set<Bytes>>, argsParse: (Bytes, Bytes, Bytes) -> bool): Registry {
    Registry(s => Parse(s), services, argsParse)
  }

  /** The codec law can be met, whatever is registered. */
  lemma MeetsLaw(services: map<Bytes, set<Bytes>>, argsParse: (Bytes, Bytes, Bytes) -> bool)
    ensures Lawful(Service(services, argsParse), Encoder())
  {
    forall h: Header
      ensures Service(services, argsParse).parseHeader(Encoder()(h)) == Some(h)
    {
      RoundTrip(h);
    }
  }

  /** An encoded header, byte by byte: service "s", method "ab", 300 bytes of arguments, id 5. */
  lemma KnownEncoding()
    ensures Write(Header([115], [97, 98], 300, 5)) == [10, 1, 115, 18, 2, 97, 98, 24, 172, 2, 32, 5]
  {
    assert Varint(300) == [172] + Varint(2);
  }

  // The shortest request.

  /** A header with both names takes six bytes at least: two tags, two lengths, a byte of each name. Every protobuf
      decoder has this, whatever order of fields, repeated or unknown ones it accepts. */
  ghost predicate SixBytes(g: Registry) {
    forall s :: g.parseHeader(s).Some? && g.parseHeader(s).value.serviceName != [] && g.parseHeader(s).value.methodName != [] ==>
      |s| >= 6
  }

  ghost predicate Named(services: map<Bytes, set<Bytes>>) {
    forall name :: name in services ==> name != [] && [] !in services[name]
  }

  /** Services and methods have names, so no request takes fewer than ten bytes. */
  lemma TenBytes(g: Registry)
    requires SixBytes(g) && Named(g.services)
    ensures NoShorter(g, 10)
  {
    forall input | TryParse(g, input).Dispatch?
      ensures TryParse(g, input).size >= 10
    {
      assert |input[4..4 + FromLE(input[..4])]| >= 6;
    }
  }

  lemma FieldTakes(tag: byte, s: Bytes)
    requires ReadField(tag, s).Some? && ReadField(tag, s).value.value != []
    ensures |s| >= 3 + |ReadField(tag, s).value.rest|
  {
  }

  /** So it is with the decoder here. */
  lemma MeetsSixBytes(services: map<Bytes, set<Bytes>>, argsParse: (Bytes, Bytes, Bytes) -> bool)
    ensures SixBytes(Service(services, argsParse))
  {
    forall s | Parse(s).Some? && Parse(s).value.serviceName != [] && Parse(s).value.methodName != []
      ensures |s| >= 6
    {
      FieldTakes(SERVICE_TAG, s);
      FieldTakes(METHOD_TAG, ReadField(SERVICE_TAG, s).value.rest);
    }
  }

  /** A request to a method with one-letter names and no arguments takes just ten, as the client writes it. */
  lemma TenByteFrame(service: byte, name: byte)
    ensures |RequestFrame(Encoder(), Request([service], [name], [], 0))| == 10
  {
  }
}
