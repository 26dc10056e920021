/** Base64 with the standard alphabet and padding (section 4 of RFC 4648), as etcdclient encodes keys. */
module Base64 {
  import opened ByteStrings

  type sextet = d: int | 0 <= d < 64

  const PAD: byte := 61

  /** The 64-character alphabet. */
  function Tab(d: sextet): byte {
    if d < 26 then 65 + d else if d < 52 then 71 + d else if d < 62 then d - 4 else if d == 62 then 43 else 47
  }

  /** The digit a character stands for, or -1. */
  function Val(c: byte): int {
    if 65 <= c <= 90 then c - 65
    else if 97 <= c <= 122 then c - 97 + 26
    else if 48 <= c <= 57 then c - 48 + 52
    else if c == 43 then 62
    else if c == 47 then 63
    else -1
  }

  /** The alphabet in order: capital letters, small letters, digits, plus, slash; and the padding. */
  lemma Alphabet(d: sextet)
    ensures d < 26 ==> Tab(d) == 'A' as int + d
    ensures 26 <= d < 52 ==> Tab(d) == 'a' as int + (d - 26)
    ensures 52 <= d < 62 ==> Tab(d) == '0' as int + (d - 52)
    ensures Tab(62) == '+' as int && Tab(63) == '/' as int && PAD == '=' as int
  {
  }

  lemma ValTab(d: sextet)
    ensures Val(Tab(d)) == d
  {
  }

  // How three bytes x, y, z and four digits a, b, c, d hold the same 24 bits.

  function DigitA(x: byte): sextet {
    x as int / 4
  }

  function DigitB(x: byte, y: byte): sextet {
    x as int % 4 * 16 + y as int / 16
  }

  function DigitC(y: byte, z: byte): sextet {
    y as int % 16 * 4 + z as int / 64
  }

  function DigitD(z: byte): sextet {
    z as int % 64
  }

  // The last digit when no byte follows x, or none follows y.

  function LastB(x: byte): sextet {
    x as int % 4 * 16
  }

  function LastC(y: byte): sextet {
    y as int % 16 * 4
  }

  function ByteX(a: sextet, b: sextet): byte {
    a as int * 4 + b as int / 16
  }

  function ByteY(b: sextet, c: sextet): byte {
    b as int % 16 * 16 + c as int / 4
  }

  function ByteZ(c: sextet, d: sextet): byte {
    c as int % 4 * 64 + d as int
  }

  lemma SameBits(x: byte, y: byte, z: byte)
    ensures ByteX(DigitA(x), DigitB(x, y)) == x
    ensures ByteY(DigitB(x, y), DigitC(y, z)) == y
    ensures ByteZ(DigitC(y, z), DigitD(z)) == z
    ensures ByteX(DigitA(x), LastB(x)) == x && ByteY(DigitB(x, y), LastC(y)) == y
  {
  }

  /** The four digits are the number that the three bytes are, first byte and first digit most significant. */
  lemma SameNumber(x: byte, y: byte, z: byte)
    ensures 262144 * DigitA(x) + 4096 * DigitB(x, y) + 64 * DigitC(y, z) + DigitD(z) == 65536 * x + 256 * y + z
    ensures LastB(x) == DigitB(x, 0) && LastC(y) == DigitC(y, 0)
  {
  }

  function Three(x: byte, y: byte, z: byte): Bytes {
    [Tab(DigitA(x)), Tab(DigitB(x, y)), Tab(DigitC(y, z)), Tab(DigitD(z))]
  }

  function Two(x: byte, y: byte): Bytes {
    [Tab(DigitA(x)), Tab(DigitB(x, y)), Tab(LastC(y)), PAD]
  }

  function One(x: byte): Bytes {
    [Tab(DigitA(x)), Tab(LastB(x)), PAD, PAD]
  }

  /** The test vectors of section 10 of RFC 4648 that end in a group of one, two and three bytes. */
  lemma KnownEncodings()
    ensures Encode([102, 111, 111, 98]) == [90, 109, 57, 118, 89, 103, 61, 61]
    ensures Encode([102, 111, 111, 98, 97]) == [90, 109, 57, 118, 89, 109, 69, 61]
    ensures Encode([102, 111, 111, 98, 97, 114]) == [90, 109, 57, 118, 89, 109, 70, 121]
  {
    assert [102, 111, 111, 98][3..] == [98];
    assert [102, 111, 111, 98, 97][3..] == [98, 97];
    assert [102, 111, 111, 98, 97, 114][3..] == [98, 97, 114];
    assert [98, 97, 114][3..] == [];
  }

  /** Three bytes are four digits; one or two at the end are two or three digits and padding. */
  function Encode(s: Bytes): Bytes
    decreases |s|
  {
    if |s| == 0 then []
    else if |s| == 1 then One(s[0])
    else if |s| == 2 then Two(s[0], s[1])
    else Three(s[0], s[1], s[2]) + Encode(s[3..])
  }

  /** The digits of a text: whatever is not in the alphabet is skipped. */
  function Digits(t: Bytes): seq<sextet> {
    if t == [] then []
    else
      var c := t[|t| - 1];
      Digits(t[..|t| - 1]) + if Val(c) >= 0 then [Val(c)] else []
  }

  /** How far decoding has got: the place in the group of four digits, the last digit, the bytes so far. */
  datatype Decoder = Decoder(phase: nat, last: sextet, out: Bytes)

  /** One digit more completes a byte unless it is the first of its group. */
  function Step(s: Decoder, e: sextet): Decoder {
    if s.phase == 0 then Decoder(1, e, s.out)
    else if s.phase == 1 then Decoder(2, e, s.out + [ByteX(s.last, e)])
    else if s.phase == 2 then Decoder(3, e, s.out + [ByteY(s.last, e)])
    else Decoder(0, e, s.out + [ByteZ(s.last, e)])
  }

  function Feed(s: Decoder, d: seq<sextet>): Decoder
    decreases |d|
  {
    if d == [] then s else Feed(Step(s, d[0]), d[1..])
  }

  function Begin(last: sextet): Decoder {
    Decoder(0, last, [])
  }

  /** The bytes that a sequence of digits spells; bits left over are dropped. */
  function Decode(d: seq<sextet>): Bytes {
    Feed(Begin(0), d).out
  }

  /** Every started group of three bytes takes four characters. */
  lemma {:induction false} EncodeLength(s: Bytes, groups: nat)
    requires 3 * groups <= |s| + 2 < 3 * groups + 3
    ensures |Encode(s)| == 4 * groups
    decreases |s|
  {
    if |s| >= 3 {
      EncodeLength(s[3..], groups - 1);
    }
  }

  /** The length that b64Encode reserves is exact. */
  lemma EncodeExactLength(s: Bytes)
    ensures |Encode(s)| == (|s| + 2) / 3 * 4
  {
    EncodeLength(s, (|s| + 2) / 3);
  }

  // Round trip.

  lemma {:induction false} DigitsAppend(a: Bytes, b: Bytes)
    ensures Digits(a + b) == Digits(a) + Digits(b)
  {
    if b == [] {
      assert a + b == a;
    } else {
      DigitsAppend(a, b[..|b| - 1]);
      assert (a + b)[..|a + b| - 1] == a + b[..|b| - 1];
    }
  }

  function DigitOf(c: byte): seq<sextet> {
    if Val(c) >= 0 then [Val(c)] else []
  }

  lemma DigitsOfFour(a: byte, b: byte, c: byte, d: byte)
    ensures Digits([a, b, c, d]) == DigitOf(a) + DigitOf(b) + DigitOf(c) + DigitOf(d)
  {
    DigitsAppend([a, b, c], [d]);
    DigitsAppend([a, b], [c]);
    DigitsAppend([a], [b]);
    assert [a, b] + [c] == [a, b, c] && [a, b, c] + [d] == [a, b, c, d] && [a] + [b] == [a, b];
    OneDigit(a);
    OneDigit(b);
    OneDigit(c);
    OneDigit(d);
  }

  lemma OneDigit(c: byte)
    ensures Digits([c]) == DigitOf(c)
  {
    assert [c][..0] == [];
  }

  lemma {:induction false} FeedAppend(s: Decoder, d: seq<sextet>, e: seq<sextet>)
    ensures Feed(s, d + e) == Feed(Feed(s, d), e)
    decreases |d|
  {
    if d == [] {
      assert d + e == e;
    } else {
      assert (d + e)[1..] == d[1..] + e;
      FeedAppend(Step(s, d[0]), d[1..], e);
    }
  }

  /** At the start of a group only the digits to come matter. */
  lemma {:induction false} FeedOut(s: Decoder, t: Decoder, d: seq<sextet>, more: Bytes)
    requires s.phase == t.phase && s.out == more + t.out && (s.phase == 0 || s.last == t.last)
    ensures Feed(s, d).out == more + Feed(t, d).out
    decreases |d|
  {
    if d != [] {
      var s', t' := Step(s, d[0]), Step(t, d[0]);
      assert s'.out == more + t'.out;
      FeedOut(s', t', d[1..], more);
    }
  }

  lemma FeedLast(s: Decoder, e: sextet)
    ensures Feed(s, [e]) == Step(s, e)
  {
    assert [e][1..] == [];
    assert Feed(Step(s, e), []) == Step(s, e);
  }

  lemma FeedTwo(l: sextet, a: sextet, b: sextet)
    ensures Feed(Begin(l), [a, b]) == Decoder(2, b, [ByteX(a, b)])
  {
    assert [a, b][1..] == [b];
    FeedLast(Step(Begin(l), a), b);
    assert [] + [ByteX(a, b)] == [ByteX(a, b)];
  }

  lemma FeedThree(l: sextet, a: sextet, b: sextet, c: sextet)
    ensures Feed(Begin(l), [a, b, c]) == Decoder(3, c, [ByteX(a, b), ByteY(b, c)])
  {
    FeedTwo(l, a, b);
    FeedAppend(Begin(l), [a, b], [c]);
    FeedLast(Feed(Begin(l), [a, b]), c);
    assert [a, b] + [c] == [a, b, c];
  }

  lemma FeedFour(l: sextet, a: sextet, b: sextet, c: sextet, d: sextet)
    ensures Feed(Begin(l), [a, b, c, d]) == Decoder(0, d, [ByteX(a, b), ByteY(b, c), ByteZ(c, d)])
  {
    FeedThree(l, a, b, c);
    FeedAppend(Begin(l), [a, b, c], [d]);
    FeedLast(Feed(Begin(l), [a, b, c]), d);
    assert [a, b, c] + [d] == [a, b, c, d];
  }

  /** Two digits are one byte, three are two, and four are three bytes whatever follows. */
  lemma DecodeGroup(a: sextet, b: sextet, c: sextet, d: sextet, more: seq<sextet>)
    ensures Decode([a, b]) == [ByteX(a, b)]
    ensures Decode([a, b, c]) == [ByteX(a, b), ByteY(b, c)]
    ensures Decode([a, b, c, d] + more) == [ByteX(a, b), ByteY(b, c), ByteZ(c, d)] + Decode(more)
  {
    FeedTwo(0, a, b);
    FeedThree(0, a, b, c);
    FeedFour(0, a, b, c, d);
    FeedAppend(Begin(0), [a, b, c, d], more);
    FeedOut(Decoder(0, d, [ByteX(a, b), ByteY(b, c), ByteZ(c, d)]), Begin(0), more, [ByteX(a, b), ByteY(b, c), ByteZ(c, d)]);
  }

  lemma DigitsOfTabs(a: sextet, b: sextet, c: sextet, d: sextet)
    ensures Digits([Tab(a), Tab(b), Tab(c), Tab(d)]) == [a, b, c, d]
    ensures Digits([Tab(a), Tab(b), Tab(c), PAD]) == [a, b, c]
    ensures Digits([Tab(a), Tab(b), PAD, PAD]) == [a, b]
  {
    TabDigit(a);
    TabDigit(b);
    TabDigit(c);
    TabDigit(d);
    DigitsOfFour(Tab(a), Tab(b), Tab(c), Tab(d));
    DigitsOfFour(Tab(a), Tab(b), Tab(c), PAD);
    DigitsOfFour(Tab(a), Tab(b), PAD, PAD);
  }

  lemma TabDigit(a: sextet)
    ensures DigitOf(Tab(a)) == [a]
  {
    ValTab(a);
  }

  lemma ThreeDigits(x: byte, y: byte, z: byte) returns (a: sextet, b: sextet, c: sextet, d: sextet)
    ensures Digits(Three(x, y, z)) == [a, b, c, d] && ByteX(a, b) == x && ByteY(b, c) == y && ByteZ(c, d) == z
  {
    a, b, c, d := DigitA(x), DigitB(x, y), DigitC(y, z), DigitD(z);
    DigitsOfTabs(a, b, c, d);
    SameBits(x, y, z);
  }

  lemma TwoDigits(x: byte, y: byte, z: byte) returns (a: sextet, b: sextet, c: sextet)
    ensures Digits(Two(x, y)) == [a, b, c] && ByteX(a, b) == x && ByteY(b, c) == y
  {
    a, b, c := DigitA(x), DigitB(x, y), LastC(y);
    DigitsOfTabs(a, b, c, a);
    SameBits(x, y, z);
  }

  lemma OneDigits(x: byte, y: byte, z: byte) returns (a: sextet, b: sextet)
    ensures Digits(One(x)) == [a, b] && ByteX(a, b) == x
  {
    a, b := DigitA(x), LastB(x);
    DigitsOfTabs(a, b, a, b);
    SameBits(x, y, z);
  }

  lemma RoundTripThree(x: byte, y: byte, z: byte, e: Bytes)
    ensures Decode(Digits(Three(x, y, z) + e)) == [x, y, z] + Decode(Digits(e))
  {
    var a, b, c, d := ThreeDigits(x, y, z);
    DigitsAppend(Three(x, y, z), e);
    DecodeGroup(a, b, c, d, Digits(e));
  }

  lemma RoundTripShort(s: Bytes, e: Bytes)
    requires (|s| == 1 && e == One(s[0])) || (|s| == 2 && e == Two(s[0], s[1]))
    ensures Decode(Digits(e)) == s
  {
    if |s| == 1 {
      RoundTripOne(s[0]);
      assert s == [s[0]];
    } else {
      RoundTripTwo(s[0], s[1]);
      assert s == [s[0], s[1]];
    }
  }

  lemma RoundTripOne(x: byte)
    ensures Decode(Digits(One(x))) == [x]
  {
    var a, b := OneDigits(x, x, x);
    DecodeGroup(a, b, a, b, []);
  }

  lemma RoundTripTwo(x: byte, y: byte)
    ensures Decode(Digits(Two(x, y))) == [x, y]
  {
    var a, b, c := TwoDigits(x, y, y);
    DecodeGroup(a, b, c, a, []);
  }

  /** Decoding an encoding gives the bytes back. */
  lemma {:induction false} RoundTrip(s: Bytes)
    ensures Decode(Digits(Encode(s))) == s
    decreases |s|
  {
    if |s| == 0 {
    } else if |s| < 3 {
      RoundTripShort(s, Encode(s));
    } else {
      RoundTripThree(s[0], s[1], s[2], Encode(s[3..]));
      RoundTrip(s[3..]);
      assert s == [s[0], s[1], s[2]] + s[3..];
    }
  }

  /** A text without line breaks, padding, and whatever else is not in the alphabet. */
  function OnlyAlphabet(t: Bytes): Bytes {
    if t == [] then []
    else
      var c := t[|t| - 1];
      OnlyAlphabet(t[..|t| - 1]) + if Val(c) >= 0 then [c] else []
  }

  lemma {:induction false} DigitsOfAlphabet(t: Bytes)
    ensures Digits(OnlyAlphabet(t)) == Digits(t)
  {
    if t != [] {
      var c, front := t[|t| - 1], OnlyAlphabet(t[..|t| - 1]);
      DigitsOfAlphabet(t[..|t| - 1]);
      if Val(c) >= 0 {
        assert (front + [c])[..|front|] == front;
      } else {
        assert front + [] == front;
      }
    }
  }

  /** Line breaks, or anything else outside the alphabet, may stand anywhere in the text of an encoding, and padding may
      be left out: every text that is the encoding once they are removed decodes to the bytes encoded. */
  lemma RoundTripDespiteBreaks(s: Bytes, text: Bytes)
    requires OnlyAlphabet(text) == OnlyAlphabet(Encode(s))
    ensures Decode(Digits(text)) == s
  {
    DigitsOfAlphabet(text);
    DigitsOfAlphabet(Encode(s));
    RoundTrip(s);
  }

  lemma BreaksInvisible(a: Bytes, junk: Bytes, b: Bytes)
    requires forall c :: c in junk ==> Val(c) < 0
    ensures Digits(a + junk + b) == Digits(a + b)
  {
    NoDigits(junk);
    DigitsAppend(a + junk, b);
    DigitsAppend(a, junk);
    DigitsAppend(a, b);
  }

  lemma {:induction false} NoDigits(junk: Bytes)
    requires forall c :: c in junk ==> Val(c) < 0
    ensures Digits(junk) == []
  {
    if junk != [] {
      NoDigits(junk[..|junk| - 1]);
    }
  }

  // The encoder as a loop.

  /** Shifting and masking the 24 bits gives the four digits. */
  lemma Sextets(n: int, a: sextet, b: sextet, c: sextet, d: sextet)
    requires n == 262144 * a as int + 4096 * b as int + 64 * c as int + d as int
    ensures n / 262144 % 64 == a && n / 4096 % 64 == b && n / 64 % 64 == c && n % 64 == d
  {
    var a', b', c', d' := a as int, b as int, c as int, d as int;
    ModUnique(n, 262144, a', 4096 * b' + 64 * c' + d');
    ModUnique(n, 4096, 64 * a' + b', 64 * c' + d');
    ModUnique(64 * a' + b', 64, a', b');
    ModUnique(n, 64, 4096 * a' + 64 * b' + c', d');
    ModUnique(4096 * a' + 64 * b' + c', 64, 64 * a' + b', c');
  }

  /** Shifting and masking the 24 bits gives the four digits. */
  lemma Split24(x: byte, y: byte, z: byte)
    ensures var n := x as int * 65536 + y as int * 256 + z as int;
      && n / 262144 % 64 == DigitA(x) && n / 4096 % 64 == DigitB(x, y)
      && n / 64 % 64 == DigitC(y, z) && n % 64 == DigitD(z)
  {
    Sextets(x as int * 65536 + y as int * 256 + z as int, DigitA(x), DigitB(x, y), DigitC(y, z), DigitD(z));
  }

  lemma SplitTwo(x: byte, y: byte)
    ensures var n := x as int * 65536 + y as int * 256;
      n / 262144 % 64 == DigitA(x) && n / 4096 % 64 == DigitB(x, y) && n / 64 % 64 == LastC(y)
  {
    Sextets(x as int * 65536 + y as int * 256, DigitA(x), DigitB(x, y), LastC(y), 0);
  }

  lemma SplitOne(x: byte)
    ensures var n := x as int * 65536; n / 262144 % 64 == DigitA(x) && n / 4096 % 64 == LastB(x)
  {
    Sextets(x as int * 65536, DigitA(x), LastB(x), 0, 0);
  }

  lemma {:induction false} EncodeGroups(s: Bytes, g: nat)
    requires 3 * g <= |s|
    ensures Encode(s) == Encode(s[..3 * g]) + Encode(s[3 * g..])
    decreases g
  {
    if g == 0 {
      assert s[0..] == s;
    } else {
      assert s[..3 * g][3..] == s[3..][..3 * (g - 1)];
      assert s[3..][3 * (g - 1)..] == s[3 * g..];
      EncodeGroups(s[3..], g - 1);
    }
  }

  lemma EncodeMore(s: Bytes, g: nat)
    requires 3 * g + 3 <= |s|
    ensures var i := 3 * g; Encode(s[..i + 3]) == Encode(s[..i]) + Three(s[i], s[i + 1], s[i + 2])
  {
    var i := 3 * g;
    EncodeGroups(s[..i + 3], g);
    assert s[..i + 3][..i] == s[..i] && s[..i + 3][i..] == [s[i], s[i + 1], s[i + 2]];
    assert [s[i], s[i + 1], s[i + 2]][3..] == [];
  }

  method B64Encode(s: Bytes) returns (out: Bytes)
    ensures out == Encode(s)
  {
    out := [];
    var i := 0;
    ghost var g := 0;
    while i + 2 < |s|
      invariant i <= |s| && i == 3 * g && out == Encode(s[..i])
    {
      var group := EncodeThree(s[i], s[i + 1], s[i + 2]);
      EncodeMore(s, g);
      out := out + group;
      i, g := i + 3, g + 1;
    }
    EncodeGroups(s, g);
    if i < |s| {
      var rest := EncodeRest(s[i..]);
      out := out + rest;
    } else {
      assert s[..i] == s;
    }
  }

  method EncodeThree(x: byte, y: byte, z: byte) returns (out: Bytes)
    ensures out == Three(x, y, z)
  {
    var n: int := x as int * 65536 + y as int * 256 + z as int;
    Split24(x, y, z);
    out := [Tab(n / 262144 % 64), Tab(n / 4096 % 64), Tab(n / 64 % 64), Tab(n % 64)];
  }

  method EncodeRest(s: Bytes) returns (out: Bytes)
    requires 1 <= |s| <= 2
    ensures out == Encode(s)
  {
    var n: int := s[0] as int * 65536;
    var two := 1 < |s|;
    if two {
      n := n + s[1] as int * 256;
    }
    if two {
      SplitTwo(s[0], s[1]);
    } else {
      SplitOne(s[0]);
    }
    out := [Tab(n / 262144 % 64), Tab(n / 4096 % 64), if two then Tab(n / 64 % 64) else PAD, PAD];
  }

  // The decoder as a loop over a 32-bit accumulator.

  const TWO_TO_THE_32: int := 0x1_0000_0000

  /** Two's complement wrap-around of a 32-bit int. */
  function Wrap32(x: int): int {
    (x + 0x8000_0000) % TWO_TO_THE_32 - 0x8000_0000
  }

  /** Wrapping loses nothing of the low 12 bits, which is all the decoder ever looks at. */
  lemma WrapKeepsLow(x: int)
    ensures Wrap32(x) % 4096 == x % 4096
  {
    var q := (x + 0x8000_0000) / TWO_TO_THE_32;
    assert Wrap32(x) == x - 4096 * (0x10_0000 * q);
    ShiftMod(x, -(0x10_0000 * q));
  }

  lemma ShiftMod(x: int, k: int)
    ensures (x + 4096 * k) % 4096 == x % 4096
  {
    ModUnique(x + 4096 * k, 4096, x / 4096 + k, x % 4096);
  }

  /** The bit counter at each place in the group. */
  function BitsAt(phase: nat): int {
    if phase == 0 then -8 else if phase == 1 then -2 else if phase == 2 then -4 else -6
  }

  function ShiftBy(bits: int): int {
    if bits == 0 then 1 else if bits == 2 then 4 else 16
  }

  lemma TopX(last: sextet, e: sextet, val: int)
    requires val % 4096 == last as int * 64 + e as int
    ensures val / 16 % 256 == ByteX(last, e)
  {
    var q, x, r := val / 4096, ByteX(last, e) as int, e as int % 16;
    ModUnique(val, 16, 256 * q + x, r);
    ModUnique(256 * q + x, 256, q, x);
  }

  lemma TopY(last: sextet, e: sextet, val: int)
    requires val % 4096 == last as int * 64 + e as int
    ensures val / 4 % 256 == ByteY(last, e)
  {
    var q, y, r, up := val / 4096, ByteY(last, e) as int, e as int % 4, last as int / 16;
    ModUnique(val, 4, 1024 * q + 256 * up + y, r);
    ModUnique(1024 * q + 256 * up + y, 256, 4 * q + up, y);
  }

  lemma TopZ(last: sextet, e: sextet, val: int)
    requires val % 4096 == last as int * 64 + e as int
    ensures val % 256 == ByteZ(last, e)
  {
    var q, z, up := val / 4096, ByteZ(last, e) as int, last as int / 4;
    ModUnique(val, 256, 16 * q + up, z);
  }

  /** Shifting a digit into the wrapped accumulator keeps the digit before it just above. */
  lemma ShiftIn(last: sextet, e: sextet, val: int)
    requires val % 64 == last
    ensures var next := Wrap32(val * 64 + e as int);
      next % 4096 == last as int * 64 + e as int && next % 64 == e
  {
    var x := val * 64 + e as int;
    WrapKeepsLow(x);
    var low := last as int * 64 + e as int;
    ModUnique(x, 4096, val / 64, low);
    var next := Wrap32(x);
    ModUnique(next, 64, 64 * (next / 4096) + last, e as int);
  }

  /** What the accumulator and the bit counter stand for. */
  ghost predicate Stands(s: Decoder, val: int, bits: int, out: Bytes) {
    s.phase < 4 && bits == BitsAt(s.phase) && val % 64 == s.last && out == s.out
  }

  /** The loop's treatment of a digit that has been shifted in: take the top 8 of the pending bits once there are
      enough. */
  lemma StepStands(s: Decoder, e: sextet, next: int, bits: int, out: Bytes)
    requires s.phase < 4 && bits == BitsAt(s.phase) && out == s.out
    requires next % 4096 == s.last as int * 64 + e as int && next % 64 == e
    ensures if bits + 6 < 0 then Stands(Step(s, e), next, bits + 6, out)
      else 0 <= next / ShiftBy(bits + 6) % 256 && Stands(Step(s, e), next, bits - 2, out + [next / ShiftBy(bits + 6) % 256])
  {
    if s.phase == 1 {
      TopX(s.last, e, next);
    } else if s.phase == 2 {
      TopY(s.last, e, next);
    } else if s.phase == 3 {
      TopZ(s.last, e, next);
    }
  }

  method B64Decode(text: Bytes) returns (out: Bytes)
    ensures out == Decode(Digits(text))
  {
    out := [];
    var val: int, bits: int := 0, -8;
    ghost var s := Begin(0);
    for i := 0 to |text|
      invariant s == Feed(Begin(0), Digits(text[..i])) && Stands(s, val, bits, out)
    {
      var c := text[i];
      DigitsStep(text, i);
      if c == PAD || c == 10 || c == 13 || Val(c) < 0 {
        assert Digits(text[..i]) + [] == Digits(text[..i]);
        continue;
      }
      var d: sextet := Val(c);
      FeedOne(Digits(text[..i]), d);
      ShiftIn(s.last, d, val);
      val := Wrap32(val * 64 + d as int);
      StepStands(s, d, val, bits, out);
      s := Step(s, d);
      bits := bits + 6;
      if bits >= 0 {
        out := out + [val / ShiftBy(bits) % 256];
        bits := bits - 8;
      }
    }
    assert text[..|text|] == text;
  }

  lemma FeedOne(d: seq<sextet>, e: sextet)
    ensures Feed(Begin(0), d + [e]) == Step(Feed(Begin(0), d), e)
  {
    FeedAppend(Begin(0), d, [e]);
    FeedLast(Feed(Begin(0), d), e);
  }

  lemma DigitsStep(text: Bytes, i: nat)
    requires i < |text|
    ensures Digits(text[..i + 1]) == Digits(text[..i]) + DigitOf(text[i])
  {
    assert text[..i + 1][..i] == text[..i];
  }

  // The same loop with an accumulator that never wraps.

  datatype Accumulator = Accumulator(val: int, bits: int, out: Bytes)

  function Take(wraps: bool, a: Accumulator, d: sextet): Accumulator {
    var raw := a.val * 64 + d as int;
    var val := if wraps then Wrap32(raw) else raw;
    if a.bits + 6 >= 0 then Accumulator(val, a.bits - 2, a.out + [val / ShiftBy(a.bits + 6) % 256])
    else Accumulator(val, a.bits + 6, a.out)
  }

  function TakeAll(wraps: bool, d: seq<sextet>): Accumulator {
    if d == [] then Accumulator(0, -8, []) else Take(wraps, TakeAll(wraps, d[..|d| - 1]), d[|d| - 1])
  }

  lemma ShiftInUnbounded(last: sextet, e: sextet, val: int)
    requires val % 64 == last
    ensures var next := val * 64 + e as int; next % 4096 == last as int * 64 + e as int && next % 64 == e
  {
    var next := val * 64 + e as int;
    ModUnique(next, 4096, val / 64, last as int * 64 + e as int);
    ModUnique(next, 64, val, e as int);
  }

  /** The value after a digit is shifted in, wrapped or not. */
  function Shifted(wraps: bool, val: int, d: sextet): int {
    if wraps then Wrap32(val * 64 + d as int) else val * 64 + d as int
  }

  lemma ShiftedLow(wraps: bool, last: sextet, e: sextet, val: int)
    requires val % 64 == last
    ensures Shifted(wraps, val, e) % 4096 == last as int * 64 + e as int && Shifted(wraps, val, e) % 64 == e
  {
    if wraps {
      ShiftIn(last, e, val);
    } else {
      ShiftInUnbounded(last, e, val);
    }
  }

  lemma TakeIs(wraps: bool, a: Accumulator, e: sextet, next: int)
    requires next == Shifted(wraps, a.val, e)
    ensures Take(wraps, a, e) ==
      if a.bits + 6 >= 0 then Accumulator(next, a.bits - 2, a.out + [next / ShiftBy(a.bits + 6) % 256])
      else Accumulator(next, a.bits + 6, a.out)
  {
  }

  lemma TakeStands(wraps: bool, s: Decoder, a: Accumulator, e: sextet, next: int)
    requires Stands(s, a.val, a.bits, a.out) && next == Shifted(wraps, a.val, e)
    requires next % 4096 == s.last as int * 64 + e as int && next % 64 == e
    ensures var b := Take(wraps, a, e); Stands(Step(s, e), b.val, b.bits, b.out)
  {
    TakeIs(wraps, a, e, next);
    StepStands(s, e, next, a.bits, a.out);
  }

  lemma {:induction false} TakeAllStands(wraps: bool, d: seq<sextet>)
    ensures var a := TakeAll(wraps, d); Stands(Feed(Begin(0), d), a.val, a.bits, a.out)
  {
    if d != [] {
      var n, e := |d| - 1, d[|d| - 1];
      var a, s := TakeAll(wraps, d[..n]), Feed(Begin(0), d[..n]);
      TakeAllStands(wraps, d[..n]);
      FeedOne(d[..n], e);
      assert d == d[..n] + [e];
      ShiftedLow(wraps, s.last, e, a.val);
      TakeStands(wraps, s, a, e, Shifted(wraps, a.val, e));
    }
  }

  /** The 32-bit accumulator overflows after six digits, and it does not show. */
  lemma WrapInvisible(d: seq<sextet>)
    ensures TakeAll(true, d).out == TakeAll(false, d).out == Decode(d)
  {
    TakeAllStands(true, d);
    TakeAllStands(false, d);
  }
}
