/** Byte strings, host-order (little-endian) integers and concatenation of frames. */
module ByteStrings {

  type byte = b: int | 0 <= b < 256

  type Bytes = seq<byte>

  datatype Option<+T> = None | Some(value: T)

  function Pow256(k: nat): (r: nat)
    ensures r > 0
  {
    if k == 0 then 1 else 256 * Pow256(k - 1)
  }

  /** The k low-order bytes of n: what copying a k-byte unsigned integer into a frame writes. */
  function LE(n: nat, k: nat): (s: Bytes)
    ensures |s| == k
  {
    if k == 0 then [] else [n % 256] + LE(n / 256, k - 1)
  }

  /** The unsigned integer that copying |s| bytes out of a frame yields. */
  function FromLE(s: Bytes): nat {
    if s == [] then 0 else s[0] + 256 * FromLE(s[1..])
  }

  lemma DivModSplit(n: nat, p: nat)
    requires p > 0
    ensures n % (256 * p) == n % 256 + 256 * ((n / 256) % p)
  {
    var q, r := (n / 256) / p, (n / 256) % p;
    assert n / 256 == p * q + r;
    assert n == 256 * (p * q + r) + n % 256;
    assert 256 * (p * q + r) == (256 * p) * q + 256 * r;
    var low := 256 * r + n % 256;
    assert 0 <= low < 256 * p;
    assert n == (256 * p) * q + low;
    ModUnique(n, 256 * p, q, low);
  }

  lemma MulAtLeast(d: int, k: int)
    requires d > 0 && k > 0
    ensures d * k >= d
  {
  }

  /** Distinct multiples of d are at least d apart. */
  lemma MultiplesApart(d: int, q: int, p: int)
    requires d > 0 && q < p
    ensures d * p >= d * q + d
  {
    var k := p - q;
    assert d * (q + k) == d * q + d * k;
    MulAtLeast(d, k);
  }

  lemma ModUnique(n: int, d: int, q: int, r: int)
    requires d > 0 && n == d * q + r && 0 <= r < d
    ensures n % d == r && n / d == q
  {
    if n / d < q {
      MultiplesApart(d, n / d, q);
    } else if q < n / d {
      MultiplesApart(d, q, n / d);
    }
  }

  /** Writing then reading a k-byte integer is reduction modulo 256^k: no other loss. */
  lemma {:induction false} FromLEOfLE(n: nat, k: nat)
    ensures FromLE(LE(n, k)) == n % Pow256(k)
  {
    if k > 0 {
      FromLEOfLE(n / 256, k - 1);
      DivModSplit(n, Pow256(k - 1));
      assert LE(n, k)[1..] == LE(n / 256, k - 1);
    }
  }

  /** An integer that fits comes back unchanged. */
  lemma LERoundTrip(n: nat, k: nat)
    requires n < Pow256(k)
    ensures FromLE(LE(n, k)) == n
  {
    FromLEOfLE(n, k);
    ModUnique(n, Pow256(k), 0, n);
  }

  function Concat(ss: seq<Bytes>): Bytes {
    if ss == [] then [] else ss[0] + Concat(ss[1..])
  }

  lemma {:induction false} ConcatAppend(ss: seq<Bytes>, tt: seq<Bytes>)
    ensures Concat(ss + tt) == Concat(ss) + Concat(tt)
  {
    if ss == [] {
      assert ss + tt == tt;
    } else {
      assert (ss + tt)[1..] == ss[1..] + tt;
      ConcatAppend(ss[1..], tt);
    }
  }

  lemma ConcatSnoc(ss: seq<Bytes>, t: Bytes)
    ensures Concat(ss + [t]) == Concat(ss) + t
  {
    ConcatAppend(ss, [t]);
    assert Concat([t]) == t + Concat([]);
  }

  /** A prefix of the list of frames spells a prefix of the stream. */
  lemma ConcatPrefix(ss: seq<Bytes>, n: nat)
    requires n <= |ss|
    ensures Concat(ss[..n]) <= Concat(ss)
  {
    assert ss == ss[..n] + ss[n..];
    ConcatAppend(ss[..n], ss[n..]);
  }

  predicate NoDup<T(==)>(s: seq<T>) {
    forall i, j :: 0 <= i < j < |s| ==> s[i] != s[j]
  }
}
