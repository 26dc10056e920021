/** The half-open key range that stands for "all keys with this prefix" (prefixEnd in etcdclient). */
module PrefixRange {
  import opened ByteStrings

  /** Unsigned lexicographic order, as etcd orders keys. */
  predicate Less(a: Bytes, b: Bytes)
    decreases |a|
  {
    b != [] && (a == [] || a[0] < b[0] || (a[0] == b[0] && Less(a[1..], b[1..])))
  }

  predicate AtMost(a: Bytes, b: Bytes) {
    a == b || Less(a, b)
  }

  /** No byte below 0xff. */
  predicate AllFF(p: Bytes) {
    forall i :: 0 <= i < |p| ==> p[i] == 255
  }

  const TO_THE_END: Bytes := [0]

  /** Drops trailing 0xff bytes and adds one to the last byte left; TO_THE_END if none is. */
  function PrefixEnd(p: Bytes): Bytes {
    if p == [] then TO_THE_END
    else
      var n := |p| - 1;
      if p[n] < 255 then p[..n] + [p[n] + 1] else PrefixEnd(p[..n])
  }

  method ComputePrefixEnd(p: Bytes) returns (end: Bytes)
    ensures end == PrefixEnd(p)
  {
    var i := |p| - 1;
    assert p[..|p|] == p;
    while i >= 0
      invariant -1 <= i < |p| && PrefixEnd(p) == PrefixEnd(p[..i + 1])
    {
      assert p[..i + 1][..i] == p[..i];
      if p[i] < 255 {
        return p[..i] + [p[i] + 1];
      }
      i := i - 1;
    }
    return TO_THE_END;
  }

  /** The marker is returned for nothing but prefixes that no key can exceed without having them. */
  lemma {:induction false} EndIsMarker(p: Bytes)
    ensures PrefixEnd(p) == [0] <==> AllFF(p)
    ensures PrefixEnd(p) != []
  {
    if p != [] {
      var n := |p| - 1;
      if p[n] < 255 {
        var e := p[..n] + [p[n] + 1];
        assert e[n] == p[n] + 1;
        assert !AllFF(p);
      } else {
        EndIsMarker(p[..n]);
        assert forall i :: 0 <= i < n ==> p[..n][i] == p[i];
      }
    }
  }

  /** The end of a prefix, from its first byte. */
  lemma {:induction false} EndFromFront(p: Bytes)
    requires p != []
    ensures PrefixEnd(p) ==
      if AllFF(p[1..]) then (if p[0] < 255 then [p[0] + 1] else TO_THE_END) else [p[0]] + PrefixEnd(p[1..])
  {
    var n := |p| - 1;
    if n == 0 {
      assert p == [p[0]] && p[..0] == [];
    } else {
      assert p[1..][..n - 1] == p[..n][1..];
      assert p[1..][n - 1] == p[n];
      if p[n] < 255 {
        assert p[..n] == [p[0]] + p[1..][..n - 1];
        assert !AllFF(p[1..]);
      } else {
        EndFromFront(p[..n]);
        assert AllFF(p[1..]) <==> AllFF(p[..n][1..]) by {
          assert p[1..] == p[..n][1..] + [p[n]];
        }
      }
    }
  }

  lemma AllFFTail(p: Bytes)
    requires p != []
    ensures AllFF(p) <==> p[0] == 255 && AllFF(p[1..])
  {
    assert p == [p[0]] + p[1..];
  }

  /** A key is at or above an all-0xff string only by having it as a prefix. */
  lemma {:induction false} AboveFF(p: Bytes, k: Bytes)
    requires AllFF(p)
    ensures AtMost(p, k) <==> p <= k
  {
    if p != [] && k != [] && k[0] == 255 {
      AllFFTail(p);
      AboveFF(p[1..], k[1..]);
      PrefixTail(p, k);
    }
  }

  lemma PrefixTail(p: Bytes, k: Bytes)
    requires p != [] && k != []
    ensures p <= k <==> p[0] == k[0] && p[1..] <= k[1..]
    ensures p == k <==> p[0] == k[0] && p[1..] == k[1..]
  {
    assert p == [p[0]] + p[1..] && k == [k[0]] + k[1..];
  }

  /** A key has the prefix exactly if it lies in the range from the prefix to its end. */
  lemma {:induction false} RangeIsPrefix(p: Bytes, k: Bytes)
    ensures p <= k <==> AtMost(p, k) && (PrefixEnd(p) == TO_THE_END || Less(k, PrefixEnd(p)))
    decreases |p|
  {
    EndIsMarker(p);
    if AllFF(p) {
      AboveFF(p, k);
    } else if k == [] {
    } else {
      EndFromFront(p);
      PrefixTail(p, k);
      var q, j := p[1..], k[1..];
      if AllFF(q) {
        AboveFF(q, j);
        AllFFTail(p);
        assert Less(k, [p[0] + 1]) <==> k[0] < p[0] + 1;
      } else {
        RangeIsPrefix(q, j);
        EndIsMarker(q);
        var e := PrefixEnd(p);
        assert e[0] == p[0] && e[1..] == PrefixEnd(q);
      }
    }
  }
}
