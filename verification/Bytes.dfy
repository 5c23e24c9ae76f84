/** Bytes, big-endian numbers, and words of 32 bytes. */
module Bytes {
  import opened U64

  type byte = n: int | 0 <= n < 256

  const U64_BYTES: nat := 8

  function FromBe(b: seq<byte>): nat {
    if b == [] then 0 else FromBe(b[..|b| - 1]) * 256 + b[|b| - 1]
  }

  /** `n` in `k` bytes, cut to what fits. */
  function FixedBe(n: nat, k: nat): (b: seq<byte>)
    ensures |b| == k
  {
    if k == 0 then [] else FixedBe(n / 256, k - 1) + [n % 256]
  }

  /** `u64::to_be_bytes`. */
  function ToBeBytes(n: u64): (b: seq<byte>)
    ensures |b| == 8
  {
    FixedBe(n, U64_BYTES)
  }

  function Pow256(k: nat): nat { if k == 0 then 1 else 256 * Pow256(k - 1) }

  lemma {:induction false} FixedBeValue(n: nat, k: nat)
    requires n < Pow256(k)
    ensures FromBe(FixedBe(n, k)) == n
  {
    if k > 0 {
      FixedBeValue(n / 256, k - 1);
      assert FixedBe(n, k)[..k - 1] == FixedBe(n / 256, k - 1);
    }
  }

  lemma EightBytesHoldAU64(n: u64)
    ensures FromBe(ToBeBytes(n)) == n
  {
    assert Pow256(8) == 256 * Pow256(7) && Pow256(7) == 256 * Pow256(6) && Pow256(6) == 256 * Pow256(5) && Pow256(5) == 256 * Pow256(4);
    assert Pow256(4) == 256 * Pow256(3) && Pow256(3) == 256 * Pow256(2) && Pow256(2) == 256 * Pow256(1) && Pow256(1) == 256;
    FixedBeValue(n, 8);
  }

  function FirstNonZero(b: seq<byte>): (i: nat)
    ensures i <= |b| && (forall k | 0 <= k < i :: b[k] == 0) && (i < |b| ==> b[i] != 0)
  {
    if b == [] || b[0] != 0 then 0 else 1 + FirstNonZero(b[1..])
  }

  function StripZeros(b: seq<byte>): (s: seq<byte>)
    ensures |s| <= |b| && (s != [] ==> s[0] != 0)
  {
    b[FirstNonZero(b)..]
  }

  lemma {:induction false} StripKeepsValue(b: seq<byte>)
    ensures FromBe(StripZeros(b)) == FromBe(b)
  {
    var i := FirstNonZero(b);
    SplitValue(b[..i], b[i..]);
    assert b == b[..i] + b[i..];
    ZerosAreZero(b[..i]);
  }

  lemma {:induction false} ZerosAreZero(b: seq<byte>)
    requires forall k | 0 <= k < |b| :: b[k] == 0
    ensures FromBe(b) == 0
  {
    if b != [] { ZerosAreZero(b[..|b| - 1]); }
  }

  lemma {:induction false} SplitValue(a: seq<byte>, b: seq<byte>)
    ensures FromBe(a + b) == FromBe(a) * Pow256(|b|) + FromBe(b)
  {
    if b == [] {
      assert a + b == a;
    } else {
      SplitValue(a, b[..|b| - 1]);
      assert (a + b)[..|a + b| - 1] == a + b[..|b| - 1];
      Spread(FromBe(a), Pow256(|b| - 1), FromBe(b[..|b| - 1]));
    }
  }

  lemma Spread(x: nat, p: nat, y: nat)
    ensures (x * p + y) * 256 == x * (256 * p) + y * 256
  {}

  lemma {:induction false} ValueBelow(b: seq<byte>)
    ensures FromBe(b) < Pow256(|b|)
  {
    if b != [] { ValueBelow(b[..|b| - 1]); }
  }

  /** A number has one shortest spelling. */
  lemma {:induction false} ShortestIsUnique(a: seq<byte>, b: seq<byte>)
    requires FromBe(a) == FromBe(b)
    requires (a != [] ==> a[0] != 0) && (b != [] ==> b[0] != 0)
    ensures a == b
  {
    if a == [] { NonZero(b); }
    else if b == [] { NonZero(a); }
    else {
      var m, n := |a| - 1, |b| - 1;
      ShortestIsUnique(a[..m], b[..n]);
      assert a == a[..m] + [a[m]] && b == b[..n] + [b[n]];
    }
  }

  lemma {:induction false} NonZero(a: seq<byte>)
    requires a != [] ==> a[0] != 0
    ensures a != [] ==> FromBe(a) > 0
  {
    if |a| > 1 { NonZero(a[..|a| - 1]); }
  }

  /** Numbers spelled in as many bytes are spelled alike. */
  lemma {:induction false} SameLengthSameValue(a: seq<byte>, b: seq<byte>)
    requires |a| == |b| && FromBe(a) == FromBe(b)
    ensures a == b
  {
    if a != [] {
      var n := |a| - 1;
      SameLengthSameValue(a[..n], b[..n]);
      assert a == a[..n] + [a[n]] && b == b[..n] + [b[n]];
    }
  }

  /** A number in as few bytes as hold it; none for zero. */
  function Shortest(n: nat): seq<byte> {
    if n == 0 then [] else Shortest(n / 256) + [n % 256]
  }

  lemma {:induction false} ShortestValue(n: nat)
    ensures FromBe(Shortest(n)) == n && (n > 0 ==> Shortest(n) != [] && Shortest(n)[0] != 0)
  {
    if n > 0 {
      ShortestValue(n / 256);
      assert Shortest(n)[..|Shortest(n)| - 1] == Shortest(n / 256);
    }
  }

  /** It is what the source writes: the eight bytes of a `u64` from the first that is not zero. */
  lemma ShortestIsStripped(n: u64)
    ensures Shortest(n) == StripZeros(ToBeBytes(n)) && |Shortest(n)| <= 8
  {
    EightBytesHoldAU64(n);
    StripKeepsValue(ToBeBytes(n));
    ShortestValue(n);
    ShortestIsUnique(Shortest(n), StripZeros(ToBeBytes(n)));
  }

  function Zeros(n: nat): (z: seq<byte>)
    ensures |z| == n && forall i | 0 <= i < n :: z[i] == 0
  {
    seq(n, i => 0)
  }

  /** A `u64` in a 32-byte word. */
  function WordU256(v: u64): (w: seq<byte>)
    ensures |w| == 32
  {
    Zeros(24) + ToBeBytes(v)
  }

  lemma WordValue(v: u64)
    ensures FromBe(WordU256(v)) == v
  {
    EightBytesHoldAU64(v);
    ZerosAreZero(Zeros(24));
    SplitValue(Zeros(24), ToBeBytes(v));
  }

  /** A 20-byte address in a 32-byte word. */
  function WordAddress(a: seq<byte>): (w: seq<byte>)
    requires |a| == 20
    ensures |w| == 32
  {
    Zeros(12) + a
  }
}
