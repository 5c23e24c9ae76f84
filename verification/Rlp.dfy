/** Transactions as bytes: the recursive-length prefix of Appendix B of the Ethereum Yellow Paper, as
    crates/rootmode-worker/src/chain.rs and apps/desktop/src-tauri/src/eth_tx.rs both write it. */
module Rlp {
  import opened U64
  import opened Wrappers
  import opened Bytes

  // ---------------------------------------------------------------- encoding

  /** `u64_be`, which is only asked for numbers above zero: see `ShortestIsStripped`. */
  function U64Be(n: u64): seq<byte> { Shortest(n) }

  function RlpWrap(short: byte, long: byte, b: seq<byte>): seq<byte>
    requires |b| <= MAX && short <= 0xc0 && long <= 0xf7
  {
    if |b| <= 55 then [short + |b|] + b
    else
      U64BeIsShortest(|b|);
      [long + |U64Be(|b|)|] + U64Be(|b|) + b
  }

  function RlpBytes(b: seq<byte>): seq<byte>
    requires |b| <= MAX
  {
    if |b| == 1 && b[0] < 0x80 then [b[0]] else RlpWrap(0x80, 0xb7, b)
  }

  /** A number as an item: its shortest bytes, none for zero. */
  function Quantity(n: u64): seq<byte> { Shortest(n) }

  function RlpU64(n: u64): (r: seq<byte>)
    ensures |Quantity(n)| <= 8 && r == RlpBytes(Quantity(n))
  {
    ShortestIsStripped(n);
    if n == 0 then [0x80] else RlpBytes(U64Be(n))
  }

  function Concat(items: seq<seq<byte>>): seq<byte> {
    if items == [] then [] else items[0] + Concat(items[1..])
  }

  /** The items pushed one after another, then wrapped. */
  method RlpList(items: seq<seq<byte>>) returns (o: seq<byte>)
    requires |Concat(items)| <= MAX
    ensures o == RlpWrap(0xc0, 0xf7, Concat(items))
  {
    var payload: seq<byte> := [];
    for i := 0 to |items|
      invariant payload + Concat(items[i..]) == Concat(items)
    {
      assert items[i..][1..] == items[i + 1..];
      payload := payload + items[i];
    }
    assert payload == Concat(items);
    o := RlpWrap(0xc0, 0xf7, payload);
  }

  // ---------------------------------------------------------------- decoding

  /** The reference reader of one header and what it announces. It takes nothing but the shortest
      form: a short form where it fits, and a length with no leading zero. */
  function ReadWrap(short: byte, long: byte, bs: seq<byte>): Option<(seq<byte>, seq<byte>)>
    requires long == short + 55
  {
    if bs == [] || bs[0] < short || bs[0] > long + 8 then None
    else if bs[0] <= long then
      var n := bs[0] - short;
      if |bs| < 1 + n then None else Some((bs[1..1 + n], bs[1 + n..]))
    else
      var k := bs[0] - long;
      if |bs| < 1 + k || bs[1] == 0 then None else
      var n := FromBe(bs[1..1 + k]);
      if n <= 55 || |bs| < 1 + k + n then None else Some((bs[1 + k..1 + k + n], bs[1 + k + n..]))
  }

  function ReadString(bs: seq<byte>): Option<(seq<byte>, seq<byte>)> {
    if bs != [] && bs[0] < 0x80 then Some((bs[..1], bs[1..])) else
    var r := ReadWrap(0x80, 0xb7, bs);
    if r.Some? && |r.value.0| == 1 && r.value.0[0] < 0x80 then None else r
  }

  function ReadStrings(bs: seq<byte>): Option<seq<seq<byte>>> {
    if bs == [] then Some([]) else
    var r := ReadString(bs);
    if r.None? || |r.value.1| >= |bs| then None else
    var rest := ReadStrings(r.value.1);
    if rest.None? then None else Some([r.value.0] + rest.value)
  }

  /** A list of strings and nothing after it. */
  function ReadList(bs: seq<byte>): Option<seq<seq<byte>>> {
    var r := ReadWrap(0xc0, 0xf7, bs);
    if r.None? || r.value.1 != [] then None else ReadStrings(r.value.0)
  }

  // ------------------------------------------------------------- round trips

  lemma U64BeIsShortest(n: u64)
    requires n > 0
    ensures 1 <= |U64Be(n)| <= 8 && U64Be(n)[0] != 0 && FromBe(U64Be(n)) == n
  {
    ShortestIsStripped(n);
    ShortestValue(n);
  }

  lemma Pieces<T>(head: seq<T>, len: seq<T>, b: seq<T>, rest: seq<T>)
    ensures var bs, k := head + len + b + rest, |head| + |len|;
            && bs[..|head|] == head && bs[|head|..k] == len && bs[k..k + |b|] == b && bs[k + |b|..] == rest
  {}

  lemma WrapRoundTrip(short: byte, long: byte, b: seq<byte>, rest: seq<byte>)
    requires |b| <= MAX && short <= 0xc0 && long == short + 55
    ensures ReadWrap(short, long, RlpWrap(short, long, b) + rest) == Some((b, rest))
  {
    if |b| <= 55 { ShortRoundTrip(short, long, b, rest); } else { LongRoundTrip(short, long, b, rest); }
  }

  lemma ShortRoundTrip(short: byte, long: byte, b: seq<byte>, rest: seq<byte>)
    requires |b| <= 55 && short <= 0xc0 && long == short + 55
    ensures ReadWrap(short, long, RlpWrap(short, long, b) + rest) == Some((b, rest))
  {
    var bs := RlpWrap(short, long, b) + rest;
    assert bs[0] == short + |b| && |bs| == 1 + |b| + |rest|;
    assert bs[1..1 + |b|] == b;
    assert bs[1 + |b|..] == rest;
  }

  lemma LongRoundTrip(short: byte, long: byte, b: seq<byte>, rest: seq<byte>)
    requires 55 < |b| <= MAX && short <= 0xc0 && long == short + 55
    ensures ReadWrap(short, long, RlpWrap(short, long, b) + rest) == Some((b, rest))
  {
    U64BeIsShortest(|b|);
    var lb := U64Be(|b|);
    var bs := RlpWrap(short, long, b) + rest;
    Pieces([long + |lb|], lb, b, rest);
    assert bs == [long + |lb|] + lb + b + rest;
    assert bs[0] == long + |lb| && bs[1] == lb[0];
  }

  lemma StringRoundTrip(b: seq<byte>, rest: seq<byte>)
    requires |b| <= MAX
    ensures ReadString(RlpBytes(b) + rest) == Some((b, rest)) && |rest| < |RlpBytes(b) + rest|
  {
    var bs := RlpBytes(b) + rest;
    if |b| == 1 && b[0] < 0x80 {
      assert bs[..1] == b && bs[1..] == rest;
    } else {
      WrapRoundTrip(0x80, 0xb7, b, rest);
    }
  }

  /** Nothing else reads as that: a string has one spelling. */
  lemma SpellingIsUnique(bs: seq<byte>)
    requires ReadString(bs).Some? && |ReadString(bs).value.0| <= MAX
    ensures bs == RlpBytes(ReadString(bs).value.0) + ReadString(bs).value.1
  {
    var (b, rest) := ReadString(bs).value;
    if bs[0] >= 0x80 {
      if bs[0] > 0xb7 {
        var k := bs[0] - 0xb7;
        U64BeIsShortest(|b|);
        ShortestIsUnique(bs[1..1 + k], U64Be(|b|));
        assert bs == [bs[0]] + bs[1..1 + k] + b + rest;
      } else {
        assert bs == [bs[0]] + b + rest;
      }
    } else {
      assert bs == b + rest;
    }
  }

  function Encoded(items: seq<seq<byte>>): seq<seq<byte>>
    requires forall i | 0 <= i < |items| :: |items[i]| <= MAX
  {
    seq(|items|, i requires 0 <= i < |items| => RlpBytes(items[i]))
  }

  lemma {:induction false} StringsRoundTrip(items: seq<seq<byte>>)
    requires forall i | 0 <= i < |items| :: |items[i]| <= MAX
    ensures ReadStrings(Concat(Encoded(items))) == Some(items)
  {
    if items != [] {
      var tail := Concat(Encoded(items[1..]));
      StringsRoundTrip(items[1..]);
      StringRoundTrip(items[0], tail);
      assert Encoded(items)[1..] == Encoded(items[1..]);
      ReadOne(RlpBytes(items[0]) + tail, items[0], tail, items[1..]);
      assert [items[0]] + items[1..] == items;
    }
  }

  lemma ReadOne(bs: seq<byte>, b: seq<byte>, rest: seq<byte>, more: seq<seq<byte>>)
    requires ReadString(bs) == Some((b, rest)) && |rest| < |bs| && ReadStrings(rest) == Some(more)
    ensures ReadStrings(bs) == Some([b] + more)
  {}

  lemma ListRoundTrip(items: seq<seq<byte>>)
    requires forall i | 0 <= i < |items| :: |items[i]| <= MAX
    requires |Concat(Encoded(items))| <= MAX
    ensures ReadList(RlpWrap(0xc0, 0xf7, Concat(Encoded(items)))) == Some(items)
  {
    WrapRoundTrip(0xc0, 0xf7, Concat(Encoded(items)), []);
    assert RlpWrap(0xc0, 0xf7, Concat(Encoded(items))) + [] == RlpWrap(0xc0, 0xf7, Concat(Encoded(items)));
    StringsRoundTrip(items);
  }

  // ------------------------------------------------------------ transactions

  datatype LegacyTx = LegacyTx(nonce: u64, gasPrice: u64, gas: u64, to: seq<byte>, value: u64, data: seq<byte>, chainId: u64)

  datatype Signature = Signature(v: u64, r: seq<byte>, s: seq<byte>)

  /** What the types say: an address is 20 bytes, a signature's halves 32, and no buffer reaches 2^63. */
  predicate TxOk(tx: LegacyTx, sig: Option<Signature>) {
    && |tx.to| == 20 && |tx.data| < 0x8000_0000_0000_0000
    && (sig.Some? ==> |sig.value.r| == 32 && |sig.value.s| == 32)
  }

  /** What stands in the last three places: the signature, or the chain id and two zeros (EIP-155). */
  function V(tx: LegacyTx, sig: Option<Signature>): u64 { if sig.Some? then sig.value.v else tx.chainId }

  function R(sig: Option<Signature>): seq<byte> { if sig.Some? then StripZeros(sig.value.r) else [] }

  function S(sig: Option<Signature>): seq<byte> { if sig.Some? then StripZeros(sig.value.s) else [] }

  function Items(tx: LegacyTx, sig: Option<Signature>): seq<seq<byte>> {
    [Quantity(tx.nonce), Quantity(tx.gasPrice), Quantity(tx.gas), tx.to, Quantity(tx.value), tx.data,
     Quantity(V(tx, sig)), R(sig), S(sig)]
  }

  function Total(items: seq<seq<byte>>): nat { if items == [] then 0 else |items[0]| + Total(items[1..]) }

  lemma {:induction false} EncodedLength(items: seq<seq<byte>>)
    requires forall i | 0 <= i < |items| :: |items[i]| <= MAX
    ensures |Concat(Encoded(items))| <= Total(items) + 9 * |items|
  {
    if items != [] {
      EncodedLength(items[1..]);
      assert Encoded(items)[1..] == Encoded(items[1..]);
      if |items[0]| > 55 { U64BeIsShortest(|items[0]|); }
    }
  }

  lemma NineFit(items: seq<seq<byte>>)
    requires |items| == 9 && |items[5]| < 0x8000_0000_0000_0000
    requires forall i | 0 <= i < 9 && i != 5 :: |items[i]| <= 32
    ensures (forall i | 0 <= i < 9 :: |items[i]| <= MAX) && |Concat(Encoded(items))| <= MAX
  {
    TotalOfNine(items);
    EncodedLength(items);
  }

  /** Every item fits its length prefix, and so does the whole. */
  lemma ItemsFit(tx: LegacyTx, sig: Option<Signature>)
    requires TxOk(tx, sig)
    ensures |Items(tx, sig)| == 9 && forall i | 0 <= i < 9 :: |Items(tx, sig)[i]| <= MAX
    ensures |Concat(Encoded(Items(tx, sig)))| <= MAX
  {
    ShortestIsStripped(tx.nonce);
    ShortestIsStripped(tx.gasPrice);
    ShortestIsStripped(tx.gas);
    ShortestIsStripped(tx.value);
    ShortestIsStripped(V(tx, sig));
    NineFit(Items(tx, sig));
  }

  lemma TotalFrom(items: seq<seq<byte>>, k: nat)
    requires k < |items|
    ensures Total(items[k..]) == |items[k]| + Total(items[k + 1..])
  {
    assert items[k..][1..] == items[k + 1..];
  }

  lemma TotalOfNine(items: seq<seq<byte>>)
    requires |items| == 9
    ensures Total(items) == |items[0]| + |items[1]| + |items[2]| + |items[3]| + |items[4]| + |items[5]| + |items[6]| + |items[7]| + |items[8]|
  {
    assert items[0..] == items;
    forall k | 0 <= k < 9 { TotalFrom(items, k); }
    var from := (k: nat) requires k <= 9 => Total(items[k..]);
    assert from(0) == |items[0]| + from(1) && from(1) == |items[1]| + from(2) && from(2) == |items[2]| + from(3);
    assert from(3) == |items[3]| + from(4) && from(4) == |items[4]| + from(5) && from(5) == |items[5]| + from(6);
    assert from(6) == |items[6]| + from(7) && from(7) == |items[7]| + from(8) && from(8) == |items[8]| + from(9);
  }

  /** The bytes of a transaction, as the reader will see them. */
  function LegacyBytes(tx: LegacyTx, sig: Option<Signature>): seq<byte>
    requires TxOk(tx, sig)
  {
    ItemsFit(tx, sig);
    RlpWrap(0xc0, 0xf7, Concat(Encoded(Items(tx, sig))))
  }

  /** The nine strings as they are pushed. */
  function Written(tx: LegacyTx, sig: Option<Signature>): seq<seq<byte>>
    requires TxOk(tx, sig)
  {
    [RlpU64(tx.nonce), RlpU64(tx.gasPrice), RlpU64(tx.gas), RlpBytes(tx.to), RlpU64(tx.value), RlpBytes(tx.data),
     RlpU64(V(tx, sig)), RlpBytes(R(sig)), RlpBytes(S(sig))]
  }

  lemma ItemsAsWritten(tx: LegacyTx, sig: Option<Signature>)
    requires TxOk(tx, sig)
    ensures (forall i | 0 <= i < 9 :: |Items(tx, sig)[i]| <= MAX) && Encoded(Items(tx, sig)) == Written(tx, sig)
  {
    ItemsFit(tx, sig);
  }

  /** The shortest bytes of a number. */
  predicate IsNumber(b: seq<byte>, n: nat) { FromBe(b) == n && (b != [] ==> b[0] != 0) }

  /** A transaction's nine items, in Ethereum's order: the last three are the signature's, or the chain id
      and two zeros where it is not signed yet. */
  predicate Spells(items: seq<seq<byte>>, tx: LegacyTx, sig: Option<Signature>) {
    && |items| == 9
    && IsNumber(items[0], tx.nonce) && IsNumber(items[1], tx.gasPrice) && IsNumber(items[2], tx.gas)
    && items[3] == tx.to && IsNumber(items[4], tx.value) && items[5] == tx.data
    && match sig
       case None => IsNumber(items[6], tx.chainId) && items[7] == [] && items[8] == []
       case Some(x) => IsNumber(items[6], x.v) && IsNumber(items[7], FromBe(x.r)) && IsNumber(items[8], FromBe(x.s))
  }

  lemma QuantityIsNumber(n: u64)
    ensures IsNumber(Quantity(n), n)
  {
    ShortestIsStripped(n);
    ShortestValue(n);
  }

  lemma ItemsSpell(tx: LegacyTx, sig: Option<Signature>)
    ensures Spells(Items(tx, sig), tx, sig)
  {
    QuantityIsNumber(tx.nonce);
    QuantityIsNumber(tx.gasPrice);
    QuantityIsNumber(tx.gas);
    QuantityIsNumber(tx.value);
    QuantityIsNumber(V(tx, sig));
    if sig.Some? {
      StripKeepsValue(sig.value.r);
      StripKeepsValue(sig.value.s);
    }
  }

  method LegacyRlp(tx: LegacyTx, sig: Option<Signature>) returns (o: seq<byte>)
    requires TxOk(tx, sig)
    ensures o == LegacyBytes(tx, sig)
    ensures ReadList(o).Some? && Spells(ReadList(o).value, tx, sig)
  {
    ItemsSpell(tx, sig);
    var items := [RlpU64(tx.nonce), RlpU64(tx.gasPrice), RlpU64(tx.gas), RlpBytes(tx.to), RlpU64(tx.value), RlpBytes(tx.data)];
    match sig {
      case None => items := items + [RlpU64(tx.chainId), RlpU64(0), RlpU64(0)];
      case Some(x) => items := items + [RlpU64(x.v), RlpBytes(StripZeros(x.r)), RlpBytes(StripZeros(x.s))];
    }
    assert items == Head(tx) + Tail(tx, sig);
    HeadAndTail(tx, sig);
    TxRoundTrip(tx, sig);
    o := RlpList(items);
  }

  function Head(tx: LegacyTx): seq<seq<byte>>
    requires |tx.to| == 20 && |tx.data| <= MAX
  {
    [RlpU64(tx.nonce), RlpU64(tx.gasPrice), RlpU64(tx.gas), RlpBytes(tx.to), RlpU64(tx.value), RlpBytes(tx.data)]
  }

  function Tail(tx: LegacyTx, sig: Option<Signature>): seq<seq<byte>>
    requires TxOk(tx, sig)
  {
    match sig
    case None => [RlpU64(tx.chainId), RlpU64(0), RlpU64(0)]
    case Some(x) => [RlpU64(x.v), RlpBytes(StripZeros(x.r)), RlpBytes(StripZeros(x.s))]
  }

  lemma HeadAndTail(tx: LegacyTx, sig: Option<Signature>)
    requires TxOk(tx, sig)
    ensures Head(tx) + Tail(tx, sig) == Written(tx, sig)
  {}

  lemma TxRoundTrip(tx: LegacyTx, sig: Option<Signature>)
    requires TxOk(tx, sig)
    ensures |Concat(Written(tx, sig))| <= MAX && LegacyBytes(tx, sig) == RlpWrap(0xc0, 0xf7, Concat(Written(tx, sig)))
    ensures ReadList(LegacyBytes(tx, sig)) == Some(Items(tx, sig))
  {
    ItemsFit(tx, sig);
    ItemsAsWritten(tx, sig);
    ListRoundTrip(Items(tx, sig));
  }

  lemma StripInjective(a: seq<byte>, b: seq<byte>)
    requires |a| == |b| && StripZeros(a) == StripZeros(b)
    ensures a == b
  {
    StripKeepsValue(a);
    StripKeepsValue(b);
    SameLengthSameValue(a, b);
  }

  lemma ItemsInjective(t1: LegacyTx, s1: Option<Signature>, t2: LegacyTx, s2: Option<Signature>)
    requires TxOk(t1, s1) && TxOk(t2, s2) && Items(t1, s1) == Items(t2, s2)
    ensures t1.(chainId := 0) == t2.(chainId := 0)
    ensures V(t1, s1) == V(t2, s2) && R(s1) == R(s2) && S(s1) == S(s2)
  {
    var a, b := Items(t1, s1), Items(t2, s2);
    assert forall i | 0 <= i < 9 :: a[i] == b[i];
    QuantityInjective(t1.nonce, t2.nonce);
    QuantityInjective(t1.gasPrice, t2.gasPrice);
    QuantityInjective(t1.gas, t2.gas);
    QuantityInjective(t1.value, t2.value);
    QuantityInjective(V(t1, s1), V(t2, s2));
  }

  /** The encoding gives every field back: equal bytes are the same transaction with the same
      signature, and only an all-zero signature could be mistaken for none. */
  lemma LegacyRlpInjective(t1: LegacyTx, s1: Option<Signature>, t2: LegacyTx, s2: Option<Signature>)
    requires TxOk(t1, s1) && TxOk(t2, s2) && LegacyBytes(t1, s1) == LegacyBytes(t2, s2)
    ensures t1.(chainId := 0) == t2.(chainId := 0)
    ensures s1.None? && s2.None? ==> t1 == t2
    ensures s1.Some? && s2.Some? ==> s1 == s2
    ensures s1.None? && s2.Some? ==> t1.chainId == s2.value.v && s2.value.r == Zeros(32) && s2.value.s == Zeros(32)
  {
    TxRoundTrip(t1, s1);
    TxRoundTrip(t2, s2);
    ItemsInjective(t1, s1, t2, s2);
    if s1.Some? && s2.Some? {
      StripInjective(s1.value.r, s2.value.r);
      StripInjective(s1.value.s, s2.value.s);
    }
  }

  lemma QuantityInjective(m: u64, n: u64)
    ensures Quantity(m) == Quantity(n) ==> m == n
  {
    ShortestValue(m);
    ShortestValue(n);
  }

  /** The `v` of a signature, EIP-155: doubling and adding 35 saturate, adding the recovery id does not,
      so the sum can be one no `u64` holds. */
  function RecoveryV(chainId: u64, parity: nat): nat
    requires parity <= 1
  {
    SatAdd(Clip(chainId * 2), 35) + parity
  }

  /** `v` says which chain was signed for, and which parity, exactly for the chain ids that leave both
      sums below the top of a `u64`. */
  lemma VNamesTheChain(c: u64)
    ensures c * 2 + 36 <= MAX <==>
              forall c': u64, p: nat, p': nat | p <= 1 && p' <= 1 && RecoveryV(c, p) == RecoveryV(c', p') :: c == c' && p == p'
  {
    if c * 2 + 36 > MAX {
      var c': u64 := if c == MAX then MAX - 1 else c + 1;
      assert RecoveryV(c, 0) == MAX == RecoveryV(c', 0);
    }
  }

  /** The addition overflows exactly for an odd parity on a saturated chain id. */
  lemma VOverflowsExactly(c: u64, p: nat)
    requires p <= 1
    ensures RecoveryV(c, p) > MAX <==> p == 1 && c * 2 + 35 >= MAX
  {}

  /** What signing puts into the transaction; nothing when that addition overflows. */
  function SignedWith(tx: LegacyTx, parity: nat, r: seq<byte>, s: seq<byte>): Option<Signature>
    requires parity <= 1
  {
    if RecoveryV(tx.chainId, parity) > MAX then None else Some(Signature(RecoveryV(tx.chainId, parity), r, s))
  }

  /** The signature is put in as it is made, with the `v` EIP-155 asks for where a `u64` holds it. */
  lemma SignedExactly(tx: LegacyTx, parity: nat, r: seq<byte>, s: seq<byte>)
    requires parity <= 1
    ensures var signed := SignedWith(tx, parity, r, s);
            && (signed.None? <==> parity == 1 && tx.chainId * 2 + 35 >= MAX)
            && (signed.Some? ==> signed.value.r == r && signed.value.s == s
                                 && signed.value.v == Min(tx.chainId * 2 + 35 + parity, MAX))
  {}

  /** So the bytes of a signed transaction fix all of it, its chain included, although the chain id
      itself is not among them, when its chain id is one that `v` names. */
  lemma SignedBytesNameTheChain(t1: LegacyTx, p1: nat, r1: seq<byte>, s1: seq<byte>, t2: LegacyTx, p2: nat, r2: seq<byte>, s2: seq<byte>)
    requires p1 <= 1 && p2 <= 1 && t1.chainId * 2 + 36 <= MAX
    requires var g1, g2 := SignedWith(t1, p1, r1, s1), SignedWith(t2, p2, r2, s2);
             g1.Some? && g2.Some? && TxOk(t1, g1) && TxOk(t2, g2) && LegacyBytes(t1, g1) == LegacyBytes(t2, g2)
    ensures t1 == t2 && p1 == p2 && r1 == r2 && s1 == s2
  {
    LegacyRlpInjective(t1, SignedWith(t1, p1, r1, s1), t2, SignedWith(t2, p2, r2, s2));
    VNamesTheChain(t1.chainId);
  }
}
