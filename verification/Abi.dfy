/** What goes to the chain and comes back: calls, words, and the text of a word (chain.rs). */
module Abi {
  import opened U64
  import opened Wrappers
  import opened Bytes

  /** A `reserve` or `settle` call before it is encoded; the selector is the hash's first four bytes. */
  datatype Call = Call(selector: seq<byte>, client: seq<byte>, worker: seq<byte>, amount: u64, deadline: u64, sig: seq<byte>)

  predicate CallOk(c: Call) { |c.selector| == 4 && |c.client| == 20 && |c.worker| == 20 && |c.sig| <= MAX }

  function Padding(n: nat): nat { (32 - n % 32) % 32 }

  function Arguments(c: Call): seq<byte>
    requires CallOk(c)
  {
    WordAddress(c.client) + WordAddress(c.worker) + WordU256(c.amount) + WordU256(c.deadline)
    + WordU256(160) + WordU256(|c.sig|) + c.sig + Zeros(Padding(|c.sig|))
  }

  lemma PaddingFills(n: nat, k: nat)
    requires k <= Padding(n)
    ensures (n + k) % 32 == 0 <==> k == Padding(n)
  {}

  lemma OneMoreZero(sig: seq<byte>, k: nat)
    ensures sig + Zeros(k) + [0] == sig + Zeros(k + 1)
  {}

  method Pad(sig: seq<byte>) returns (padded: seq<byte>)
    ensures padded == sig + Zeros(Padding(|sig|)) && |padded| % 32 == 0
  {
    padded := sig;
    while |padded| % 32 != 0
      invariant |sig| <= |padded| <= |sig| + Padding(|sig|)
      invariant padded == sig + Zeros(|padded| - |sig|)
      decreases |sig| + Padding(|sig|) - |padded|
    {
      PaddingFills(|sig|, |padded| - |sig|);
      OneMoreZero(sig, |padded| - |sig|);
      padded := padded + [0];
    }
    PaddingFills(|sig|, |padded| - |sig|);
  }

  method EncodeCall(c: Call) returns (o: seq<byte>)
    requires CallOk(c)
    ensures o == c.selector + Arguments(c)
  {
    o := c.selector + WordAddress(c.client) + WordAddress(c.worker) + WordU256(c.amount) + WordU256(c.deadline);
    o := o + WordU256(5 * 32) + WordU256(|c.sig|);
    var padded := Pad(c.sig);
    o := o + padded;
  }

  // ------------------------------------------------------------ reading back

  function Word(bs: seq<byte>, i: nat): seq<byte>
    requires 32 * (i + 1) <= |bs|
  {
    bs[32 * i..32 * (i + 1)]
  }

  /** The contract's side of the call, by the rules of the ABI: fixed words in place, the bytes
      argument behind an offset, its length first. */
  function ReadCall(bs: seq<byte>): Option<(seq<byte>, seq<byte>, nat, nat, seq<byte>)> {
    if |bs| < 4 + 5 * 32 then None else
    var args := bs[4..];
    var offset := FromBe(Word(args, 4));
    if offset + 32 > |args| then None else
    var len := FromBe(args[offset..offset + 32]);
    if offset + 32 + len > |args| then None else
    Some((Word(args, 0)[12..], Word(args, 1)[12..], FromBe(Word(args, 2)), FromBe(Word(args, 3)), args[offset + 32..offset + 32 + len]))
  }

  lemma SixWords(a: seq<byte>, b: seq<byte>, c: seq<byte>, d: seq<byte>, e: seq<byte>, f: seq<byte>, rest: seq<byte>)
    requires |a| == |b| == |c| == |d| == |e| == |f| == 32
    ensures var bs := a + b + c + d + e + f + rest;
            && Word(bs, 0) == a && Word(bs, 1) == b && Word(bs, 2) == c && Word(bs, 3) == d && Word(bs, 4) == e
            && bs[160..192] == f && bs[192..] == rest
  {}

  /** Whatever is called is read back as it was meant: no field can be taken for another. */
  lemma CallRoundTrip(c: Call)
    requires CallOk(c)
    ensures ReadCall(c.selector + Arguments(c)) == Some((c.client, c.worker, c.amount, c.deadline, c.sig))
  {
    var bs, args := c.selector + Arguments(c), Arguments(c);
    assert bs[4..] == args;
    var tail := c.sig + Zeros(Padding(|c.sig|));
    SixWords(WordAddress(c.client), WordAddress(c.worker), WordU256(c.amount), WordU256(c.deadline), WordU256(160), WordU256(|c.sig|), tail);
    assert args == WordAddress(c.client) + WordAddress(c.worker) + WordU256(c.amount) + WordU256(c.deadline)
                   + WordU256(160) + WordU256(|c.sig|) + tail;
    WordValue(c.amount);
    WordValue(c.deadline);
    WordValue(160);
    WordValue(|c.sig|);
    assert args[192..][..|c.sig|] == c.sig;
    assert args[192..192 + |c.sig|] == args[192..][..|c.sig|];
  }

  // ---------------------------------------------------------- words as text

  const DIGITS: string := "0123456789abcdef"

  function DigitValue(c: char): Option<nat> {
    if '0' <= c <= '9' then Some(c as int - '0' as int)
    else if 'a' <= c <= 'f' then Some(c as int - 'a' as int + 10)
    else if 'A' <= c <= 'F' then Some(c as int - 'A' as int + 10)
    else None
  }

  /** `hex::encode`. */
  function HexOf(bs: seq<byte>): string {
    if bs == [] then "" else HexOf(bs[..|bs| - 1]) + [DIGITS[bs[|bs| - 1] / 16], DIGITS[bs[|bs| - 1] % 16]]
  }

  function ParseHex(s: string): Option<nat> {
    if s == "" then Some(0) else
    var (head, last) := (ParseHex(s[..|s| - 1]), DigitValue(s[|s| - 1]));
    if head.None? || last.None? then None else Some(head.value * 16 + last.value)
  }

  function TrimZeros(s: string): string {
    if s != "" && s[0] == '0' then TrimZeros(s[1..]) else s
  }

  /** What the worker reads out of one word of the chain's answer: nothing but zero when the text is
      no number, or none a `u64` holds; a sign in front is taken as the source's parser takes it. */
  function ReadU64(word: string): u64 {
    var t := TrimZeros(word);
    var digits := if t != "" && t[0] == '+' then t[1..] else t;
    if digits == "" then 0 else
    var v := ParseHex(digits);
    if v.None? || v.value > MAX then 0 else v.value
  }

  lemma {:induction false} HexValue(bs: seq<byte>)
    ensures ParseHex(HexOf(bs)) == Some(FromBe(bs))
  {
    if bs != [] {
      var n := |bs| - 1;
      HexValue(bs[..n]);
      var s, hi, lo := HexOf(bs), DIGITS[bs[n] / 16], DIGITS[bs[n] % 16];
      assert s[..|s| - 1] == HexOf(bs[..n]) + [hi];
      assert (HexOf(bs[..n]) + [hi])[..|HexOf(bs[..n])|] == HexOf(bs[..n]);
      DigitsRead(bs[n] / 16);
      DigitsRead(bs[n] % 16);
    }
  }

  lemma DigitsRead(d: nat)
    requires d < 16
    ensures DigitValue(DIGITS[d]) == Some(d)
  {}

  lemma {:induction false} ZeroInFront(s: string)
    ensures ParseHex("0" + s) == ParseHex(s)
  {
    var z := "0" + s;
    if s == "" {
      assert z[..0] == "";
    } else {
      ZeroInFront(s[..|s| - 1]);
      assert z[..|z| - 1] == "0" + s[..|s| - 1];
    }
  }

  lemma {:induction false} TrimKeepsValue(s: string)
    ensures ParseHex(TrimZeros(s)) == ParseHex(s)
  {
    if s != "" && s[0] == '0' {
      TrimKeepsValue(s[1..]);
      ZeroInFront(s[1..]);
      assert s == "0" + s[1..];
    }
  }

  lemma {:induction false} PlusIsNoDigit(s: string)
    ensures s != "" && s[0] == '+' ==> ParseHex(s).None?
  {
    if |s| > 1 { PlusIsNoDigit(s[..|s| - 1]); }
  }

  /** Hexadecimal digits of either case. */
  lemma EitherCase(d: nat)
    requires d < 16
    ensures DigitValue("0123456789abcdef"[d]) == DigitValue("0123456789ABCDEF"[d]) == Some(d)
  {}

  function ZeroText(n: nat): string { if n == 0 then "" else "0" + ZeroText(n - 1) }

  lemma {:induction false} TrimsAllZeros(n: nat, rest: string)
    ensures TrimZeros(ZeroText(n) + rest) == TrimZeros(rest)
  {
    if n == 0 {
      assert ZeroText(n) + rest == rest;
    } else {
      TrimsAllZeros(n - 1, rest);
      assert (ZeroText(n) + rest)[1..] == ZeroText(n - 1) + rest;
    }
  }

  /** A text of digits is read as its number, zero when no `u64` holds it, with any zeros in front and, after
      them, one plus sign; what is no number is read as zero. */
  lemma TextsRead(n: nat, plus: bool, digits: string)
    ensures var v := ParseHex(digits);
            ReadU64(ZeroText(n) + (if plus then "+" + digits else digits))
            == if v.Some? && v.value <= MAX then v.value else if v.None? && !plus then ReadU64(digits) else 0
    ensures !plus && ParseHex(digits).None? && !('+' in digits) ==> ReadU64(digits) == 0
  {
    if plus {
      TrimsAllZeros(n, "+" + digits);
      assert ("+" + digits)[1..] == digits;
    } else {
      TrimsAllZeros(n, digits);
      TrimKeepsValue(digits);
      PlusIsNoDigit(TrimZeros(digits));
      TrimLeavesASuffix(digits);
    }
  }

  lemma {:induction false} TrimLeavesASuffix(s: string)
    ensures forall c | c in TrimZeros(s) :: c in s
  {
    if s != "" && s[0] == '0' { TrimLeavesASuffix(s[1..]); }
  }

  /** Any word the chain answers with is read as its number when that is a `u64`, and as zero when
      it is not; so every amount the worker could have written itself is read back. */
  lemma WordsReadBack(w: seq<byte>)
    ensures ReadU64(HexOf(w)) == if FromBe(w) <= MAX then FromBe(w) else 0
    ensures forall v: u64 :: w == WordU256(v) ==> ReadU64(HexOf(w)) == v
  {
    HexValue(w);
    TrimKeepsValue(HexOf(w));
    PlusIsNoDigit(TrimZeros(HexOf(w)));
    forall v: u64 | w == WordU256(v) { WordValue(v); }
  }
}
