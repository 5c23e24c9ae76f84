/** What a pot ticket's signature is over (payments.rs): EIP-712 digests, for any 32-byte hash. */
module Eip712 {
  import opened U64
  import opened Bytes

  /** Any function to 32 bytes may stand for keccak. That two texts it is applied to do not collide
      is asked for by name, where it matters. */
  type Hash = seq<byte> -> seq<byte>

  ghost predicate HashOk(k: Hash) { forall x :: |k(x)| == 32 }

  ghost predicate Collide(k: Hash, a: seq<byte>, b: seq<byte>) { a != b && k(a) == k(b) }

  const RESERVE_TYPE := "ReserveTicket(address client,address workerPayout,uint256 maxAmount,uint64 deadline)"
  const SPEND_TYPE := "SpendTicket(address client,address workerPayout,uint256 cumulative,uint64 deadline)"
  const DOMAIN_TYPE := "EIP712Domain(string name,string version,uint256 chainId,address verifyingContract)"

  /** The bytes of a text; every text here is ASCII. */
  function Ascii(s: string): seq<byte> { seq(|s|, i requires 0 <= i < |s| => s[i] as int % 256) }

  datatype Kind = Reserve | Spend

  /** A `ReserveTicket` or a `SpendTicket`: they differ only in their type. */
  datatype Ticket = Ticket(kind: Kind, client: seq<byte>, payout: seq<byte>, amount: u64, deadline: u64)

  datatype Domain = Domain(chainId: u64, contract: seq<byte>)

  predicate Ok(d: Domain, t: Ticket) { |d.contract| == 20 && |t.client| == 20 && |t.payout| == 20 }

  function TypeText(kind: Kind): seq<byte> { Ascii(if kind.Reserve? then RESERVE_TYPE else SPEND_TYPE) }

  function StructText(k: Hash, t: Ticket): seq<byte>
    requires |t.client| == 20 && |t.payout| == 20
  {
    k(TypeText(t.kind)) + WordAddress(t.client) + WordAddress(t.payout) + WordU256(t.amount) + WordU256(t.deadline)
  }

  function DomainText(k: Hash, d: Domain): seq<byte>
    requires |d.contract| == 20
  {
    k(Ascii(DOMAIN_TYPE)) + k(Ascii("RootmodePot")) + k(Ascii("1")) + WordU256(d.chainId) + WordAddress(d.contract)
  }

  /** 0x19 0x01, the domain, the struct: EIP-191's second form. */
  function DigestText(k: Hash, d: Domain, t: Ticket): seq<byte>
    requires Ok(d, t)
  {
    [0x19, 0x01] + k(DomainText(k, d)) + k(StructText(k, t))
  }

  function Digest(k: Hash, d: Domain, t: Ticket): seq<byte>
    requires Ok(d, t)
  {
    k(DigestText(k, d, t))
  }

  /** The 32-byte words of a text. */
  function Word(bs: seq<byte>, i: nat): seq<byte>
    requires 32 * (i + 1) <= |bs|
  {
    bs[32 * i..32 * (i + 1)]
  }

  /** An address in a word: twelve zeros, then its twenty bytes. */
  predicate HoldsAddress(w: seq<byte>, a: seq<byte>) {
    |w| == 32 && w[12..] == a && forall i | 0 <= i < 12 :: w[i] == 0
  }

  /** `hashStruct` and the digest by section "Definition of encodeData" of EIP-712: five words of a struct,
      in the order its type names its members, and 66 bytes of a digest. */
  lemma TicketLayout(k: Hash, t: Ticket)
    requires HashOk(k) && |t.client| == 20 && |t.payout| == 20
    ensures var s := StructText(k, t);
            && |s| == 160 && Word(s, 0) == k(Ascii(if t.kind.Reserve? then RESERVE_TYPE else SPEND_TYPE))
            && HoldsAddress(Word(s, 1), t.client) && HoldsAddress(Word(s, 2), t.payout)
            && FromBe(Word(s, 3)) == t.amount && FromBe(Word(s, 4)) == t.deadline
  {
    FiveInARow(k(TypeText(t.kind)), WordAddress(t.client), WordAddress(t.payout), WordU256(t.amount), WordU256(t.deadline));
    AddressHeld(t.client);
    AddressHeld(t.payout);
    WordValue(t.amount);
    WordValue(t.deadline);
  }

  lemma DomainLayout(k: Hash, d: Domain)
    requires HashOk(k) && |d.contract| == 20
    ensures var s := DomainText(k, d);
            && |s| == 160 && Word(s, 0) == k(Ascii(DOMAIN_TYPE)) && Word(s, 1) == k(Ascii("RootmodePot")) && Word(s, 2) == k(Ascii("1"))
            && FromBe(Word(s, 3)) == d.chainId && HoldsAddress(Word(s, 4), d.contract)
  {
    FiveInARow(k(Ascii(DOMAIN_TYPE)), k(Ascii("RootmodePot")), k(Ascii("1")), WordU256(d.chainId), WordAddress(d.contract));
    AddressHeld(d.contract);
    WordValue(d.chainId);
  }

  lemma DigestLayout(k: Hash, d: Domain, t: Ticket)
    requires HashOk(k) && Ok(d, t)
    ensures var s := DigestText(k, d, t);
            && Digest(k, d, t) == k(s) && |s| == 66 && s[0] == 0x19 && s[1] == 1
            && s[2..34] == k(DomainText(k, d)) && s[34..] == k(StructText(k, t))
  {}

  lemma FiveInARow(a: seq<byte>, b: seq<byte>, c: seq<byte>, d: seq<byte>, e: seq<byte>)
    requires |a| == |b| == |c| == |d| == |e| == 32
    ensures var s := a + b + c + d + e;
            |s| == 160 && Word(s, 0) == a && Word(s, 1) == b && Word(s, 2) == c && Word(s, 3) == d && Word(s, 4) == e
  {}

  lemma AddressHeld(a: seq<byte>)
    requires |a| == 20
    ensures HoldsAddress(WordAddress(a), a)
  {}

  lemma TypesDiffer()
    ensures TypeText(Reserve) != TypeText(Spend)
  {
    assert |TypeText(Reserve)| == 84 && |TypeText(Spend)| == 83;
  }

  lemma FiveWords(a: seq<byte>, b: seq<byte>, c: seq<byte>, d: seq<byte>, e: seq<byte>,
                  a': seq<byte>, b': seq<byte>, c': seq<byte>, d': seq<byte>, e': seq<byte>)
    requires |a| == |b| == |c| == |d| == |e| == 32 && |a'| == |b'| == |c'| == |d'| == |e'| == 32
    requires a + b + c + d + e == a' + b' + c' + d' + e'
    ensures a == a' && b == b' && c == c' && d == d' && e == e'
  {
    var s, s' := a + b + c + d + e, a' + b' + c' + d' + e';
    assert a == s[..32] && b == s[32..64] && c == s[64..96] && d == s[96..128] && e == s[128..];
    assert a' == s'[..32] && b' == s'[32..64] && c' == s'[64..96] && d' == s'[96..128] && e' == s'[128..];
  }

  lemma AddressWordInjective(a: seq<byte>, b: seq<byte>)
    requires |a| == |b| == 20 && WordAddress(a) == WordAddress(b)
    ensures a == b
  {
    assert WordAddress(a)[12..] == a && WordAddress(b)[12..] == b;
  }

  lemma NumberWordInjective(m: u64, n: u64)
    requires WordU256(m) == WordU256(n)
    ensures m == n
  {
    WordValue(m);
    WordValue(n);
  }

  lemma StructBinds(k: Hash, t: Ticket, u: Ticket)
    requires HashOk(k) && |t.client| == |t.payout| == |u.client| == |u.payout| == 20
    requires StructText(k, t) == StructText(k, u) && !Collide(k, TypeText(t.kind), TypeText(u.kind))
    ensures t == u
  {
    FiveWords(k(TypeText(t.kind)), WordAddress(t.client), WordAddress(t.payout), WordU256(t.amount), WordU256(t.deadline),
              k(TypeText(u.kind)), WordAddress(u.client), WordAddress(u.payout), WordU256(u.amount), WordU256(u.deadline));
    AddressWordInjective(t.client, u.client);
    AddressWordInjective(t.payout, u.payout);
    NumberWordInjective(t.amount, u.amount);
    NumberWordInjective(t.deadline, u.deadline);
    TypesDiffer();
  }

  lemma DomainBinds(k: Hash, d: Domain, e: Domain)
    requires HashOk(k) && |d.contract| == |e.contract| == 20 && DomainText(k, d) == DomainText(k, e)
    ensures d == e
  {
    FiveWords(k(Ascii(DOMAIN_TYPE)), k(Ascii("RootmodePot")), k(Ascii("1")), WordU256(d.chainId), WordAddress(d.contract),
              k(Ascii(DOMAIN_TYPE)), k(Ascii("RootmodePot")), k(Ascii("1")), WordU256(e.chainId), WordAddress(e.contract));
    NumberWordInjective(d.chainId, e.chainId);
    AddressWordInjective(d.contract, e.contract);
  }

  /** A signature is good for one thing: equal digests are the same ticket of the same kind, on the
      same contract of the same chain, or one of the four pairs of hashed texts is a collision. */
  lemma DigestBindsEverything(k: Hash, d: Domain, t: Ticket, e: Domain, u: Ticket)
    requires HashOk(k) && Ok(d, t) && Ok(e, u) && Digest(k, d, t) == Digest(k, e, u)
    requires !Collide(k, DigestText(k, d, t), DigestText(k, e, u))
    requires !Collide(k, DomainText(k, d), DomainText(k, e))
    requires !Collide(k, StructText(k, t), StructText(k, u))
    requires !Collide(k, TypeText(t.kind), TypeText(u.kind))
    ensures d == e && t == u
  {
    var s, s' := DigestText(k, d, t), DigestText(k, e, u);
    assert s[2..34] == k(DomainText(k, d)) && s'[2..34] == k(DomainText(k, e));
    assert s[34..] == k(StructText(k, t)) && s'[34..] == k(StructText(k, u));
    DomainBinds(k, d, e);
    StructBinds(k, t, u);
  }
}
