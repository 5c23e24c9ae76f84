/** The libp2p event loop's own bookkeeping (node.rs): provider queries, announced keys, advertised
    addresses and relay reservations. Kademlia, mDNS and the swarm are the environment. */
module Node {
  import opened Wrappers

  type PeerId = nat
  type Key = nat
  type QueryId = nat
  type Sender = nat
  type octet = x: int | 0 <= x < 256
  type u128 = x: int | 0 <= x < 0x1_0000_0000_0000_0000_0000_0000_0000_0000

  datatype Protocol = Ip4(a: octet, b: octet, c: octet, d: octet) | Ip6(ip6: u128) | Dns(name: string)
                    | P2p(peer: PeerId) | P2pCircuit | OtherProtocol(code: nat)
  type Addr = seq<Protocol>

  // ---------------------------------------------------------------- addresses

  /** Whether an address could work from another network, judged by its first part. */
  predicate ReachableFromAfar(addr: Addr) {
    addr != [] && match addr[0]
      case Ip4(a, b, c, d) => PublicIp4(a, b, c, d)
      case Ip6(ip) => PublicIp6(ip)
      case Dns(_) => true
      case _ => false
  }

  predicate PublicIp4(a: octet, b: octet, c: octet, d: octet) {
    var privateRange := a == 10 || (a == 172 && 16 <= b <= 31) || (a == 192 && b == 168);
    var unspecifiedOrBroadcast := (a == b == c == d == 0) || (a == b == c == d == 255);
    var documentation := (a == 192 && b == 0 && c == 2) || (a == 198 && b == 51 && c == 100)
                      || (a == 203 && b == 0 && c == 113);
    var cgnat := a == 100 && b / 64 == 1;
    !(a == 127 || privateRange || (a == 169 && b == 254) || unspecifiedOrBroadcast || documentation || cgnat)
  }

  predicate PublicIp6(ip: u128) {
    var head := ip / 0x1_0000_0000_0000_0000_0000_0000_0000;
    !(ip == 1 || ip == 0 || head / 512 == 0xFC00 / 512 || head / 64 == 0xFE80 / 64)
  }

  function Number(a: octet, b: octet, c: octet, d: octet): nat { ((a * 256 + b) * 256 + c) * 256 + d }

  /** One of the `size` addresses from `first` on. */
  predicate Within(ip: nat, first: nat, size: nat) { first <= ip < first + size }

  /** The IPv4 blocks that do not travel. */
  predicate InClosedBlock(ip: nat) {
    || Within(ip, 0, 1) || Within(ip, 0xFFFF_FFFF, 1)
    || Within(ip, 0x0A00_0000, 0x100_0000) || Within(ip, 0x7F00_0000, 0x100_0000)
    || Within(ip, 0x6440_0000, 0x40_0000) || Within(ip, 0xAC10_0000, 0x10_0000)
    || Within(ip, 0xA9FE_0000, 0x1_0000) || Within(ip, 0xC0A8_0000, 0x1_0000)
    || Within(ip, 0xC000_0200, 0x100) || Within(ip, 0xC633_6400, 0x100) || Within(ip, 0xCB00_7100, 0x100)
  }

  /** In base 256: a number lies in a run of whole rows exactly when it does without its last digit. */
  lemma LastDigit(u: nat, d: octet, first: nat, size: nat)
    ensures Within(u * 256 + d, first * 256, size * 256) <==> Within(u, first, size)
  {
  }

  lemma SameDigits(u: nat, d: octet, v: nat, e: octet)
    ensures u * 256 + d == v * 256 + e <==> u == v && d == e
  {
  }

  /** A block that fixes the first octet and a range of the second, or the first three. */
  lemma WithinSecond(a: octet, b: octet, c: octet, d: octet, x: octet, lo: octet, n: nat)
    requires lo + n <= 256
    ensures Within(Number(a, b, c, d), x * 0x100_0000 + lo * 0x1_0000, n * 0x1_0000) <==> a == x && lo <= b < lo + n
  {
    LastDigit((a * 256 + b) * 256 + c, d, (x * 256 + lo) * 256, n * 256);
    LastDigit(a * 256 + b, c, x * 256 + lo, n);
    SecondDigit(a, b, x, lo, n);
  }

  lemma SecondDigit(a: octet, b: octet, x: octet, lo: octet, n: nat)
    requires lo + n <= 256
    ensures Within(a * 256 + b, x * 256 + lo, n) <==> a == x && lo <= b < lo + n
  {
  }

  lemma WithinThird(a: octet, b: octet, c: octet, d: octet, x: octet, y: octet, z: octet)
    ensures Within(Number(a, b, c, d), x * 0x100_0000 + y * 0x1_0000 + z * 0x100, 0x100) <==> a == x && b == y && c == z
  {
    LastDigit((a * 256 + b) * 256 + c, d, (x * 256 + y) * 256 + z, 1);
    SameDigits(a * 256 + b, c, x * 256 + y, z);
    SameDigits(a, b, x, y);
  }

  /** The octet tests name exactly those blocks. */
  lemma PublicIp4IsOutsideTheBlocks(a: octet, b: octet, c: octet, d: octet)
    ensures PublicIp4(a, b, c, d) <==> !InClosedBlock(Number(a, b, c, d))
  {
    WithinSecond(a, b, c, d, 10, 0, 256);
    WithinSecond(a, b, c, d, 127, 0, 256);
    WithinSecond(a, b, c, d, 100, 64, 64);
    WithinSecond(a, b, c, d, 172, 16, 16);
    WithinSecond(a, b, c, d, 169, 254, 1);
    WithinSecond(a, b, c, d, 192, 168, 1);
    WithinThird(a, b, c, d, 192, 0, 2);
    WithinThird(a, b, c, d, 198, 51, 100);
    WithinThird(a, b, c, d, 203, 0, 113);
    assert b / 64 == 1 <==> 64 <= b < 128;
  }

  predicate IsUnspecified(addr: Addr) { Ip4(0, 0, 0, 0) in addr || Ip6(0) in addr }

  /** The IPv6 addresses that do not travel: none, this machine, and the blocks fc00::/7 and fe80::/10. */
  predicate InClosedBlock6(ip: u128) {
    || ip == 0 || ip == 1
    || Within(ip, 0xFC00_0000_0000_0000_0000_0000_0000_0000, 0x200_0000_0000_0000_0000_0000_0000_0000)
    || Within(ip, 0xFE80_0000_0000_0000_0000_0000_0000_0000, 0x40_0000_0000_0000_0000_0000_0000_0000)
  }

  lemma PublicIp6IsOutsideTheBlocks(ip: u128)
    ensures PublicIp6(ip) <==> !InClosedBlock6(ip)
  {
    var head := ip / 0x1_0000_0000_0000_0000_0000_0000_0000;
    assert head * 0x1_0000_0000_0000_0000_0000_0000_0000 <= ip < (head + 1) * 0x1_0000_0000_0000_0000_0000_0000_0000;
    assert head / 512 == 0xFC00 / 512 <==> 0xFC00 <= head < 0xFE00;
    assert head / 64 == 0xFE80 / 64 <==> 0xFE80 <= head < 0xFEC0;
  }

  /** What travels is a name, or an IP address outside the closed blocks. */
  lemma ReachableExactly(addr: Addr)
    ensures ReachableFromAfar(addr) <==>
              addr != [] && (|| addr[0].Dns?
                             || (addr[0].Ip4? && !InClosedBlock(Number(addr[0].a, addr[0].b, addr[0].c, addr[0].d)))
                             || (addr[0].Ip6? && !InClosedBlock6(addr[0].ip6)))
  {
    if addr != [] && addr[0].Ip4? { PublicIp4IsOutsideTheBlocks(addr[0].a, addr[0].b, addr[0].c, addr[0].d); }
    if addr != [] && addr[0].Ip6? { PublicIp6IsOutsideTheBlocks(addr[0].ip6); }
  }

  /** An address is unspecified when any IP address in it is all zeros. */
  lemma UnspecifiedExactly(addr: Addr)
    ensures IsUnspecified(addr) <==>
              exists i | 0 <= i < |addr| :: (addr[i].Ip4? && Number(addr[i].a, addr[i].b, addr[i].c, addr[i].d) == 0) || (addr[i].Ip6? && addr[i].ip6 == 0)
  {}

  function PeerOf(addr: Addr): Option<PeerId> {
    if addr == [] then None
    else if addr[0].P2p? then Some(addr[0].peer)
    else PeerOf(addr[1..])
  }

  /** The peer of an address is the first it names. */
  lemma {:induction false} PeerIsTheFirstNamed(addr: Addr)
    ensures PeerOf(addr).None? <==> forall i | 0 <= i < |addr| :: !addr[i].P2p?
    ensures PeerOf(addr).Some? ==> exists i | 0 <= i < |addr| :: addr[i] == P2p(PeerOf(addr).value) && forall j | 0 <= j < i :: !addr[j].P2p?
  {
    if addr != [] {
      if addr[0].P2p? {
        assert addr[0] == P2p(PeerOf(addr).value);
      } else {
        PeerIsTheFirstNamed(addr[1..]);
        assert forall j | 1 <= j < |addr| :: addr[j] == addr[1..][j - 1];
        if PeerOf(addr).Some? {
          var i :| 0 <= i < |addr[1..]| && addr[1..][i] == P2p(PeerOf(addr[1..]).value) && forall j | 0 <= j < i :: !addr[1..][j].P2p?;
          assert addr[i + 1] == P2p(PeerOf(addr).value);
        }
      }
    }
  }

  // ---------------------------------------------------------------- provider queries

  datatype Waiting = Waiting(tx: Sender, seen: set<PeerId>)
  datatype Answer = Answer(id: QueryId, tx: Sender, peers: set<PeerId>)
  datatype Queries = Queries(pending: map<QueryId, Waiting>, answers: seq<Answer>)

  datatype QueryEvent =
    | Ask(id: QueryId, tx: Sender)
    | Progressed(id: QueryId, found: Option<set<PeerId>>, last: bool)
    | Failed(id: QueryId)

  function Saw(q: Queries, id: QueryId, found: Option<set<PeerId>>): Queries {
    if id in q.pending && found.Some?
    then q.(pending := q.pending[id := q.pending[id].(seen := q.pending[id].seen + found.value)])
    else q
  }

  function Close(q: Queries, id: QueryId): Queries {
    if id in q.pending
    then Queries(q.pending - {id}, q.answers + [Answer(id, q.pending[id].tx, q.pending[id].seen)])
    else q
  }

  function QueryStep(q: Queries, e: QueryEvent): Queries {
    match e
    case Ask(id, tx) => q.(pending := q.pending[id := Waiting(tx, {})])
    case Progressed(id, found, last) => if last then Close(Saw(q, id, found), id) else Saw(q, id, found)
    case Failed(id) => Close(q, id)
  }

  function QueryRun(events: seq<QueryEvent>): Queries {
    if events == [] then Queries(map[], []) else QueryStep(QueryRun(events[..|events| - 1]), events[|events| - 1])
  }

  function AnswersTo(answers: seq<Answer>, id: QueryId): seq<Answer> {
    if answers == [] then [] else
    var init, last := AnswersTo(answers[..|answers| - 1], id), answers[|answers| - 1];
    if last.id == id then init + [last] else init
  }

  predicate Ends(e: QueryEvent, id: QueryId) { e.id == id && (e.Failed? || (e.Progressed? && e.last)) }

  /** How many events it takes the query to end: through its first ending event, or all of them. */
  function Lifetime(tail: seq<QueryEvent>, id: QueryId): (n: nat)
    ensures n <= |tail|
  {
    if tail == [] then 0 else
    var n := Lifetime(tail[..|tail| - 1], id);
    if Ended(tail[..|tail| - 1], id) then n else n + 1
  }

  predicate Ended(tail: seq<QueryEvent>, id: QueryId) {
    exists i | 0 <= i < |tail| :: Ends(tail[i], id)
  }

  /** Every provider reported for this query in these events. */
  function Reported(tail: seq<QueryEvent>, id: QueryId): set<PeerId> {
    if tail == [] then {} else
    var e := tail[|tail| - 1];
    Reported(tail[..|tail| - 1], id) + Adds(e, id)
  }

  predicate IsAnswered(q: Queries, id: QueryId, tx: Sender, peers: set<PeerId>) {
    id !in q.pending && AnswersTo(q.answers, id) == [Answer(id, tx, peers)]
  }

  predicate IsWaiting(q: Queries, id: QueryId, w: Waiting) {
    id in q.pending && q.pending[id] == w && AnswersTo(q.answers, id) == []
  }

  /** A query is answered at most once, when its first ending event comes, with exactly the providers
      reported for its own id from the asking to that event; until then it waits with what it has seen. */
  lemma {:induction false} AnsweredOnceWithTheUnion(events: seq<QueryEvent>, i: nat)
    requires i < |events| && events[i].Ask?
    requires forall j | 0 <= j < |events| && j != i && events[j].Ask? :: events[j].id != events[i].id
    ensures var id, q := events[i].id, QueryRun(events);
            var tail := events[i + 1..];
            && (Ended(tail, id) ==> IsAnswered(q, id, events[i].tx, Reported(tail[..Lifetime(tail, id)], id)))
            && (!Ended(tail, id) ==> IsWaiting(q, id, Waiting(events[i].tx, Reported(tail, id))))
  {
    var id := events[i].id;
    var init, e := events[..|events| - 1], events[|events| - 1];
    if i == |events| - 1 {
      QuietBeforeAsking(init, id);
      assert events[i + 1..] == [];
    } else {
      AnsweredOnceWithTheUnion(init, i);
      assert events[i + 1..] == init[i + 1..] + [e];
      LifetimeGrows(init[i + 1..], e, id);
      if Ended(init[i + 1..], id) {
        StepOfQuietQuery(QueryRun(init), e, id);
      } else {
        StepOfWaitingQuery(QueryRun(init), e, id, Waiting(events[i].tx, Reported(init[i + 1..], id)));
      }
    }
  }

  /** One more event: an ended query keeps its lifetime; a live one ends here or goes on. */
  lemma LifetimeGrows(tail: seq<QueryEvent>, e: QueryEvent, id: QueryId)
    ensures var more := tail + [e];
            && Ended(more, id) == (Ended(tail, id) || Ends(e, id))
            && Reported(more, id) == Reported(tail, id) + Adds(e, id)
            && more[..Lifetime(more, id)] == if Ended(tail, id) then tail[..Lifetime(tail, id)] else more
  {
    var more := tail + [e];
    assert more[..|more| - 1] == tail;
    if Ended(tail, id) {
      var i :| 0 <= i < |tail| && Ends(tail[i], id);
      assert Ends(more[i], id);
    } else {
      NeverEndedLifetime(tail, id);
      assert forall i | 0 <= i < |tail| :: more[i] == tail[i];
      assert Ends(e, id) ==> Ends(more[|tail|], id);
    }
  }

  lemma {:induction false} NeverEndedLifetime(tail: seq<QueryEvent>, id: QueryId)
    requires !Ended(tail, id)
    ensures Lifetime(tail, id) == |tail|
  {
    if tail != [] {
      NeverEndedLifetime(tail[..|tail| - 1], id);
    }
  }

  function Adds(e: QueryEvent, id: QueryId): set<PeerId> {
    if e.id == id && e.Progressed? && e.found.Some? then e.found.value else {}
  }

  lemma OneMoreAnswer(answers: seq<Answer>, x: Answer, id: QueryId)
    ensures AnswersTo(answers + [x], id) == AnswersTo(answers, id) + if x.id == id then [x] else []
  {
    assert (answers + [x])[..|answers|] == answers;
  }

  /** Closing a query answers it, if it waits, and no other. */
  lemma CloseAnswersOne(q: Queries, at: QueryId, id: QueryId)
    ensures at != id || id !in q.pending ==>
              && (id in Close(q, at).pending <==> id in q.pending)
              && (id in q.pending ==> Close(q, at).pending[id] == q.pending[id])
              && AnswersTo(Close(q, at).answers, id) == AnswersTo(q.answers, id)
    ensures at == id && id in q.pending ==>
              && id !in Close(q, at).pending
              && AnswersTo(Close(q, at).answers, id) == AnswersTo(q.answers, id) + [Answer(id, q.pending[id].tx, q.pending[id].seen)]
  {
    if at in q.pending { OneMoreAnswer(q.answers, Answer(at, q.pending[at].tx, q.pending[at].seen), id); }
  }

  /** An event changes nothing for a query that is not waiting. */
  lemma StepOfQuietQuery(q: Queries, e: QueryEvent, id: QueryId)
    requires !(e.Ask? && e.id == id) && id !in q.pending
    ensures id !in QueryStep(q, e).pending && AnswersTo(QueryStep(q, e).answers, id) == AnswersTo(q.answers, id)
  {
    if e.Failed? { CloseAnswersOne(q, e.id, id); }
    if e.Progressed? { CloseAnswersOne(Saw(q, e.id, e.found), e.id, id); }
  }

  /** For a waiting one it adds the providers reported for its own id, and answers if it ends it. */
  lemma StepOfWaitingQuery(q: Queries, e: QueryEvent, id: QueryId, w: Waiting)
    requires !(e.Ask? && e.id == id) && IsWaiting(q, id, w)
    ensures Ends(e, id) ==> IsAnswered(QueryStep(q, e), id, w.tx, w.seen + Adds(e, id))
    ensures !Ends(e, id) ==> IsWaiting(QueryStep(q, e), id, w.(seen := w.seen + Adds(e, id)))
  {
    assert w.seen + {} == w.seen;
    if e.Failed? { CloseAnswersOne(q, e.id, id); }
    if e.Progressed? {
      assert IsWaiting(Saw(q, e.id, e.found), id, w.(seen := w.seen + Adds(e, id)));
      CloseAnswersOne(Saw(q, e.id, e.found), e.id, id);
    }
  }

  /** Nothing is pending or answered for an id nobody has asked about, whatever events name it. */
  lemma {:induction false} QuietBeforeAsking(events: seq<QueryEvent>, id: QueryId)
    requires forall j | 0 <= j < |events| && events[j].Ask? :: events[j].id != id
    ensures id !in QueryRun(events).pending && AnswersTo(QueryRun(events).answers, id) == []
  {
    if events != [] {
      QuietBeforeAsking(events[..|events| - 1], id);
      StepOfQuietQuery(QueryRun(events[..|events| - 1]), events[|events| - 1], id);
    }
  }

  // ---------------------------------------------------------------- announced keys

  /** What the loop believes it announces, and what Kademlia's record store holds. */
  datatype Records = Records(provided: set<Key>, announced: set<Key>)

  /** Withdraw what left the set, publish all of it; the store may refuse keys it does not hold yet. */
  function Provide(r: Records, next: set<Key>, refused: set<Key>): Records {
    Records(next, (r.announced - (r.provided - next)) + (next - refused))
  }

  function ProvideRun(calls: seq<(set<Key>, set<Key>)>): Records {
    if calls == [] then Records({}, {})
    else Provide(ProvideRun(calls[..|calls| - 1]), calls[|calls| - 1].0, calls[|calls| - 1].1)
  }

  /** After any calls nothing outside the last set is announced, and all of it is exactly when every
      key of it that the store refused was announced already. */
  lemma {:induction false} AnnouncedIsTheLastSet(calls: seq<(set<Key>, set<Key>)>)
    ensures ProvideRun(calls).announced <= ProvideRun(calls).provided
    ensures calls != [] ==>
              var (next, refused) := calls[|calls| - 1];
              && ProvideRun(calls).provided == next
              && (ProvideRun(calls).announced == next <==> refused * next <= ProvideRun(calls[..|calls| - 1]).announced)
  {
    if calls != [] {
      var before, next, refused := ProvideRun(calls[..|calls| - 1]), calls[|calls| - 1].0, calls[|calls| - 1].1;
      AnnouncedIsTheLastSet(calls[..|calls| - 1]);
      forall k | k in next ensures k in ProvideRun(calls).announced <==> k in before.announced || k !in refused {
      }
      if refused * next <= before.announced {
        assert forall k | k in next && k in refused :: k in refused * next;
        assert ProvideRun(calls).announced == next;
      } else {
        var k :| k in refused * next && k !in before.announced;
        assert k !in ProvideRun(calls).announced;
      }
    }
  }

  // ---------------------------------------------------------------- advertised addresses

  datatype Adverts = Adverts(listeners: seq<Addr>, advertisedPrivate: seq<Addr>, external: set<Addr>, hasPublic: bool)

  predicate AnyReachable(addrs: set<Addr>) { exists a | a in addrs :: ReachableFromAfar(a) }

  function Declared(declared: set<Addr>): Adverts { Adverts([], [], declared, AnyReachable(declared)) }

  function Members(s: seq<Addr>): set<Addr> { set a | a in s }

  function Hear(s: Adverts, address: Addr): Adverts {
    var s := s.(listeners := s.listeners + [address]);
    if IsUnspecified(address) then s
    else if ReachableFromAfar(address) then
      Adverts(s.listeners, if s.hasPublic then s.advertisedPrivate else [],
              (if s.hasPublic then s.external else s.external - Members(s.advertisedPrivate)) + {address}, true)
    else if !s.hasPublic then
      s.(advertisedPrivate := s.advertisedPrivate + [address], external := s.external + {address})
    else s
  }

  function HearAll(declared: set<Addr>, heard: seq<Addr>): Adverts {
    if heard == [] then Declared(declared)
    else Hear(HearAll(declared, heard[..|heard| - 1]), heard[|heard| - 1])
  }

  /** An address at place `i` that is advertised for being public. */
  predicate PublicAt(heard: seq<Addr>, i: nat) requires i < |heard| {
    !IsUnspecified(heard[i]) && ReachableFromAfar(heard[i])
  }

  predicate PrivateAt(heard: seq<Addr>, i: nat) requires i < |heard| {
    !IsUnspecified(heard[i]) && !ReachableFromAfar(heard[i])
  }

  predicate AnyPublic(heard: seq<Addr>) { exists i | 0 <= i < |heard| :: PublicAt(heard, i) }

  /** Heard as a public address. */
  predicate WasPublic(heard: seq<Addr>, a: Addr) { exists i | 0 <= i < |heard| :: heard[i] == a && PublicAt(heard, i) }

  /** Heard as a private address while nothing public was known. */
  predicate WasPrivate(declared: set<Addr>, heard: seq<Addr>, a: Addr) {
    !AnyReachable(declared)
    && exists i | 0 <= i < |heard| :: heard[i] == a && PrivateAt(heard, i) && !AnyPublic(heard[..i])
  }

  /** What is advertised, in closed form: everything bound while no public address is known; once one is,
      the public ones and those private ones that the operator declared and no listener ever reported
      before the first public one. */
  predicate Advertises(s: Adverts, declared: set<Addr>, heard: seq<Addr>, a: Addr) {
    && s.listeners == heard
    && s.hasPublic == (AnyReachable(declared) || AnyPublic(heard))
    && (s.hasPublic ==> s.advertisedPrivate == [])
    && (!s.hasPublic ==> (a in s.advertisedPrivate <==> WasPrivate(declared, heard, a)))
    && (a in s.external <==>
         || WasPublic(heard, a)
         || (if s.hasPublic then a in declared && (AnyReachable(declared) || !WasPrivate(declared, heard, a))
             else a in declared || WasPrivate(declared, heard, a)))
  }

  /** That is what is advertised after any addresses. */
  lemma {:induction false} AdvertisedExactly(declared: set<Addr>, heard: seq<Addr>, a: Addr)
    ensures Advertises(HearAll(declared, heard), declared, heard, a)
  {
    if heard != [] {
      var init := heard[..|heard| - 1];
      AdvertisedExactly(declared, init, a);
      OneMoreAdvert(HearAll(declared, init), declared, heard, a);
    }
  }

  lemma OneMoreAdvert(s: Adverts, declared: set<Addr>, heard: seq<Addr>, a: Addr)
    requires heard != [] && Advertises(s, declared, heard[..|heard| - 1], a)
    ensures Advertises(Hear(s, heard[|heard| - 1]), declared, heard, a)
  {
    HeardOneMore(declared, heard, a);
    HearChanges(s, heard[|heard| - 1], a);
  }

  /** What one more address changes. */
  lemma HearChanges(s: Adverts, address: Addr, a: Addr)
    ensures var after := Hear(s, address);
            var public, private := !IsUnspecified(address) && ReachableFromAfar(address), !IsUnspecified(address) && !ReachableFromAfar(address);
            && after.hasPublic == (s.hasPublic || public)
            && (a in after.advertisedPrivate <==>
                  (a in s.advertisedPrivate && (s.hasPublic || !public)) || (!s.hasPublic && private && a == address))
            && (a in after.external <==>
                  || (a == address && (public || (private && !s.hasPublic)))
                  || (a in s.external && !(public && !s.hasPublic && a in s.advertisedPrivate)))
  {
  }

  /** How one more address changes what the closed form is made of. */
  lemma HeardOneMore(declared: set<Addr>, heard: seq<Addr>, a: Addr)
    requires heard != []
    ensures var n := |heard| - 1; var init := heard[..n];
            && AnyPublic(heard) == (AnyPublic(init) || PublicAt(heard, n))
            && WasPrivate(declared, heard, a) == (WasPrivate(declared, init, a)
                 || (!AnyReachable(declared) && heard[n] == a && PrivateAt(heard, n) && !AnyPublic(init)))
            && WasPublic(heard, a) == (WasPublic(init, a) || (heard[n] == a && PublicAt(heard, n)))
  {
    var n := |heard| - 1;
    var init := heard[..n];
    forall i | 0 <= i < n ensures PublicAt(heard, i) == PublicAt(init, i) && PrivateAt(heard, i) == PrivateAt(init, i)
                               && heard[..i] == init[..i] {
    }
  }

  // ---------------------------------------------------------------- relay reservations

  datatype SlotEvent =
    | Established(peer: PeerId, granted: bool)
    | ListenerClosed(addresses: seq<Addr>)
    | Alone

  function SlotStep(relays: map<PeerId, Addr>, reserved: set<PeerId>, e: SlotEvent): set<PeerId> {
    match e
    case Established(peer, granted) => if peer in relays && granted then reserved + {peer} else reserved
    case ListenerClosed(addresses) => set p | p in reserved && !Releases(e, p)
    case Alone => {}
  }

  /** A lost circuit listener frees the relays it names; being alone frees every one. */
  predicate Releases(e: SlotEvent, p: PeerId) {
    e.Alone? || (e.ListenerClosed? && OverACircuit(e.addresses) && Names(e.addresses, p))
  }

  predicate OverACircuit(addresses: seq<Addr>) { exists a | a in addresses :: P2pCircuit in a }

  predicate Names(addresses: seq<Addr>, p: PeerId) { exists a | a in addresses :: PeerOf(a) == Some(p) }

  function SlotRun(relays: map<PeerId, Addr>, events: seq<SlotEvent>): set<PeerId> {
    if events == [] then {} else SlotStep(relays, SlotRun(relays, events[..|events| - 1]), events[|events| - 1])
  }

  /** A slot is held exactly when some accepted request for a wanted relay came after every release. */
  lemma {:induction false} ReservedExactly(relays: map<PeerId, Addr>, events: seq<SlotEvent>, p: PeerId)
    ensures SlotRun(relays, events) <= relays.Keys
    ensures p in SlotRun(relays, events) <==>
              p in relays && exists i | 0 <= i < |events| :: GrantStands(events, i, p)
  {
    if events != [] {
      var n := |events| - 1;
      var init := events[..n];
      ReservedExactly(relays, init, p);
      forall i | 0 <= i < n ensures GrantStands(events, i, p) == (GrantStands(init, i, p) && !Releases(events[n], p)) {
        OneMoreSlotEvent(events, i, p);
      }
      assert GrantStands(events, n, p) == (events[n] == Established(p, true));
      assert p in SlotRun(relays, events) <==>
               (p in SlotRun(relays, init) && !Releases(events[n], p)) || (p in relays && events[n] == Established(p, true));
      if exists i | 0 <= i < n :: GrantStands(init, i, p) {
        var i :| 0 <= i < n && GrantStands(init, i, p);
        assert GrantStands(events, i, p) == !Releases(events[n], p);
      }
    }
  }

  lemma OneMoreSlotEvent(events: seq<SlotEvent>, i: nat, p: PeerId)
    requires i < |events| - 1
    ensures GrantStands(events, i, p) == (GrantStands(events[..|events| - 1], i, p) && !Releases(events[|events| - 1], p))
  {
    var init := events[..|events| - 1];
    assert forall k | 0 <= k < |init| :: init[k] == events[k];
    if GrantStands(init, i, p) && !Releases(events[|events| - 1], p) {
      forall k | i < k < |events| ensures !Releases(events[k], p) {
        if k < |init| { assert !Releases(init[k], p); }
      }
    }
  }

  predicate GrantStands(events: seq<SlotEvent>, i: nat, p: PeerId) requires i < |events| {
    events[i] == Established(p, true) && forall k | i < k < |events| :: !Releases(events[k], p)
  }

  /** The circuit asked for through a relay, once its listener closes, frees that relay and no other. */
  lemma LosingACircuitFreesItsRelay(relay: Addr, rest: Addr, p: PeerId, other: PeerId)
    requires PeerOf(relay) == Some(p)
    ensures var e := ListenerClosed([relay + [P2pCircuit] + rest]);
            Releases(e, p) && (Releases(e, other) ==> other == p)
  {
    var a := relay + [P2pCircuit] + rest;
    PeerOfPrefix(relay, [P2pCircuit] + rest);
    assert a == relay + ([P2pCircuit] + rest);
    assert a[|relay|] == P2pCircuit;
    assert a in [a];
  }

  lemma {:induction false} PeerOfPrefix(a: Addr, b: Addr)
    requires PeerOf(a).Some?
    ensures PeerOf(a + b) == PeerOf(a)
  {
    assert (a + b)[0] == a[0] && (a + b)[1..] == a[1..] + b;
    if !a[0].P2p? {
      PeerOfPrefix(a[1..], b);
    }
  }

  // ---------------------------------------------------------------- the loop

  class EventLoop {
    var pendingProviders: map<QueryId, Waiting>
    var answers: seq<Answer>
    var provided: set<Key>
    var announced: set<Key>
    var listeners: seq<Addr>
    var advertisedPrivate: seq<Addr>
    var external: set<Addr>
    var hasPublicExternal: bool
    var relays: map<PeerId, Addr>
    var reserved: set<PeerId>
    var requests: seq<Addr>
    var entryPoints: seq<Addr>
    var dialled: seq<Addr>
    var bootstrapped: bool
    var walks: nat

    ghost function QueryState(): Queries reads this { Queries(pendingProviders, answers) }

    ghost function RecordState(): Records reads this { Records(provided, announced) }

    ghost function AdvertState(): Adverts reads this {
      Adverts(listeners, advertisedPrivate, external, hasPublicExternal)
    }

    /** Relays are the entry points that name a peer, if reservations were asked for; the last address wins. */
    constructor (declared: set<Addr>, bootstrap: seq<Addr>, relayReservation: bool)
      ensures QueryState() == QueryRun([]) && RecordState() == ProvideRun([])
      ensures AdvertState() == HearAll(declared, []) && reserved == SlotRun(relays, [])
      ensures forall p | p in relays :: relayReservation && relays[p] in bootstrap && PeerOf(relays[p]) == Some(p)
      ensures relayReservation ==> forall a | a in bootstrap && PeerOf(a).Some? :: PeerOf(a).value in relays
      ensures entryPoints == bootstrap && !bootstrapped && requests == [] && dialled == []
    {
      pendingProviders, answers, provided, announced := map[], [], {}, {};
      listeners, advertisedPrivate, external := [], [], declared;
      hasPublicExternal := exists a | a in declared :: ReachableFromAfar(a);
      relays, reserved, requests, entryPoints, dialled := map[], {}, [], bootstrap, [];
      bootstrapped, walks := false, 0;
      new;
      for i := 0 to |bootstrap|
        invariant forall p | p in relays :: relayReservation && relays[p] in bootstrap && PeerOf(relays[p]) == Some(p)
        invariant relayReservation ==> forall a | a in bootstrap[..i] && PeerOf(a).Some? :: PeerOf(a).value in relays
        modifies this`relays
      {
        if relayReservation && PeerOf(bootstrap[i]).Some? {
          relays := relays[PeerOf(bootstrap[i]).value := bootstrap[i]];
        }
      }
    }

    method FindProviders(id: QueryId, tx: Sender)
      modifies this`pendingProviders
      ensures QueryState() == QueryStep(old(QueryState()), Ask(id, tx))
    {
      pendingProviders := pendingProviders[id := Waiting(tx, {})];
    }

    method OnProviders(id: QueryId, found: Option<set<PeerId>>, last: bool)
      modifies this`pendingProviders, this`answers
      ensures QueryState() == QueryStep(old(QueryState()), Progressed(id, found, last))
    {
      if id in pendingProviders && found.Some? {
        var entry := pendingProviders[id];
        pendingProviders := pendingProviders[id := entry.(seen := entry.seen + found.value)];
      }
      if last {
        AnswerNow(id);
      }
    }

    method OnProvidersFailed(id: QueryId)
      modifies this`pendingProviders, this`answers
      ensures QueryState() == QueryStep(old(QueryState()), Failed(id))
    {
      AnswerNow(id);
    }

    method AnswerNow(id: QueryId)
      modifies this`pendingProviders, this`answers
      ensures QueryState() == Close(old(QueryState()), id)
    {
      if id in pendingProviders {
        answers := answers + [Answer(id, pendingProviders[id].tx, pendingProviders[id].seen)];
        pendingProviders := pendingProviders - {id};
      }
    }

    method ProvideKeys(keys: seq<Key>, refused: set<Key>)
      modifies this`provided, this`announced
      ensures RecordState() == Provide(old(RecordState()), (set k | k in keys), refused)
    {
      var next := set k | k in keys;
      var gone := provided - next;
      while gone != {}
        invariant gone <= provided - next && provided == old(provided)
        invariant announced == old(announced) - ((provided - next) - gone)
      {
        var key :| key in gone;
        announced := announced - {key};
        gone := gone - {key};
      }
      assert gone == {};
      ghost var kept := announced;
      var todo := next;
      while todo != {}
        invariant todo <= next && provided == old(provided) && announced == kept + ((next - todo) - refused)
      {
        var key :| key in todo;
        if key !in refused {
          announced := announced + {key};
        }
        todo := todo - {key};
      }
      assert todo == {};
      assert announced == (old(announced) - (old(provided) - next)) + (next - refused);
      provided := next;
    }

    method OnNewListenAddr(address: Addr)
      modifies this`listeners, this`advertisedPrivate, this`external, this`hasPublicExternal
      ensures AdvertState() == Hear(old(AdvertState()), address)
    {
      listeners := listeners + [address];
      if IsUnspecified(address) {
        return;
      }
      if ReachableFromAfar(address) {
        if !hasPublicExternal {
          hasPublicExternal := true;
          DrainPrivate();
        }
        external := external + {address};
      } else if !hasPublicExternal {
        advertisedPrivate := advertisedPrivate + [address];
        external := external + {address};
      }
    }

    method DrainPrivate()
      modifies this`advertisedPrivate, this`external
      ensures advertisedPrivate == [] && external == old(external) - Members(old(advertisedPrivate))
    {
      var i := 0;
      while i < |advertisedPrivate|
        invariant i <= |advertisedPrivate| && advertisedPrivate == old(advertisedPrivate)
        invariant external == old(external) - Members(advertisedPrivate[..i])
      {
        assert advertisedPrivate[..i + 1] == advertisedPrivate[..i] + [advertisedPrivate[i]];
        external := external - {advertisedPrivate[i]};
        i := i + 1;
      }
      assert advertisedPrivate[..i] == advertisedPrivate;
      advertisedPrivate := [];
    }

    /** A slot is asked for only when none is held; a refusal leaves it to be asked for again. */
    method OnConnectionEstablished(peer: PeerId, granted: bool)
      modifies this`bootstrapped, this`walks, this`reserved, this`requests
      ensures reserved == SlotStep(relays, old(reserved), Established(peer, granted || peer in old(reserved)))
      ensures requests == if peer in relays && peer !in old(reserved) then old(requests) + [relays[peer] + [P2pCircuit]]
                          else old(requests)
      ensures bootstrapped == (old(bootstrapped) || entryPoints != [])
      ensures walks == old(walks) + if bootstrapped && !old(bootstrapped) then 1 else 0
    {
      if !bootstrapped && entryPoints != [] {
        bootstrapped := true;
        walks := walks + 1;
      }
      if peer in relays && peer !in reserved {
        reserved := reserved + {peer};
        requests := requests + [relays[peer] + [P2pCircuit]];
        if !granted {
          reserved := reserved - {peer};
        }
      }
    }

    method OnListenerClosed(addresses: seq<Addr>)
      modifies this`reserved
      ensures reserved == SlotStep(relays, old(reserved), ListenerClosed(addresses))
    {
      var circuit := exists a | a in addresses :: P2pCircuit in a;
      if circuit {
        for i := 0 to |addresses|
          invariant forall p :: p in reserved <==> p in old(reserved) && !Names(addresses[..i], p)
        {
          assert addresses[..i + 1] == addresses[..i] + [addresses[i]];
          var peer := PeerOf(addresses[i]);
          if peer.Some? {
            reserved := reserved - {peer.value};
          }
        }
        assert addresses[..|addresses|] == addresses;
      }
    }

    /** Only with nobody connected: every entry point is dialled, and every slot may be asked for again. */
    method ReconnectIfAlone(connected: nat)
      modifies this`dialled, this`bootstrapped, this`reserved
      ensures if entryPoints == [] || connected > 0
              then dialled == old(dialled) && bootstrapped == old(bootstrapped) && reserved == old(reserved)
              else dialled == old(dialled) + entryPoints && !bootstrapped && reserved == SlotStep(relays, old(reserved), Alone)
    {
      if entryPoints == [] || connected > 0 {
        return;
      }
      for i := 0 to |entryPoints|
        invariant dialled == old(dialled) + entryPoints[..i]
      {
        dialled := dialled + [entryPoints[i]];
      }
      assert entryPoints[..|entryPoints|] == entryPoints;
      bootstrapped := false;
      reserved := {};
    }
  }
}
