/** Several workers on one payout address, the chain they settle on, and everything that can happen
    in between: racing settles, lagging reads, transactions mined after their sender gave up,
    interrupted writes and restarts. */
module Fleet {
  import opened U64
  import opened Wrappers
  import opened Ledger
  import Bonds

  // --------------------------------------------------------------- the chain

  /** The pot's channel for one pair. */
  datatype OnChain = OnChain(reserved: u64, earned: u64)

  type Pot = map<string, OnChain>

  /** The channel the contract files a ledger's id under. It goes by the two wallets, however they were
      spelled, so several ids may have one; nothing is assumed of it. */
  type Key = string -> string

  function Earned(pot: Pot, id: string): u64 { if id in pot then pot[id].earned else 0 }

  function Reserved(pot: Pot, id: string): u64 { if id in pot then pot[id].reserved else 0 }

  /** A settle is mined when the ticket rises above what was recognised and is held by the lock;
      anything else reverts and changes nothing. */
  predicate Mines(pot: Pot, id: string, cumulative: u64) {
    Earned(pot, id) < cumulative <= Reserved(pot, id)
  }

  // ----------------------------------------------------------- the workers

  /** A settlement under way: the chain is being asked, a transaction is out, or the answer that
      this much is recognised is on its way back to the ledger. */
  datatype Stage = Asking | Sent | Recognised

  datatype Settle = Settle(ticket: SpendTicket, stage: Stage)

  /** A worker: its ledger, its disk, its settlements, and every ledger it has held so far. */
  datatype Node = Node(book: Book, disk: Disk, settles: map<nat, Settle>, past: seq<Book>)

  datatype System = System(pot: Pot, nodes: seq<Node>)

  // ------------------------------------------------------------------ events

  datatype Event =
    | Reserve(id: string, amount: u64)                   // anyone posts a raise
    | Close(id: string)                                  // unused lock goes back to the client
    | MineForeign(id: string, cumulative: u64)           // a settle from outside, or one given up on
    | Write(w: nat, move: Move)                          // the ledger takes an authorisation or a ticket
    | DiskStep(w: nat)                                   // one file-system effect
    | Restart(w: nat, now: u64)                          // crash anywhere, then load
    | Begin(w: nat, task: nat, ticket: SpendTicket)
    | ReadRecognised(w: nat, task: nat, earned: u64)     // the pre-check, on a node that may lag
    | Send(w: nat, task: nat)                            // the pre-check found it new, or failed
    | Mine(w: nat, task: nat)
    | GiveUp(w: nat, task: nat)                          // reverted, not mined in time, or the endpoint failed
    | Record(w: nat, task: nat)                          // the ledger is told

  function Id(t: SpendTicket, contract: string): string { IdFor(t.client, t.workerPayout, contract) }

  function Put(s: System, w: nat, n: Node): System
    requires w < |s.nodes|
  {
    s.(nodes := s.nodes[w := n])
  }

  ghost predicate Step(s: System, e: Event, s': System, contract: string, key: Key) {
    match e
    case Reserve(id, amount) =>
      amount > Reserved(s.pot, id) && s' == s.(pot := s.pot[id := OnChain(amount, Earned(s.pot, id))])
    case Close(id) =>
      id in s.pot && s' == s.(pot := s.pot[id := OnChain(Earned(s.pot, id), Earned(s.pot, id))])
    case MineForeign(id, cumulative) =>
      Mines(s.pot, id, cumulative) && s' == s.(pot := s.pot[id := OnChain(Reserved(s.pot, id), cumulative)])
    case Write(w, move) =>
      && w < |s.nodes| && !move.Redeem? && |s'.nodes| == |s.nodes|
      && BookStep(s.nodes[w].book, s'.nodes[w].book, move, contract)
      && s' == Put(s, w, s.nodes[w].(book := s'.nodes[w].book, past := s.nodes[w].past + [s'.nodes[w].book]))
    case DiskStep(w) =>
      && w < |s.nodes| && |s'.nodes| == |s.nodes|
      && WriteStep(s.nodes[w].disk, s'.nodes[w].disk, s.nodes[w].book)
      && s' == Put(s, w, s.nodes[w].(disk := s'.nodes[w].disk))
    case Restart(w, now) =>
      && w < |s.nodes|
      && var book := LoadBook(s.nodes[w].disk.main, contract, now);
         s' == Put(s, w, Node(book, s.nodes[w].disk, map[], s.nodes[w].past + [book]))
    case Begin(w, task, ticket) =>
      && w < |s.nodes| && task !in s.nodes[w].settles
      && Id(ticket, contract) in s.nodes[w].book
      && ticket.cumulative <= s.nodes[w].book[Id(ticket, contract)].authorised
      && s' == Put(s, w, s.nodes[w].(settles := s.nodes[w].settles[task := Settle(ticket, Asking)]))
    case ReadRecognised(w, task, earned) =>
      && Doing(s, w, task, Asking) && earned <= Earned(s.pot, key(Id(s.nodes[w].settles[task].ticket, contract)))
      && s.nodes[w].settles[task].ticket.cumulative <= earned
      && s' == Put(s, w, s.nodes[w].(settles := s.nodes[w].settles[task := s.nodes[w].settles[task].(stage := Recognised)]))
    case Send(w, task) =>
      && Doing(s, w, task, Asking)
      && s' == Put(s, w, s.nodes[w].(settles := s.nodes[w].settles[task := s.nodes[w].settles[task].(stage := Sent)]))
    case Mine(w, task) =>
      && Doing(s, w, task, Sent)
      && var t := s.nodes[w].settles[task].ticket; var id := key(Id(t, contract));
         && Mines(s.pot, id, t.cumulative)
         && s' == Put(s.(pot := s.pot[id := OnChain(Reserved(s.pot, id), t.cumulative)]), w,
                      s.nodes[w].(settles := s.nodes[w].settles[task := Settle(t, Recognised)]))
    case GiveUp(w, task) =>
      && w < |s.nodes| && task in s.nodes[w].settles && !s.nodes[w].settles[task].stage.Recognised?
      && s' == Put(s, w, s.nodes[w].(settles := s.nodes[w].settles - {task}))
    case Record(w, task) =>
      && Doing(s, w, task, Recognised) && |s'.nodes| == |s.nodes|
      && var t := s.nodes[w].settles[task].ticket;
         && BookStep(s.nodes[w].book, s'.nodes[w].book, Redeem(Id(t, contract), t.cumulative), contract)
         && s' == Put(s, w, s.nodes[w].(book := s'.nodes[w].book, settles := s.nodes[w].settles - {task},
                                        past := s.nodes[w].past + [s'.nodes[w].book]))
  }

  predicate Doing(s: System, w: nat, task: nat, stage: Stage) {
    w < |s.nodes| && task in s.nodes[w].settles && s.nodes[w].settles[task].stage == stage
  }

  // --------------------------------------------------------------- invariant

  /** No ledger claims to have been paid more than the chain has recognised. */
  ghost predicate PaidIsRecognised(b: Book, pot: Pot, key: Key) {
    forall id | id in b :: b[id].settled <= Earned(pot, key(id))
  }

  ghost predicate BookFits(b: Book, pot: Pot, contract: string, key: Key) { BookOk(b, contract) && PaidIsRecognised(b, pot, key) }

  ghost predicate SettleOk(x: Settle, b: Book, pot: Pot, contract: string, key: Key) {
    && Id(x.ticket, contract) in b && x.ticket.cumulative <= b[Id(x.ticket, contract)].authorised
    && (x.stage.Recognised? ==> x.ticket.cumulative <= Earned(pot, key(Id(x.ticket, contract))))
  }

  ghost predicate NodeOk(n: Node, pot: Pot, contract: string, key: Key) {
    && BookFits(n.book, pot, contract, key)
    && (forall b | b in n.past :: BookFits(b, pot, contract, key))
    && n.book in n.past
    && DiskOk(n.disk, n.past)
    && forall task | task in n.settles :: SettleOk(n.settles[task], n.book, pot, contract, key)
  }

  ghost predicate PotOk(pot: Pot) { forall id | id in pot :: pot[id].earned <= pot[id].reserved }

  ghost predicate SystemOk(s: System, contract: string, key: Key) {
    PotOk(s.pot) && forall w | 0 <= w < |s.nodes| :: NodeOk(s.nodes[w], s.pot, contract, key)
  }

  ghost predicate EarnedRises(before: Pot, after: Pot) {
    forall id :: Earned(before, id) <= Earned(after, id)
  }

  ghost predicate Init(s: System) {
    s.pot == map[] && forall w | 0 <= w < |s.nodes| :: s.nodes[w] == Node(map[], Disk(Missing, Missing), map[], [map[]])
  }

  // ------------------------------------------------------------------ proofs

  /** A chain that only ever recognises more disturbs no worker. */
  lemma RisingPotKeepsNode(n: Node, before: Pot, after: Pot, contract: string, key: Key)
    requires NodeOk(n, before, contract, key) && EarnedRises(before, after)
    ensures NodeOk(n, after, contract, key)
  {}

  /** A move of the ledger keeps what its settlements rely on. */
  lemma MoveKeepsNode(n: Node, b': Book, m: Move, pot: Pot, contract: string, key: Key)
    requires NodeOk(n, pot, contract, key) && BookStep(n.book, b', m, contract)
    requires m.Redeem? && m.id in n.book ==> m.upto <= n.book[m.id].authorised && m.upto <= Earned(pot, key(m.id))
    ensures NodeOk(n.(book := b', past := n.past + [b']), pot, contract, key)
  {
    BookStepKeepsOk(n.book, b', m, contract);
    assert BookFits(b', pot, contract, key);
    forall task | task in n.settles ensures SettleOk(n.settles[task], b', pot, contract, key) {
      assert SettleOk(n.settles[task], n.book, pot, contract, key);
    }
    DiskKeepsWithMorePast(n.disk, n.past, b');
  }

  lemma DiskKeepsWithMorePast(d: Disk, past: seq<Book>, b: Book)
    requires DiskOk(d, past)
    ensures DiskOk(d, past + [b])
  {
    assert forall x | x in past :: x in past + [b];
  }

  lemma WriteKeepsDisk(n: Node, d': Disk, pot: Pot, contract: string, key: Key)
    requires NodeOk(n, pot, contract, key) && WriteStep(n.disk, d', n.book)
    ensures NodeOk(n.(disk := d'), pot, contract, key)
  {}

  lemma RestartKeepsNode(n: Node, now: u64, pot: Pot, contract: string, key: Key)
    requires NodeOk(n, pot, contract, key)
    ensures var book := LoadBook(n.disk.main, contract, now);
            NodeOk(Node(book, n.disk, map[], n.past + [book]), pot, contract, key)
  {
    var book := LoadBook(n.disk.main, contract, now);
    if n.disk.main.Whole? {
      var b: Book :| b in n.past && Listing(n.disk.main.list, b);
      assert BookFits(b, pot, contract, key);
      LoadUndoesWrite(n.disk.main.list, b, contract, now);
    }
    assert BookFits(book, pot, contract, key);
    DiskKeepsWithMorePast(n.disk, n.past, book);
  }

  lemma SettleMoveKeepsNode(n: Node, settles: map<nat, Settle>, pot: Pot, contract: string, key: Key)
    requires NodeOk(n, pot, contract, key)
    requires forall task | task in settles :: SettleOk(settles[task], n.book, pot, contract, key)
    ensures NodeOk(n.(settles := settles), pot, contract, key)
  {}

  function Actor(e: Event): Option<nat> {
    match e
    case Reserve(_, _) => None
    case Close(_) => None
    case MineForeign(_, _) => None
    case Write(w, _) => Some(w)
    case DiskStep(w) => Some(w)
    case Restart(w, _) => Some(w)
    case Begin(w, _, _) => Some(w)
    case ReadRecognised(w, _, _) => Some(w)
    case Send(w, _) => Some(w)
    case Mine(w, _) => Some(w)
    case GiveUp(w, _) => Some(w)
    case Record(w, _) => Some(w)
  }

  lemma StepIsLocal(s: System, e: Event, s': System, contract: string, key: Key)
    requires PotOk(s.pot) && Step(s, e, s', contract, key)
    ensures |s'.nodes| == |s.nodes| && PotOk(s'.pot) && EarnedRises(s.pot, s'.pot)
    ensures forall w | 0 <= w < |s.nodes| && Actor(e) != Some(w) :: s'.nodes[w] == s.nodes[w]
    ensures Actor(e).Some? ==> Actor(e).value < |s.nodes|
  {}

  /** What the chain does: a raise locks more, a close unlocks all that is not earned, a settle earns more,
      within the lock; everything else leaves every channel as it is. */
  lemma ChainMovesForward(s: System, e: Event, s': System, contract: string, key: Key, id: string)
    requires PotOk(s.pot) && Step(s, e, s', contract, key)
    ensures var raises, closes, settles := e.Reserve? && e.id == id, e.Close? && e.id == id, SettlesAt(s, e, contract, key) == Some(id);
            && (raises ==> Reserved(s'.pot, id) == e.amount > Reserved(s.pot, id) && Earned(s'.pot, id) == Earned(s.pot, id))
            && (closes ==> id in s.pot && Reserved(s'.pot, id) == Earned(s'.pot, id) == Earned(s.pot, id))
            && (settles ==> Reserved(s'.pot, id) == Reserved(s.pot, id) >= Earned(s'.pot, id) > Earned(s.pot, id))
            && (!raises && !closes && !settles ==> Reserved(s'.pot, id) == Reserved(s.pot, id) && Earned(s'.pot, id) == Earned(s.pot, id))
  {}

  /** The channel an event settles on. */
  function SettlesAt(s: System, e: Event, contract: string, key: Key): Option<string> {
    match e
    case MineForeign(id, _) => Some(id)
    case Mine(w, task) =>
      if w < |s.nodes| && task in s.nodes[w].settles then Some(key(Id(s.nodes[w].settles[task].ticket, contract))) else None
    case _ => None
  }

  /** A settlement under way keeps its ticket until it is recorded, given up or lost in a crash; once it is
      known to be recognised it is not given up. */
  lemma SettlementsTakeTheirCourse(s: System, e: Event, s': System, contract: string, key: Key, w: nat, task: nat)
    requires PotOk(s.pot) && Step(s, e, s', contract, key) && w < |s.nodes| && task in s.nodes[w].settles
    ensures w < |s'.nodes|
    ensures var x := s.nodes[w].settles[task];
            || (task in s'.nodes[w].settles && s'.nodes[w].settles[task].ticket == x.ticket
                && (x.stage.Recognised? ==> s'.nodes[w].settles[task].stage.Recognised?))
            || (task !in s'.nodes[w].settles && (e == Record(w, task) || (e == GiveUp(w, task) && !x.stage.Recognised?) || (e.Restart? && e.w == w)))
  {
    StepIsLocal(s, e, s', contract, key);
  }

  lemma ActorStaysOk(s: System, e: Event, s': System, contract: string, key: Key)
    requires SystemOk(s, contract, key) && Step(s, e, s', contract, key) && Actor(e).Some?
    ensures Actor(e).value < |s'.nodes| && NodeOk(s'.nodes[Actor(e).value], s'.pot, contract, key)
  {
    StepIsLocal(s, e, s', contract, key);
    var w := Actor(e).value;
    var n, n' := s.nodes[w], s'.nodes[w];
    RisingPotKeepsNode(n, s.pot, s'.pot, contract, key);
    match e {
      case Write(_, move) => MoveKeepsNode(n, n'.book, move, s'.pot, contract, key);
      case DiskStep(_) => WriteKeepsDisk(n, n'.disk, s'.pot, contract, key);
      case Restart(_, now) => RestartKeepsNode(n, now, s'.pot, contract, key);
      case Record(_, task) =>
        var t := n.settles[task].ticket;
        MoveKeepsNode(n, n'.book, Redeem(Id(t, contract), t.cumulative), s'.pot, contract, key);
        SettleMoveKeepsNode(n.(book := n'.book, past := n'.past), n'.settles, s'.pot, contract, key);
      case _ => SettleMoveKeepsNode(n, n'.settles, s'.pot, contract, key);
    }
  }

  /** Every event keeps the invariant of the whole system. */
  lemma StepKeepsSystemOk(s: System, e: Event, s': System, contract: string, key: Key)
    requires SystemOk(s, contract, key) && Step(s, e, s', contract, key)
    ensures SystemOk(s', contract, key)
  {
    StepIsLocal(s, e, s', contract, key);
    forall w | 0 <= w < |s'.nodes| ensures NodeOk(s'.nodes[w], s'.pot, contract, key) {
      if Actor(e) == Some(w) { ActorStaysOk(s, e, s', contract, key); }
      else { RisingPotKeepsNode(s.nodes[w], s.pot, s'.pot, contract, key); }
    }
  }

  ghost predicate Run(states: seq<System>, events: seq<Event>, contract: string, key: Key) {
    && |states| == |events| + 1 && Init(states[0])
    && forall i | 0 <= i < |events| :: Step(states[i], events[i], states[i + 1], contract, key)
  }

  lemma {:induction false} RunsStayOk(states: seq<System>, events: seq<Event>, contract: string, key: Key)
    requires Run(states, events, contract, key)
    ensures SystemOk(states[|events|], contract, key)
  {
    if events != [] {
      var n := |events| - 1;
      RunsStayOk(states[..|events|], events[..n], contract, key);
      StepKeepsSystemOk(states[n], events[n], states[n + 1], contract, key);
    }
  }

  /** In every run, however settles race and reads lag, and through any crash: no worker writes off
      more on an entry than the chain recognised for its pair, each entry keeps settled <= authorised <= reserved with its
      newest ticket inside what was authorised, and the chain recognises no more than was locked. */
  lemma NoWorkerWritesOffUnpaidMoney(states: seq<System>, events: seq<Event>, contract: string, key: Key, w: nat, id: string)
    requires Run(states, events, contract, key)
    requires w < |states[|events|].nodes| && id in states[|events|].nodes[w].book
    ensures var s := states[|events|]; var c := s.nodes[w].book[id];
            && c.settled <= Earned(s.pot, key(id)) <= Reserved(s.pot, key(id))
            && c.settled <= c.authorised <= c.reserved
            && (c.spend.Some? ==> c.spend.value.cumulative <= c.authorised && Id(c.spend.value, contract) == id)
  {
    RunsStayOk(states, events, contract, key);
    var s := states[|events|];
    assert NodeOk(s.nodes[w], s.pot, contract, key);
    assert ChannelOk(id, s.nodes[w].book[id], contract);
  }

  /** A node's answer about a pair: its channel, or zeros when it has none to show. */
  predicate Shows(r: Bonds.Reading, pot: Pot, id: string) {
    r.Seen? ==> || (r.state.reserved == Reserved(pot, id) && r.state.earned == Earned(pot, id))
                || r.state.reserved == r.state.earned == 0
  }

  lemma {:induction false} EarnedOnlyRises(states: seq<System>, events: seq<Event>, contract: string, key: Key, from: nat, to: nat)
    requires Run(states, events, contract, key) && from <= to <= |events|
    ensures EarnedRises(states[from].pot, states[to].pot)
  {
    if from < to {
      EarnedOnlyRises(states, events, contract, key, from, to - 1);
      RunsStayOk(states[..to], events[..to - 1], contract, key);
      StepIsLocal(states[to - 1], events[to - 1], states[to], contract, key);
    }
  }

  /** What a worker assumes of the chain's successive answers holds of any answers taken, one after the
      other, in any run of the chain. */
  lemma AnswersNeverFall(states: seq<System>, events: seq<Event>, contract: string, key: Key, id: string,
                         at: nat -> nat, answers: nat -> Bonds.Reading)
    requires Run(states, events, contract, key)
    requires forall i: nat, j: nat | i <= j :: at(i) <= at(j) <= |events|
    requires forall i: nat :: Shows(answers(i), states[at(i)].pot, key(id))
    ensures Bonds.EarnedNeverFalls(answers)
  {
    forall i: nat, j: nat | i <= j && answers(i).Seen? && answers(j).Seen? && answers(j).state.Remaining() > 0
      ensures answers(i).state.earned <= answers(j).state.earned
    {
      EarnedOnlyRises(states, events, contract, key, at(i), at(j));
      assert Shows(answers(i), states[at(i)].pot, key(id)) && Shows(answers(j), states[at(j)].pot, key(id));
    }
  }

  /** What restarting at any point of any run brings back: a ledger held before, less the entries
      `load` may not keep. With a contract of its own on every entry, a worker forgets nothing it
      had on disk. */
  lemma RestartBringsBackALedger(states: seq<System>, events: seq<Event>, contract: string, key: Key, w: nat, now: u64)
    requires Run(states, events, contract, key) && w < |states[|events|].nodes|
    ensures var n := states[|events|].nodes[w];
            && n.disk.main != Torn
            && (n.disk.main.Whole? ==> exists b: Book | b in n.past ::
                  && LoadBook(n.disk.main, contract, now) == (map id | id in b && Keeps(b[id], contract, now) :: b[id])
                  && ((forall id | id in b :: b[id].contract == contract != "") ==> LoadBook(n.disk.main, contract, now) == b))
  {
    RunsStayOk(states, events, contract, key);
    var n := states[|events|].nodes[w];
    assert NodeOk(n, states[|events|].pot, contract, key);
    if n.disk.main.Whole? {
      var b: Book :| b in n.past && Listing(n.disk.main.list, b);
      assert BookFits(b, states[|events|].pot, contract, key);
      LoadUndoesWrite(n.disk.main.list, b, contract, now);
    }
  }

  // ------------------------------------------------- two entries of one channel

  ghost predicate Reached(s: System, contract: string, key: Key) {
    exists states: seq<System>, events: seq<Event> :: Run(states, events, contract, key) && states[|events|] == s
  }

  lemma OneMoreStep(s: System, e: Event, s': System, contract: string, key: Key)
    requires Reached(s, contract, key) && Step(s, e, s', contract, key)
    ensures Reached(s', contract, key)
  {
    var states: seq<System>, events: seq<Event> :| Run(states, events, contract, key) && states[|events|] == s;
    assert Run(states + [s'], events + [e], contract, key) && (states + [s'])[|events + [e]|] == s';
  }

  /** What two entries have written off is within what the channels they settle on have recognised. */
  predicate WithinTheChain(s: System, w: nat, a: string, b: string, key: Key) {
    w < |s.nodes| && a in s.nodes[w].book && b in s.nodes[w].book ==>
      s.nodes[w].book[a].settled + s.nodes[w].book[b].settled
        <= Earned(s.pot, key(a)) + if key(b) == key(a) then 0 else Earned(s.pot, key(b))
  }

  /** What two entries of a ledger write off is within what the chain recognised in every run exactly when
      they are not one channel of the contract: for one channel, the settle of the second entry is taken
      for done when the chain shows what the settle of the first one brought. */
  lemma TwoEntriesStayWithinTheChainExactly(t: SpendTicket, u: SpendTicket, contract: string, key: Key)
    requires Id(t, contract) != Id(u, contract) && t.cumulative == u.cumulative >= 1
    ensures (forall s, w: nat :: Reached(s, contract, key) ==> WithinTheChain(s, w, Id(t, contract), Id(u, contract), key))
            <==> key(Id(t, contract)) != key(Id(u, contract))
  {
    var a, b := Id(t, contract), Id(u, contract);
    if key(a) != key(b) {
      forall s, w: nat | Reached(s, contract, key) ensures WithinTheChain(s, w, a, b, key) {
        var states: seq<System>, events: seq<Event> :| Run(states, events, contract, key) && states[|events|] == s;
        RunsStayOk(states, events, contract, key);
        assert w < |s.nodes| ==> NodeOk(s.nodes[w], s.pot, contract, key);
      }
    } else {
      var s := BothSettle(t, u, contract, key);
      assert !WithinTheChain(s, 0, a, b, key);
    }
  }

  function Entry(t: SpendTicket, contract: string): Channel {
    Channel(Id(t, contract), t.client, t.cumulative, t.cumulative, SpendingAuth(Id(t, contract), t.client, t.cumulative, "", None),
            Some(t), None, 0, 0, contract)
  }

  /** One worker with no settlement under way, and what its channel has recognised. */
  function Alone(id: string, chain: OnChain, book: Book, past: seq<Book>): System {
    System(map[id := chain], [Node(book, Disk(Missing, Missing), map[], past)])
  }

  /** Both entries are opened by a ticket and settled. */
  lemma BothSettle(t: SpendTicket, u: SpendTicket, contract: string, key: Key) returns (s: System)
    requires Id(t, contract) != Id(u, contract) && t.cumulative == u.cumulative >= 1
    requires key(Id(t, contract)) == key(Id(u, contract))
    ensures Reached(s, contract, key) && !WithinTheChain(s, 0, Id(t, contract), Id(u, contract), key)
  {
    var a, b, id, n := Id(t, contract), Id(u, contract), key(Id(t, contract)), t.cumulative;
    var one: Book := map[a := Entry(t, contract)];
    var two: Book := one[b := Entry(u, contract)];
    var s0 := System(map[], [Node(map[], Disk(Missing, Missing), map[], [map[]])]);
    assert Run([s0], [], contract, key);
    var s1 := Alone(id, OnChain(n, 0), map[], [map[]]);
    OneMoreStep(s0, Reserve(id, n), s1, contract, key);
    OpenEntry(t, OnChain(n, 0), map[], [map[]], contract, key);
    OpenEntry(u, OnChain(n, 0), one, [map[]] + [one], contract, key);
    var s4 := SettleByMining(t, two, [map[]] + [one] + [two], contract, key);
    s := SettleByReading(u, s4.nodes[0].book, s4.nodes[0].past, contract, key);
  }

  lemma OpenEntry(t: SpendTicket, chain: OnChain, b: Book, past: seq<Book>, contract: string, key: Key)
    requires Id(t, contract) !in b && t.cumulative >= 1 && Reached(Alone(key(Id(t, contract)), chain, b, past), contract, key)
    ensures var b' := b[Id(t, contract) := Entry(t, contract)];
            Reached(Alone(key(Id(t, contract)), chain, b', past + [b']), contract, key)
  {
    var b' := b[Id(t, contract) := Entry(t, contract)];
    var s, s' := Alone(key(Id(t, contract)), chain, b, past), Alone(key(Id(t, contract)), chain, b', past + [b']);
    assert BookStep(b, b', Bank(t, t.cumulative), contract);
    OneMoreStep(s, Write(0, Bank(t, t.cumulative)), s', contract, key);
  }

  function Redeemed(b: Book, id: string, upto: u64): Book
    requires id in b
  {
    b[id := b[id].(settled := Max(b[id].settled, upto))]
  }

  function With(s: System, x: Settle): System
    requires |s.nodes| == 1
  {
    s.(nodes := [s.nodes[0].(settles := map[0 := x])])
  }

  lemma Restaged(s: System, x: Settle, y: Settle)
    requires |s.nodes| == 1
    ensures var n := With(s, x).nodes[0]; Put(With(s, x), 0, n.(settles := n.settles[0 := y])) == With(s, y)
  {
    assert map[0 := x][0 := y] == map[0 := y];
  }

  lemma SettleByMining(t: SpendTicket, b: Book, past: seq<Book>, contract: string, key: Key) returns (s: System)
    requires Id(t, contract) in b && 1 <= t.cumulative <= b[Id(t, contract)].authorised
    requires Reached(Alone(key(Id(t, contract)), OnChain(t.cumulative, 0), b, past), contract, key)
    ensures var b' := Redeemed(b, Id(t, contract), t.cumulative);
            s == Alone(key(Id(t, contract)), OnChain(t.cumulative, t.cumulative), b', past + [b'])
    ensures Reached(s, contract, key)
  {
    var id, n := key(Id(t, contract)), t.cumulative;
    var before, after := Alone(id, OnChain(n, 0), b, past), Alone(id, OnChain(n, n), b, past);
    OneMoreStep(before, Begin(0, 0, t), With(before, Settle(t, Asking)), contract, key);
    Restaged(before, Settle(t, Asking), Settle(t, Sent));
    OneMoreStep(With(before, Settle(t, Asking)), Send(0, 0), With(before, Settle(t, Sent)), contract, key);
    Restaged(before, Settle(t, Sent), Settle(t, Recognised));
    OneMoreStep(With(before, Settle(t, Sent)), Mine(0, 0), With(after, Settle(t, Recognised)), contract, key);
    s := RecordIt(t, OnChain(n, n), b, past, contract, key);
  }

  lemma SettleByReading(t: SpendTicket, b: Book, past: seq<Book>, contract: string, key: Key) returns (s: System)
    requires Id(t, contract) in b && t.cumulative <= b[Id(t, contract)].authorised
    requires Reached(Alone(key(Id(t, contract)), OnChain(t.cumulative, t.cumulative), b, past), contract, key)
    ensures var b' := Redeemed(b, Id(t, contract), t.cumulative);
            s == Alone(key(Id(t, contract)), OnChain(t.cumulative, t.cumulative), b', past + [b'])
    ensures Reached(s, contract, key)
  {
    var id, n := key(Id(t, contract)), t.cumulative;
    var before := Alone(id, OnChain(n, n), b, past);
    OneMoreStep(before, Begin(0, 0, t), With(before, Settle(t, Asking)), contract, key);
    Restaged(before, Settle(t, Asking), Settle(t, Recognised));
    OneMoreStep(With(before, Settle(t, Asking)), ReadRecognised(0, 0, n), With(before, Settle(t, Recognised)), contract, key);
    s := RecordIt(t, OnChain(n, n), b, past, contract, key);
  }

  lemma RecordIt(t: SpendTicket, chain: OnChain, b: Book, past: seq<Book>, contract: string, key: Key) returns (s: System)
    requires Id(t, contract) in b
    requires Reached(With(Alone(key(Id(t, contract)), chain, b, past), Settle(t, Recognised)), contract, key)
    ensures var b' := Redeemed(b, Id(t, contract), t.cumulative);
            s == Alone(key(Id(t, contract)), chain, b', past + [b'])
    ensures Reached(s, contract, key)
  {
    var b' := Redeemed(b, Id(t, contract), t.cumulative);
    var was := With(Alone(key(Id(t, contract)), chain, b, past), Settle(t, Recognised));
    s := Alone(key(Id(t, contract)), chain, b', past + [b']);
    assert was.nodes[0].settles - {0} == map[];
    OneMoreStep(was, Record(0, 0), s, contract, key);
  }
}
