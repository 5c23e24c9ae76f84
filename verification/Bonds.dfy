/** The prepaid bond of a priced job, from admission to capture (server.rs). */
module Bonds {
  import opened U64
  import opened Wrappers
  import opened Ledger

  type JobId = nat

  datatype JobPay = JobPay(jobId: JobId, ticket: SpendTicket, sig: string)

  datatype Bond = Bond(pay: JobPay, delta: u64, appKey: string)

  /** `sigIsHex` stands for the one thing looked at in a reserve signature before it is posted. */
  datatype ReservePost = ReservePost(client: string, workerPayout: string, maxAmount: u64, sigIsHex: bool)

  /** What of a submission the payment path reads; `flatMicros` is the fixed bill of a picture or clip. */
  datatype Submit = Submit(jobId: JobId, payer: Option<string>, bond: Option<JobPay>, reserve: Option<ReservePost>,
                           isLlm: bool, flatMicros: u64)

  // --------------------------------------------------------------- the chain

  datatype ChainState = ChainState(reserved: u64, earned: u64, maxPerJob: u64, appKey: string)
  {
    /** Computed from the answer, as it is read. */
    function Remaining(): u64 { SatSub(reserved, earned) }
  }

  /** One read of the payer's channel: an error, no endpoint to ask, or the channel. */
  datatype Reading = Failed | NoRpc | Seen(state: ChainState)

  predicate IsZeroAddress(a: string) {
    AllZeros(TrimHexPrefix(a))
  }

  predicate AllZeros(s: string) { forall i | 0 <= i < |s| :: s[i] == '0' }

  function TrimHexPrefix(a: string): string {
    if |a| >= 2 && a[..2] == "0x" then TrimHexPrefix(a[2..]) else a
  }

  /** What the chain promises about its successive answers: `earned` never falls. A node that has no
      channel to show answers with zeros; such an answer shows no remaining lock, and nothing is
      assumed of it. */
  ghost predicate EarnedNeverFalls(answers: nat -> Reading) {
    forall i: nat, j: nat | i <= j && answers(i).Seen? && answers(j).Seen? && answers(j).state.Remaining() > 0 ::
         answers(i).state.earned <= answers(j).state.earned
  }

  /** How much lock a ticket still needs, measured from what the chain has recognised. */
  function Need(cumulative: u64, earned: u64): u64 { Max(SatSub(cumulative, earned), 1) }

  /** What is left of a lock leaves room for a ticket of which `first` had recognised some. */
  predicate LeavesRoom(first: ChainState, s: ChainState, cumulative: u64) {
    && s.earned < s.reserved
    && (first.earned < cumulative ==> cumulative - first.earned <= s.reserved - s.earned)
  }

  /** A lock is enough exactly when it leaves room; on one and the same answer, when all of the ticket is
      locked and some of the lock is not yet earned. */
  lemma EnoughLockExactly(first: ChainState, s: ChainState, cumulative: u64)
    ensures s.Remaining() >= Need(cumulative, first.earned) <==> LeavesRoom(first, s, cumulative)
    ensures s.Remaining() >= Need(cumulative, s.earned) <==> cumulative <= s.reserved && s.earned < s.reserved
  {}

  /** Every answer there can be shows enough lock, and is open to the job. */
  ghost predicate AlwaysEnough(signatures: Signatures, submit: Submit, answers: nat -> Reading, cumulative: u64, now: u64) {
    && answers(0).Seen?
    && forall k: nat :: answers(k).Seen? && IsOpenToJob(signatures, submit, answers(k).state, now)
                        && LeavesRoom(answers(0).state, answers(k).state, cumulative)
  }

  /** A lock measured against the first answer still holds the whole bond on the answer the decision
      was taken on, however many reads and settles lie between. */
  lemma GoodLockHoldsTheBond(answers: nat -> Reading, last: nat, t: SpendTicket, delta: u64)
    requires EarnedNeverFalls(answers) && answers(0).Seen? && answers(last).Seen? && delta >= 1
    requires answers(last).state.Remaining() >= Need(t.cumulative, answers(0).state.earned)
    ensures t.cumulative <= answers(last).state.reserved
    ensures 1 <= Min(delta, Need(t.cumulative, answers(last).state.earned)) <= answers(last).state.Remaining()
  {
    assert answers(0).state.earned <= answers(last).state.earned;
  }

  // ---------------------------------------------------------------- settling

  const SETTLE_MIN_MICROS: u64 := 50_000
  const SETTLE_BEFORE_DEADLINE_SECS: u64 := 1200

  function WorthSettling(t: SpendTicket, now: u64, reading: Reading): bool {
    if SatSub(t.deadline, now) < SETTLE_BEFORE_DEADLINE_SECS || !reading.Seen? then true else
    var delta := SatSub(t.cumulative, reading.state.earned);
    delta != 0 && (delta >= SETTLE_MIN_MICROS || (reading.state.maxPerJob > 0 && delta >= reading.state.maxPerJob / 2))
  }

  /** The most that can be left claimed and unsettled under a cap. */
  function MostDeferred(cap: u64): u64 { SatSub(Min(SETTLE_MIN_MICROS, cap / 2), 1) }

  /** A settle that is put off is clear of its deadline. A further bill keeps every such claim under the
      cap exactly when it fits beside the most that can be put off; a bill of half the cap always does,
      a dearer one may not. */
  lemma DeferringIsSafe(now: u64, cap: u64, bill: u64)
    requires 0 < cap
    ensures forall t: SpendTicket, reading: Reading | !WorthSettling(t, now, reading) :: t.deadline >= now + SETTLE_BEFORE_DEADLINE_SECS
    ensures (forall t: SpendTicket, reading: Reading | !WorthSettling(t, now, reading) && reading.state.maxPerJob == cap ::
               SatSub(t.cumulative, reading.state.earned) + bill <= cap)
            <==> (now + SETTLE_BEFORE_DEADLINE_SECS > MAX || MostDeferred(cap) + bill <= cap)
    ensures bill <= cap / 2 ==> MostDeferred(cap) + bill <= cap
  {
    if now + SETTLE_BEFORE_DEADLINE_SECS <= MAX {
      var t := SpendTicket("", "", MostDeferred(cap), now + SETTLE_BEFORE_DEADLINE_SECS);
      var reading := Seen(ChainState(0, 0, cap, ""));
      assert !WorthSettling(t, now, reading);
      assert SatSub(t.cumulative, reading.state.earned) == MostDeferred(cap);
    }
  }

  /** What is settled adds something the chain has not recognised, unless its deadline is near or the chain
      could not be read. */
  lemma SettlesOnlyNews(t: SpendTicket, now: u64, s: ChainState)
    ensures now + 1200 <= t.deadline && t.cumulative <= s.earned ==> !WorthSettling(t, now, Seen(s))
    ensures now + 1200 > t.deadline ==> WorthSettling(t, now, Seen(s))
    ensures t.cumulative >= s.earned + 50_000 ==> WorthSettling(t, now, Seen(s))
    ensures now + 1200 <= t.deadline && t.cumulative < s.earned + 50_000 && (s.maxPerJob == 0 || t.cumulative < s.earned + s.maxPerJob / 2) ==>
              !WorthSettling(t, now, Seen(s))
    ensures WorthSettling(t, now, Failed) && WorthSettling(t, now, NoRpc)
  {}

  // ------------------------------------------------------------------- bonds

  /** The bond's rise is still all above what the ledger has banked for the pair. */
  ghost predicate Covers(bond: Bond, open: Book, contract: string) {
    Authorised(open, IdFor(bond.pay.ticket.client, bond.pay.ticket.workerPayout, contract)) + bond.delta
      <= bond.pay.ticket.cumulative
  }

  /** What other jobs may do to the ledger while one waits: raise, and open, never lower or take over. */
  ghost predicate Rises(before: Book, after: Book) {
    && (forall id :: Authorised(before, id) <= Authorised(after, id))
    && forall id | id in before :: id in after && SameName(after[id].client, before[id].client)
  }

  /** Anything other jobs do to the ledger is of this kind. */
  lemma {:induction false} OtherJobsRise(books: seq<Book>, moves: seq<Move>, contract: string)
    requires BookRun(books, moves, contract)
    ensures Rises(books[0], books[|moves|])
  {
    if moves != [] {
      var n := |moves| - 1;
      OtherJobsRise(books[..|moves|], moves[..n], contract);
      assert BookStep(books[n], books[n + 1], moves[n], contract);
      MoveRises(books[n], books[n + 1], moves[n], contract);
      RisesTwice(books[0], books[n], books[n + 1]);
    }
  }

  lemma MoveRises(b: Book, b': Book, m: Move, contract: string)
    requires BookStep(b, b', m, contract)
    ensures Rises(b, b')
  {}

  /** A bond that covers its delta stays bankable while nobody else raises the pair. */
  lemma UnraisedBondIsBankable(bond: Bond, before: Book, after: Book, contract: string)
    requires bond.delta >= 1 && Covers(bond, before, contract) && Rises(before, after) && BookOk(after, contract)
    requires var t := bond.pay.ticket; var id := IdFor(t.client, t.workerPayout, contract);
             Authorised(after, id) == Authorised(before, id) && MayOwn(before, id, t.client)
    ensures var t := bond.pay.ticket;
            Bankable(after, IdFor(t.client, t.workerPayout, contract), t, bond.delta)
  {
    var id := IdFor(bond.pay.ticket.client, bond.pay.ticket.workerPayout, contract);
    assert id in after ==> ChannelOk(id, after[id], contract);
  }

  /** What a worker takes payment by. */
  datatype Terms = Terms(payout: Option<string>, charging: bool, signatures: Signatures, contract: string)

  /** The parties a ticket must name to be taken for this job. */
  predicate NamesParties(payout: Option<string>, submit: Submit, t: SpendTicket) {
    && (payout.Some? ==> SameName(t.workerPayout, payout.value))
    && (submit.payer.Some? ==> SameName(t.client, submit.payer.value))
  }

  ghost predicate BankableFor(w: Terms, submit: Submit, pay: JobPay, amount: u64, appKey: string, now: u64, open: Book) {
    && w.charging && pay.jobId == submit.jobId && NamesParties(w.payout, submit, pay.ticket)
    && SignedBy(w.signatures, pay.ticket, pay.sig, appKey, now)
    && Bankable(open, IdFor(pay.ticket.client, pay.ticket.workerPayout, w.contract), pay.ticket, amount)
  }

  /** The lock a priced job is let in on: enough of it left, a registered key that signed the
      ticket, and, for a picture or a clip, a cap its one bill fits under. */
  predicate LockIsGood(signatures: Signatures, submit: Submit, state: ChainState, need: u64, now: u64) {
    && (state.maxPerJob > 0 && !submit.isLlm ==> submit.flatMicros <= state.maxPerJob)
    && state.Remaining() >= need
    && !IsZeroAddress(state.appKey)
    && (submit.bond.Some? ==>
          CheckTicket(signatures, submit.bond.value.ticket, submit.bond.value.sig, state.appKey, now).None?)
  }

  /** What a chain's answer must show besides enough lock: a cap a picture's one bill fits under, and a
      registered key, the one that signed the ticket. */
  predicate IsOpenToJob(signatures: Signatures, submit: Submit, s: ChainState, now: u64) {
    && (submit.isLlm || s.maxPerJob == 0 || submit.flatMicros <= s.maxPerJob)
    && !IsZeroAddress(s.appKey)
    && (submit.bond.Some? ==> SignedBy(signatures, submit.bond.value.ticket, submit.bond.value.sig, s.appKey, now))
  }

  /** The source's test of a lock is that test. */
  lemma LockIsGoodExactly(signatures: Signatures, submit: Submit, first: ChainState, s: ChainState, cumulative: u64, now: u64)
    ensures LockIsGood(signatures, submit, s, Need(cumulative, first.earned), now)
            <==> IsOpenToJob(signatures, submit, s, now) && LeavesRoom(first, s, cumulative)
  {
    EnoughLockExactly(first, s, cumulative);
  }

  lemma AlwaysEnoughIsNeeded(signatures: Signatures, submit: Submit, answers: nat -> Reading, cumulative: u64, now: u64)
    ensures AlwaysEnough(signatures, submit, answers, cumulative, now) ==>
              forall k: nat :: answers(k).Seen? && answers(k).state.Remaining() >= Need(cumulative, answers(0).state.earned)
  {
    if AlwaysEnough(signatures, submit, answers, cumulative, now) {
      forall k: nat ensures answers(k).Seen? && answers(k).state.Remaining() >= Need(cumulative, answers(0).state.earned) {
        EnoughLockExactly(answers(0).state, answers(k).state, cumulative);
      }
    }
  }

  function Repeat(s: string, n: nat): string { if n == 0 then "" else s + Repeat(s, n - 1) }

  ghost predicate IsMarkedZeros(a: string) {
    exists marks: nat, zeros: nat :: a == Repeat("0x", marks) + Repeat("0", zeros)
  }

  /** The zero address: zeros only, after any number of marks. */
  lemma {:induction false} ZeroAddressExactly(a: string)
    ensures IsZeroAddress(a) <==> IsMarkedZeros(a)
  {
    if |a| >= 2 && a[..2] == "0x" {
      ZeroAddressExactly(a[2..]);
      if IsMarkedZeros(a[2..]) { OneMoreMark(a); }
      if IsMarkedZeros(a) { OneMarkFewer(a); }
    } else {
      if IsZeroAddress(a) { AllZerosAreMarked(a); }
      if IsMarkedZeros(a) { UnmarkedAreZeros(a); }
    }
  }

  lemma OneMoreMark(a: string)
    requires |a| >= 2 && a[..2] == "0x" && IsMarkedZeros(a[2..])
    ensures IsMarkedZeros(a)
  {
    var marks: nat, zeros: nat :| a[2..] == Repeat("0x", marks) + Repeat("0", zeros);
    assert a == a[..2] + a[2..] == Repeat("0x", marks + 1) + Repeat("0", zeros);
  }

  lemma OneMarkFewer(a: string)
    requires |a| >= 2 && a[..2] == "0x" && IsMarkedZeros(a)
    ensures IsMarkedZeros(a[2..])
  {
    var marks: nat, zeros: nat :| a == Repeat("0x", marks) + Repeat("0", zeros);
    ZerosAreZeros(zeros);
    assert a[1] == a[..2][1] == 'x';
    assert marks > 0;
    assert a[2..] == Repeat("0x", marks - 1) + Repeat("0", zeros);
  }

  lemma AllZerosAreMarked(a: string)
    requires AllZeros(a)
    ensures IsMarkedZeros(a)
  {
    ZerosAreZeros(|a|);
    assert a == Repeat("0x", 0) + Repeat("0", |a|);
  }

  lemma UnmarkedAreZeros(a: string)
    requires IsMarkedZeros(a) && !(|a| >= 2 && a[..2] == "0x")
    ensures AllZeros(a)
  {
    var marks: nat, zeros: nat :| a == Repeat("0x", marks) + Repeat("0", zeros);
    ZerosAreZeros(zeros);
    MarkComesFirst("0x", marks, Repeat("0", zeros));
  }

  lemma MarkComesFirst(mark: string, marks: nat, rest: string)
    ensures marks > 0 ==> mark <= Repeat(mark, marks) + rest
    ensures marks == 0 ==> Repeat(mark, marks) + rest == rest
  {}

  lemma {:induction false} ZerosAreZeros(n: nat)
    ensures |Repeat("0", n)| == n && AllZeros(Repeat("0", n))
  {
    if n > 0 { ZerosAreZeros(n - 1); }
  }

  // ----------------------------------------------------------------- top-ups

  /** The bond a ticket buys: what it rises over what is banked, if that is more than is held. */
  function Slice(held: u64, cumulative: u64, already: u64): Option<u64> {
    var delta := SatSub(cumulative, already);
    if delta <= held then None else Some(delta)
  }

  function AlreadyFor(w: Terms, pay: JobPay, open: Book): u64 {
    Authorised(open, IdFor(pay.ticket.client, pay.ticket.workerPayout, w.contract))
  }

  predicate Grantable(w: Terms, bond: Bond, pay: JobPay, now: u64, open: Book) {
    && w.charging && SignedBy(w.signatures, pay.ticket, pay.sig, bond.appKey, now)
    && pay.ticket.cumulative > AlreadyFor(w, pay, open) + bond.delta
  }

  function Granted(w: Terms, bond: Bond, pay: JobPay, now: u64, open: Book): Bond
    requires Grantable(w, bond, pay, now, open)
  {
    Bond(pay, pay.ticket.cumulative - AlreadyFor(w, pay, open), bond.appKey)
  }

  /** A granted slice is a bigger bond that covers its delta. */
  lemma GrantRaises(w: Terms, bond: Bond, pay: JobPay, now: u64, open: Book)
    requires Grantable(w, bond, pay, now, open)
    ensures Granted(w, bond, pay, now, open).delta > bond.delta
    ensures Covers(Granted(w, bond, pay, now, open), open, w.contract)
  {}

  /** Nothing asks a slice to name the job's own parties. One that does not takes the place of a bond
      that did, and can never be banked. */
  lemma GrantMayNameStrangers(w: Terms, submit: Submit)
    requires w.charging && w.payout.Some? && submit.payer.Some?
    requires forall t: SpendTicket, sig: string :: w.signatures.ticket(t, sig) == Some("app")
    ensures exists bond: Bond, pay: JobPay ::
              && bond.pay.jobId == pay.jobId == submit.jobId && NamesParties(w.payout, submit, bond.pay.ticket)
              && Grantable(w, bond, pay, 0, map[]) && Granted(w, bond, pay, 0, map[]).pay == pay
              && forall amount: u64, appKey: string, now: u64, open: Book :: !BankableFor(w, submit, pay, amount, appKey, now, open)
  {
    var t := SpendTicket(submit.payer.value, w.payout.value, 1, 1);
    var bond := Bond(JobPay(submit.jobId, t, ""), 1, "app");
    var pay := JobPay(submit.jobId, SpendTicket(submit.payer.value, w.payout.value + "!", 2, 1), "");
    assert |Lower(w.payout.value + "!")| != |Lower(w.payout.value)|;
    assert !NamesParties(w.payout, submit, pay.ticket);
    assert Grantable(w, bond, pay, 0, map[]);
  }

  /** Nor is a slice measured against the lock the job was let in on. */
  lemma GrantMayPassTheLock(w: Terms, submit: Submit, state: ChainState, bond: Bond)
    requires w.charging && bond.appKey == state.appKey && bond.delta <= state.Remaining() < MAX
    requires bond.pay.jobId == submit.jobId && NamesParties(w.payout, submit, bond.pay.ticket)
    requires forall t: SpendTicket, sig: string :: w.signatures.ticket(t, sig) == Some(state.appKey)
    ensures exists pay: JobPay ::
              && pay.jobId == submit.jobId && NamesParties(w.payout, submit, pay.ticket)
              && Grantable(w, bond, pay, 0, map[]) && Granted(w, bond, pay, 0, map[]).delta > state.Remaining()
  {
    var pay := bond.pay.(ticket := bond.pay.ticket.(cumulative := state.Remaining() + 1, deadline := 1));
    assert Grantable(w, bond, pay, 0, map[]);
  }

  /** Slices asked for one after another: the client's answers, the times they were looked at, and the
      ledgers they were measured against. */
  datatype Asked = Asked(slices: seq<Option<JobPay>>, clock: nat -> u64, ledgers: seq<Book>)

  /** The bond in hand after the first `n` answers: each that is good replaces it. */
  function HeldAt(w: Terms, first: Bond, a: Asked, n: nat): Bond
    requires n <= |a.slices| && n <= |a.ledgers|
    decreases n, 0
  {
    if n == 0 then first else
    var bond := HeldAt(w, first, a, n - 1);
    if IsGranted(w, first, a, n - 1) then Granted(w, bond, a.slices[n - 1].value, a.clock(n - 1), a.ledgers[n - 1]) else bond
  }

  predicate IsGranted(w: Terms, first: Bond, a: Asked, i: nat)
    requires i < |a.slices| && i < |a.ledgers|
    decreases i, 1
  {
    a.slices[i].Some? && Grantable(w, HeldAt(w, first, a, i), a.slices[i].value, a.clock(i), a.ledgers[i])
  }

  /** The ledger that bond rises over: the one of the last grant, or the one the first bond was taken on. */
  function SinceAt(w: Terms, first: Bond, taken: Book, a: Asked, n: nat): Book
    requires n <= |a.slices| && n <= |a.ledgers|
  {
    if n == 0 then taken
    else if IsGranted(w, first, a, n - 1) then a.ledgers[n - 1] else SinceAt(w, first, taken, a, n - 1)
  }

  /** The answers given so far and the bond in hand are the ones the slices call for. */
  ghost predicate FollowsTheSlices(w: Terms, first: Bond, a: Asked, granted: seq<bool>, held: Bond) {
    && |granted| == |a.ledgers| <= |a.slices| && held == HeldAt(w, first, a, |granted|)
    && forall i | 0 <= i < |granted| :: granted[i] <==> IsGranted(w, first, a, i)
  }

  ghost predicate SignedInTime(w: Terms, bond: Bond) {
    exists now: u64 :: SignedBy(w.signatures, bond.pay.ticket, bond.pay.sig, bond.appKey, now)
  }

  lemma {:induction false} HeldBondIsGood(w: Terms, first: Bond, taken: Book, a: Asked, n: nat)
    requires n <= |a.slices| && n <= |a.ledgers| && Covers(first, taken, w.contract)
    ensures var bond := HeldAt(w, first, a, n);
            && bond.appKey == first.appKey && bond.delta >= first.delta && Covers(bond, SinceAt(w, first, taken, a, n), w.contract)
            && (SignedInTime(w, first) ==> SignedInTime(w, bond))
    ensures (forall i | 0 <= i < n :: !IsGranted(w, first, a, i)) ==>
              HeldAt(w, first, a, n) == first && SinceAt(w, first, taken, a, n) == taken
  {
    if n > 0 {
      HeldBondIsGood(w, first, taken, a, n - 1);
      if IsGranted(w, first, a, n - 1) {
        GrantRaises(w, HeldAt(w, first, a, n - 1), a.slices[n - 1].value, a.clock(n - 1), a.ledgers[n - 1]);
      }
    }
  }

  /** Later ledgers change nothing of what came before. */
  lemma {:induction false} HeldStays(w: Terms, first: Bond, taken: Book, slices: seq<Option<JobPay>>, clock: nat -> u64,
                                     ledgers: seq<Book>, next: Book, n: nat)
    requires n <= |ledgers| < |slices|
    ensures var a, b := Asked(slices, clock, ledgers), Asked(slices, clock, ledgers + [next]);
            && HeldAt(w, first, a, n) == HeldAt(w, first, b, n) && SinceAt(w, first, taken, a, n) == SinceAt(w, first, taken, b, n)
            && forall i | 0 <= i < n :: IsGranted(w, first, a, i) == IsGranted(w, first, b, i)
  {
    if n > 0 { HeldStays(w, first, taken, slices, clock, ledgers, next, n - 1); }
  }

  lemma NoneGranted(w: Terms, first: Bond, taken: Book, a: Asked, granted: seq<bool>, held: Bond)
    requires FollowsTheSlices(w, first, a, granted, held) && Covers(first, taken, w.contract) && true !in granted
    ensures held == first && SinceAt(w, first, taken, a, |granted|) == taken
  {
    assert forall i | 0 <= i < |granted| :: granted[i] in granted;
    HeldBondIsGood(w, first, taken, a, |granted|);
  }

  lemma OneMoreSlice(w: Terms, first: Bond, taken: Book, a: Asked, granted: seq<bool>, held: Bond, seen: Book, ok: bool, next: Bond)
    requires FollowsTheSlices(w, first, a, granted, held) && |granted| < |a.slices|
    requires var i := |granted|;
             && (ok <==> a.slices[i].Some? && Grantable(w, held, a.slices[i].value, a.clock(i), seen))
             && next == if ok then Granted(w, held, a.slices[i].value, a.clock(i), seen) else held
    ensures FollowsTheSlices(w, first, a.(ledgers := a.ledgers + [seen]), granted + [ok], next)
  {
    HeldStays(w, first, taken, a.slices, a.clock, a.ledgers, seen, |granted|);
  }

  /** Each ledger is the one before as other jobs have left it. */
  ghost predicate RisesAlong(taken: Book, ledgers: seq<Book>, last: Book) {
    && Rises(taken, last)
    && (forall i | 0 <= i < |ledgers| :: Rises(taken, ledgers[i]) && Rises(ledgers[i], last))
    && (forall i, j | 0 <= i < j < |ledgers| :: Rises(ledgers[i], ledgers[j]))
  }

  lemma RisesTwice(a: Book, b: Book, c: Book)
    requires Rises(a, b) && Rises(b, c)
    ensures Rises(a, c)
  {}

  lemma RisesFurther(taken: Book, ledgers: seq<Book>, last: Book, next: Book)
    requires RisesAlong(taken, ledgers, last) && Rises(last, next)
    ensures RisesAlong(taken, ledgers, next) && RisesAlong(taken, ledgers + [next], next)
  {
    RisesTwice(taken, last, next);
    forall i | 0 <= i < |ledgers| ensures Rises(ledgers[i], next) { RisesTwice(ledgers[i], last, next); }
  }

  lemma {:induction false} SinceIsAlong(w: Terms, first: Bond, taken: Book, a: Asked, last: Book, n: nat)
    requires n <= |a.slices| && n <= |a.ledgers| && RisesAlong(taken, a.ledgers, last)
    ensures Rises(SinceAt(w, first, taken, a, n), last)
  {
    if n > 0 && !IsGranted(w, first, a, n - 1) { SinceIsAlong(w, first, taken, a, last, n - 1); }
  }

  lemma SignedStaysGood(w: Terms, bond: Bond, later: u64)
    requires SignedInTime(w, bond) && later < bond.pay.ticket.deadline
    ensures SignedBy(w.signatures, bond.pay.ticket, bond.pay.sig, bond.appKey, later)
  {}

  /** A pair that ends where it began was not raised in between, and still has its owner. */
  lemma QuietInBetween(since: Book, mid: Book, seen: Book, bond: Bond, contract: string)
    requires Rises(since, mid) && Rises(mid, seen) && BookOk(mid, contract) && Covers(bond, since, contract)
    requires var id := IdFor(bond.pay.ticket.client, bond.pay.ticket.workerPayout, contract);
             Authorised(seen, id) == Authorised(since, id) && MayOwn(since, id, bond.pay.ticket.client)
    ensures var id := IdFor(bond.pay.ticket.client, bond.pay.ticket.workerPayout, contract);
            Authorised(mid, id) == Authorised(since, id) && MayOwn(mid, id, bond.pay.ticket.client)
    ensures Covers(bond, mid, contract)
  {
    var id := IdFor(bond.pay.ticket.client, bond.pay.ticket.workerPayout, contract);
    assert id in mid ==> ChannelOk(id, mid[id], contract);
  }

  /** While the pair of the last bond is not raised, all that capturing it from a silent client asks of
      the ledger and of the ticket still holds. */
  lemma SettledOnSilence(w: Terms, first: Bond, taken: Book, a: Asked, mid: Book, seen: Book, later: u64)
    requires |a.slices| == |a.ledgers| && Covers(first, taken, w.contract) && SignedInTime(w, first)
    requires RisesAlong(taken, a.ledgers, mid) && Rises(mid, seen) && BookOk(mid, w.contract)
    ensures HeldAt(w, first, a, |a.slices|).appKey == first.appKey
    ensures var bond, since := HeldAt(w, first, a, |a.slices|), SinceAt(w, first, taken, a, |a.slices|);
            var t := bond.pay.ticket; var id := IdFor(t.client, t.workerPayout, w.contract);
            later < t.deadline && Authorised(seen, id) == Authorised(since, id) && MayOwn(since, id, t.client) ==>
              && Covers(bond, mid, w.contract) && Authorised(mid, id) == Authorised(since, id) && MayOwn(mid, id, t.client)
              && SignedBy(w.signatures, t, bond.pay.sig, bond.appKey, later)
  {
    var bond, since := HeldAt(w, first, a, |a.slices|), SinceAt(w, first, taken, a, |a.slices|);
    var id := IdFor(bond.pay.ticket.client, bond.pay.ticket.workerPayout, w.contract);
    HeldBondIsGood(w, first, taken, a, |a.slices|);
    SinceIsAlong(w, first, taken, a, mid, |a.slices|);
    if later < bond.pay.ticket.deadline && Authorised(seen, id) == Authorised(since, id) && MayOwn(since, id, bond.pay.ticket.client) {
      QuietInBetween(since, mid, seen, bond, w.contract);
      SignedStaysGood(w, bond, later);
    }
  }

  // --------------------------------------------------------------- admission

  /** When a submission's ticket is held: it is for this job and its parties, somebody signed it, and it
      rises over what is banked. */
  ghost predicate TakesBond(w: Terms, submit: Submit, open: Book) {
    && submit.bond.Some? && submit.bond.value.jobId == submit.jobId && w.charging
    && w.signatures.ticket(submit.bond.value.ticket, submit.bond.value.sig).Some?
    && NamesParties(w.payout, submit, submit.bond.value.ticket)
    && submit.bond.value.ticket.cumulative > AlreadyFor(w, submit.bond.value, open)
  }

  /** When a submission without a raise to post is let in: the chain's first answer decides. */
  ghost predicate IsLetIn(w: Terms, submit: Submit, open: Book, answer: Reading, now: u64) {
    && TakesBond(w, submit, open)
    && (w.payout.Some? ==>
          && submit.payer.Some? && answer.Seen?
          && submit.bond.value.ticket.cumulative <= answer.state.reserved && answer.state.earned < answer.state.reserved
          && IsOpenToJob(w.signatures, submit, answer.state, now))
  }

  /** The bond a job is let in with: what its ticket adds to both what is banked for the pair and what the
      chain has recognised of it, and one micro where the chain has recognised all of it. */
  function AdmittedBond(w: Terms, pay: JobPay, open: Book, answer: Reading): Bond {
    var already, cumulative := AlreadyFor(w, pay, open), pay.ticket.cumulative;
    if w.payout.Some? && answer.Seen?
    then Bond(pay, if answer.state.earned < cumulative then SatSub(cumulative, Max(already, answer.state.earned)) else 1, answer.state.appKey)
    else Bond(pay, SatSub(cumulative, already), "")
  }

  /** A submission with a raise for its own pair, or none to post, on a chain that always shows enough. */
  ghost predicate HasEnough(w: Terms, submit: Submit, answers: nat -> Reading, now: u64) {
    w.payout.Some? ==>
      && submit.payer.Some? && submit.bond.Some?
      && (submit.reserve.Some? ==> IsForThePair(w.payout.value, submit.reserve.value, submit.payer.value))
      && AlwaysEnough(w.signatures, submit, answers, submit.bond.value.ticket.cumulative, now)
  }

  /** The raise is for this worker and this payer, and its signature can be posted. */
  predicate IsForThePair(payout: string, post: ReservePost, payer: string) {
    SameName(post.workerPayout, payout) && SameName(post.client, payer) && post.sigIsHex
  }

  /** It never claims what the ledger or the chain already counts, and leaves nothing out that neither does. */
  lemma AdmittedBondIsTheRise(w: Terms, pay: JobPay, open: Book, state: ChainState)
    requires w.payout.Some? && pay.ticket.cumulative > AlreadyFor(w, pay, open)
    ensures var already, delta := AlreadyFor(w, pay, open), AdmittedBond(w, pay, open, Seen(state)).delta;
            && delta >= 1 && already + delta <= pay.ticket.cumulative
            && (state.earned < pay.ticket.cumulative ==>
                  && state.earned + delta <= pay.ticket.cumulative
                  && (already + delta == pay.ticket.cumulative || state.earned + delta == pay.ticket.cumulative))
            && (state.earned >= pay.ticket.cumulative ==> delta == 1)
  {}

  /** The bond is cut to what the chain has still to recognise, one micro at least, and has its key. */
  predicate IsNarrowed(was: Bond, now: Bond, s: ChainState) {
    && now.pay == was.pay && now.appKey == s.appKey
    && now.delta == (if s.earned + was.delta <= was.pay.ticket.cumulative || was.delta == 0 then was.delta
                     else if s.earned < was.pay.ticket.cumulative then was.pay.ticket.cumulative - s.earned else 1)
  }

  lemma NarrowedFitsTheLock(answers: nat -> Reading, last: nat, was: Bond)
    requires EarnedNeverFalls(answers) && answers(0).Seen? && answers(last).Seen? && was.delta >= 1
    ensures LeavesRoom(answers(0).state, answers(last).state, was.pay.ticket.cumulative) ==>
              forall now: Bond | IsNarrowed(was, now, answers(last).state) ::
                now.pay.ticket.cumulative <= answers(last).state.reserved && 1 <= now.delta <= answers(last).state.Remaining()
  {
    EnoughLockExactly(answers(0).state, answers(last).state, was.pay.ticket.cumulative);
    if LeavesRoom(answers(0).state, answers(last).state, was.pay.ticket.cumulative) {
      GoodLockHoldsTheBond(answers, last, was.pay.ticket, was.delta);
    }
  }

  class Worker {
    const payout: Option<string>
    const charging: bool
    const channels: Channels
    var pendingBonds: map<JobId, Bond>

    ghost predicate Valid() reads this, channels {
      && channels.Valid()
      && forall job | job in pendingBonds :: pendingBonds[job].delta >= 1
    }

    function OwnTerms(): Terms { Terms(payout, charging, channels.signatures, channels.contract) }

    constructor (payout: Option<string>, charging: bool, channels: Channels)
      requires channels.Valid()
      ensures Valid() && fresh(this)
      ensures this.payout == payout && this.charging == charging && this.channels == channels && pendingBonds == map[]
    {
      this.payout := payout;
      this.charging := charging;
      this.channels := channels;
      pendingBonds := map[];
    }

    /** Every `await`: other jobs bank tickets and hold bonds of their own. The caller learns only
        that no authorisation fell and that this job's bond is as it left it. */
    method Await(job: JobId)
      requires Valid()
      modifies this`pendingBonds, channels
      ensures Valid() && Rises(old(channels.open), channels.open)
      ensures job in pendingBonds <==> job in old(pendingBonds)
      ensures job in pendingBonds ==> pendingBonds[job] == old(pendingBonds)[job]
    {}

    /** Hold the prepaid chunk; its delta is the rise over what this ledger has banked. */
    method TakeBond(submit: Submit) returns (r: Result<u64, Error>)
      requires Valid()
      modifies this`pendingBonds
      ensures Valid()
      ensures r.Ok? <==> TakesBond(OwnTerms(), submit, channels.open)
      ensures r.Err? ==> pendingBonds == old(pendingBonds)
      ensures r.Ok? ==> pendingBonds == old(pendingBonds)[submit.jobId := Bond(submit.bond.value, r.value, "")]
      ensures r.Ok? ==> Covers(pendingBonds[submit.jobId], channels.open, channels.contract)
      ensures r.Ok? ==> submit.bond.value.ticket.cumulative
                        == channels.AuthorisedFor(submit.bond.value.ticket.client, submit.bond.value.ticket.workerPayout) + r.value
    {
      if submit.bond.None? { return Err(WrongJob); }
      var bond := submit.bond.value;
      if bond.jobId != submit.jobId { return Err(WrongJob); }
      if !charging { return Err(NoDomain); }
      if channels.signatures.ticket(bond.ticket, bond.sig).None? { return Err(BadSignature); }
      if payout.Some? && !SameName(bond.ticket.workerPayout, payout.value) { return Err(WrongParty); }
      if submit.payer.Some? && !SameName(bond.ticket.client, submit.payer.value) { return Err(WrongParty); }
      var already := channels.AuthorisedFor(bond.ticket.client, bond.ticket.workerPayout);
      if bond.ticket.cumulative <= already { return Err(NotRising); }
      var delta := bond.ticket.cumulative - already;
      pendingBonds := pendingBonds[submit.jobId := Bond(bond, delta, "")];
      return Ok(delta);
    }

    /** Up to eight more answers, for a raise in flight to be mined. */
    method WaitForLock(answers: nat -> Reading, from: nat, at: nat, need: u64) returns (next: nat, last: nat)
      requires at < from && answers(at).Seen?
      ensures from <= next <= from + 8 && at <= last < next && answers(last).Seen?
      ensures answers(last).state.Remaining() >= need || next == from + 8
    {
      var waited := 0;
      next, last := from, at;
      while answers(last).state.Remaining() < need && waited < 8
        invariant 0 <= waited <= 8 && next == from + waited
        invariant at <= last < next && answers(last).Seen?
        decreases 8 - waited
      {
        if answers(next).Seen? { last := next; }
        next := next + 1;
        waited := waited + 1;
      }
    }

    /** Wait for, or post, the raise the payer signed. `last` is the newest answer that was read. */
    method SettleRaise(post: ReservePost, payer: string, answers: nat -> Reading, postOk: bool, need: u64)
      returns (ok: bool, last: nat, posted: bool)
      requires payout.Some? && answers(0).Seen?
      ensures ok ==> answers(last).Seen?
      ensures ok ==> IsForThePair(payout.value, post, payer)
      ensures IsForThePair(payout.value, post, payer) && (forall k: nat :: answers(k).Seen? && answers(k).state.Remaining() >= need) ==> ok
      ensures posted ==> SameName(post.workerPayout, payout.value) && SameName(post.client, payer)
                         && exists k: nat :: answers(k).Seen? && answers(k).state.reserved < post.maxAmount
      ensures ok && !posted ==> post.maxAmount <= answers(last).state.reserved
      ensures ok && posted && !postOk ==> answers(last).state.Remaining() >= need
    {
      ok, last, posted := false, 0, false;
      if !SameName(post.workerPayout, payout.value) || !SameName(post.client, payer) || !post.sigIsHex { return; }
      var next := 1;
      if post.maxAmount <= answers(last).state.reserved && answers(last).state.Remaining() < need {
        next, last := WaitForLock(answers, next, last, need);
      }
      if post.maxAmount > answers(last).state.reserved {
        posted := true;
        if !answers(next).Seen? { return; }
        last := next;
        if !postOk {
          next, last := WaitForLock(answers, next + 1, last, need);
          if answers(last).state.Remaining() < need { return; }
        }
      }
      ok := true;
    }

    function NeedOf(job: JobId, first: ChainState): u64 reads this {
      if job in pendingBonds then Need(pendingBonds[job].pay.ticket.cumulative, first.earned) else 1
    }

    /** What the job's ticket comes to, nothing where no bond is held. */
    function Asks(job: JobId): u64 reads this { if job in pendingBonds then pendingBonds[job].pay.ticket.cumulative else 0 }

    /** Confirm, before any work, that this job will be paid. `answers` are the chain's answers in
        order, `postOk` whether posting the payer's raise succeeds; `last` is the answer the decision
        was taken on. Other jobs run while the chain is asked. */
    method EnsureLock(submit: Submit, answers: nat -> Reading, postOk: bool, now: u64)
      returns (ok: bool, last: nat, posted: bool)
      requires Valid()
      modifies this`pendingBonds, channels
      ensures Valid() && Rises(old(channels.open), channels.open)
      ensures submit.jobId in pendingBonds <==> submit.jobId in old(pendingBonds)
      ensures submit.jobId in pendingBonds && !ok ==> pendingBonds[submit.jobId] == old(pendingBonds)[submit.jobId]
      ensures payout.None? ==> ok && pendingBonds == old(pendingBonds) && channels.open == old(channels.open)
      ensures ok && payout.Some? ==>
                && submit.payer.Some? && charging && answers(0).Seen? && answers(last).Seen?
                && IsOpenToJob(channels.signatures, submit, answers(last).state, now)
                && LeavesRoom(answers(0).state, answers(last).state, old(Asks(submit.jobId)))
      ensures ok && payout.Some? && submit.jobId in pendingBonds ==>
                IsNarrowed(old(pendingBonds)[submit.jobId], pendingBonds[submit.jobId], answers(last).state)
      ensures ok && payout.Some? && submit.jobId in pendingBonds && EarnedNeverFalls(answers) ==>
                && pendingBonds[submit.jobId].pay.ticket.cumulative <= answers(last).state.reserved
                && 1 <= pendingBonds[submit.jobId].delta <= answers(last).state.Remaining()
      // A raise is posted only when the payer signed one, for this pair, above a lock that was read.
      ensures posted ==> submit.reserve.Some? && payout.Some? && submit.payer.Some?
                         && SameName(submit.reserve.value.workerPayout, payout.value)
                         && SameName(submit.reserve.value.client, submit.payer.value)
                         && exists k: nat :: answers(k).Seen? && answers(k).state.reserved < submit.reserve.value.maxAmount
      ensures ok && payout.Some? && submit.reserve.Some? && !posted ==>
                submit.reserve.value.maxAmount <= answers(last).state.reserved
      // With no raise to post, the first answer decides.
      ensures payout.Some? && submit.reserve.None? ==>
                (ok <==> && submit.payer.Some? && charging && answers(0).Seen?
                         && IsOpenToJob(channels.signatures, submit, answers(0).state, now)
                         && old(Asks(submit.jobId)) <= answers(0).state.reserved && answers(0).state.earned < answers(0).state.reserved)
      // With one for this pair, a chain that always shows enough is enough.
      ensures && payout.Some? && submit.payer.Some? && charging && submit.reserve.Some?
              && IsForThePair(payout.value, submit.reserve.value, submit.payer.value)
              && AlwaysEnough(channels.signatures, submit, answers, old(Asks(submit.jobId)), now)
              ==> ok
    {
      ok, last, posted := false, 0, false;
      if payout.None? { return true, 0, false; }
      if submit.payer.None? || !charging { return; }
      Await(submit.jobId);
      if !answers(0).Seen? { return; }
      var need := NeedOf(submit.jobId, answers(0).state);
      var proceed;
      proceed, last, posted := PostRaise(submit, answers, postOk, need);
      AlwaysEnoughIsNeeded(channels.signatures, submit, answers, Asks(submit.jobId), now);
      if !proceed { return; }
      if submit.jobId in pendingBonds && EarnedNeverFalls(answers) {
        NarrowedFitsTheLock(answers, last, pendingBonds[submit.jobId]);
      }
      ok := Confirm(submit, answers(0).state, answers(last).state, need, now);
    }

    /** Look at the lock, and cut the bond to what it is found to be good for. */
    method Confirm(submit: Submit, ghost first: ChainState, state: ChainState, need: u64, now: u64) returns (ok: bool)
      requires Valid() && need == NeedOf(submit.jobId, first)
      modifies this`pendingBonds
      ensures Valid() && pendingBonds.Keys == old(pendingBonds).Keys
      ensures ok <==> IsOpenToJob(channels.signatures, submit, state, now) && LeavesRoom(first, state, old(Asks(submit.jobId)))
      ensures ok && submit.jobId in pendingBonds ==> IsNarrowed(old(pendingBonds)[submit.jobId], pendingBonds[submit.jobId], state)
      ensures !ok ==> pendingBonds == old(pendingBonds)
    {
      LockIsGoodExactly(channels.signatures, submit, first, state, Asks(submit.jobId), now);
      ok := LockIsGood(channels.signatures, submit, state, need, now);
      if ok { NarrowBond(submit.jobId, state); }
    }

    /** The raise, if the payer signed one; other jobs run meanwhile. */
    method PostRaise(submit: Submit, answers: nat -> Reading, postOk: bool, need: u64) returns (proceed: bool, last: nat, posted: bool)
      requires Valid() && payout.Some? && submit.payer.Some? && answers(0).Seen?
      modifies this`pendingBonds, channels
      ensures Valid() && Rises(old(channels.open), channels.open)
      ensures submit.jobId in pendingBonds <==> submit.jobId in old(pendingBonds)
      ensures submit.jobId in pendingBonds ==> pendingBonds[submit.jobId] == old(pendingBonds)[submit.jobId]
      ensures submit.reserve.None? ==> proceed && last == 0 && !posted
      ensures proceed ==> answers(last).Seen?
      ensures posted ==> submit.reserve.Some?
                         && SameName(submit.reserve.value.workerPayout, payout.value)
                         && SameName(submit.reserve.value.client, submit.payer.value)
                         && exists k: nat :: answers(k).Seen? && answers(k).state.reserved < submit.reserve.value.maxAmount
      ensures proceed && submit.reserve.Some? && !posted ==> submit.reserve.value.maxAmount <= answers(last).state.reserved
      ensures && submit.reserve.Some? && IsForThePair(payout.value, submit.reserve.value, submit.payer.value)
              && (forall k: nat :: answers(k).Seen? && answers(k).state.Remaining() >= need)
              ==> proceed
    {
      proceed, last, posted := true, 0, false;
      if submit.reserve.Some? {
        proceed, last, posted := SettleRaise(submit.reserve.value, submit.payer.value, answers, postOk, need);
        Await(submit.jobId);
      }
    }

    /** The bond earns no more than the chain has still to recognise, and is checked by the chain's key. */
    method NarrowBond(job: JobId, state: ChainState)
      requires Valid()
      modifies this`pendingBonds
      ensures Valid() && pendingBonds.Keys == old(pendingBonds).Keys
      ensures job in pendingBonds ==>
                IsNarrowed(old(pendingBonds)[job], pendingBonds[job], state)
      ensures forall other | other in pendingBonds && other != job :: pendingBonds[other] == old(pendingBonds)[other]
    {
      if job in pendingBonds {
        var entry := pendingBonds[job];
        var delta := Min(entry.delta, Need(entry.pay.ticket.cumulative, state.earned));
        pendingBonds := pendingBonds[job := Bond(entry.pay, delta, state.appKey)];
      }
    }

    /** Ask for the next slice. `paid` is the client's answer, if one came in time; `seen` is the
        ledger it was measured against. */
    method RequestTopUp(submit: Submit, paid: Option<JobPay>, now: u64) returns (granted: bool, ghost seen: Book)
      requires Valid()
      modifies this`pendingBonds, channels
      ensures Valid() && Rises(old(channels.open), channels.open) && seen == channels.open
      ensures submit.jobId in pendingBonds <==> submit.jobId in old(pendingBonds)
      ensures granted <==> paid.Some? && submit.jobId in old(pendingBonds)
                           && Grantable(OwnTerms(), old(pendingBonds)[submit.jobId], paid.value, now, seen)
      ensures granted ==> pendingBonds[submit.jobId] == Granted(OwnTerms(), old(pendingBonds)[submit.jobId], paid.value, now, seen)
      ensures !granted && submit.jobId in pendingBonds ==> pendingBonds[submit.jobId] == old(pendingBonds)[submit.jobId]
    {
      Await(submit.jobId);
      granted, seen := false, channels.open;
      if paid.None? { return; }
      var pay := paid.value;
      var already := channels.AuthorisedFor(pay.ticket.client, pay.ticket.workerPayout);
      if !charging || submit.jobId !in pendingBonds { return; }
      var bond := pendingBonds[submit.jobId];
      if CheckTicket(channels.signatures, pay.ticket, pay.sig, bond.appKey, now).Some? { return; }
      var slice := Slice(bond.delta, pay.ticket.cumulative, already);
      if slice.None? { return; }
      pendingBonds := pendingBonds[submit.jobId := Bond(pay, slice.value, bond.appKey)];
      granted := true;
    }

    method BankPay(submit: Submit, pay: JobPay, amount: u64, appKey: string, now: u64, io: Io) returns (ok: bool)
      requires Valid()
      modifies channels
      ensures Valid()
      ensures ok <==> BankableFor(OwnTerms(), submit, pay, amount, appKey, now, old(channels.open))
      ensures ok ==> BookStep(old(channels.open), channels.open, Bank(pay.ticket, amount), channels.contract)
      ensures !ok ==> channels.open == old(channels.open)
    {
      if pay.jobId != submit.jobId || !charging { return false; }
      if payout.Some? && !SameName(pay.ticket.workerPayout, payout.value) { return false; }
      if submit.payer.Some? && !SameName(pay.ticket.client, submit.payer.value) { return false; }
      var r := channels.AcceptSpend(pay.ticket, pay.sig, appKey, amount, now, io);
      return r.Ok?;
    }

    /** Bill the job once: what the client signs for the invoice, or the whole bond when it is silent
        or signs something that cannot be banked. `seen` is the ledger at the moment of banking. */
    method CaptureChunk(submit: Submit, amount: u64, paid: Option<JobPay>, now: u64, io: Io)
      returns (invoice: Option<u64>, billed: Option<u64>, ghost seen: Book)
      requires Valid()
      modifies this`pendingBonds, channels
      ensures Valid() && submit.jobId !in pendingBonds
      ensures Rises(old(channels.open), seen) && BookOk(seen, channels.contract)
      ensures invoice.Some? <==> submit.jobId in old(pendingBonds)
      ensures invoice.Some? ==> 1 <= invoice.value <= old(pendingBonds)[submit.jobId].delta
      ensures invoice.Some? && 1 <= amount <= old(pendingBonds)[submit.jobId].delta ==> invoice.value == amount
      ensures invoice.None? ==> billed.None?
      ensures billed.None? ==> channels.open == seen
      ensures invoice.Some? ==>
                var bond := old(pendingBonds)[submit.jobId];
                if paid.Some? && BankableFor(OwnTerms(), submit, paid.value, invoice.value, bond.appKey, now, seen) then
                  billed == invoice && BookStep(seen, channels.open, Bank(paid.value.ticket, invoice.value), channels.contract)
                else if BankableFor(OwnTerms(), submit, bond.pay, bond.delta, bond.appKey, now, seen) then
                  billed == Some(bond.delta) && BookStep(seen, channels.open, Bank(bond.pay.ticket, bond.delta), channels.contract)
                else billed.None?
      // A silent client, a bond nobody outran, on an entry nobody else had opened when the capture began:
      // the bond is banked exactly when it is still good and is for this job and its parties.
      ensures invoice.Some? && paid.None? ==>
                var bond := old(pendingBonds)[submit.jobId]; var t := bond.pay.ticket;
                var id := IdFor(t.client, t.workerPayout, channels.contract);
                && Covers(bond, old(channels.open), channels.contract) && Authorised(seen, id) == Authorised(old(channels.open), id)
                && MayOwn(old(channels.open), id, t.client)
                ==> (billed.Some? <==>
                       && charging && bond.pay.jobId == submit.jobId && NamesParties(payout, submit, t)
                       && SignedBy(channels.signatures, t, bond.pay.sig, bond.appKey, now))
                    && (billed.Some? ==> billed == Some(bond.delta)
                                         && Authorised(channels.open, id) == t.cumulative >= Authorised(old(channels.open), id) + bond.delta)
    {
      if submit.jobId !in pendingBonds { return None, None, channels.open; }
      var bond := pendingBonds[submit.jobId];
      pendingBonds := pendingBonds - {submit.jobId};
      var asked: u64 := Max(Min(amount, bond.delta), 1);
      invoice := Some(asked);
      Await(submit.jobId);
      seen, billed := channels.open, None;
      ghost var id := IdFor(bond.pay.ticket.client, bond.pay.ticket.workerPayout, channels.contract);
      if && Covers(bond, old(channels.open), channels.contract) && Authorised(seen, id) == Authorised(old(channels.open), id)
         && MayOwn(old(channels.open), id, bond.pay.ticket.client) {
        UnraisedBondIsBankable(bond, old(channels.open), seen, channels.contract);
      }
      if paid.Some? {
        var ok := BankPay(submit, paid.value, asked, bond.appKey, now, io);
        if ok { return invoice, Some(asked), seen; }
      }
      var ok := BankPay(submit, bond.pay, bond.delta, bond.appKey, now, io);
      if ok { billed := Some(bond.delta); }
    }

    /** The slices asked for while the answer streams, each with the client's answer. `ledgers` are what
        they were measured against; the first bond was taken on `taken`. */
    method TopUps(submit: Submit, slices: seq<Option<JobPay>>, clock: nat -> u64, ghost taken: Book)
      returns (granted: seq<bool>, ghost ledgers: seq<Book>)
      requires Valid() && submit.jobId in pendingBonds && Rises(taken, channels.open)
      modifies this`pendingBonds, channels
      ensures Valid() && submit.jobId in pendingBonds && |granted| == |ledgers| == |slices|
      ensures RisesAlong(taken, ledgers, channels.open) && Rises(old(channels.open), channels.open)
      ensures FollowsTheSlices(OwnTerms(), old(pendingBonds)[submit.jobId], Asked(slices, clock, ledgers), granted,
                               pendingBonds[submit.jobId])
    {
      granted, ledgers := [], [];
      ghost var first := pendingBonds[submit.jobId];
      for i := 0 to |slices|
        invariant Valid() && submit.jobId in pendingBonds && |granted| == |ledgers| == i
        invariant RisesAlong(taken, ledgers, channels.open) && Rises(old(channels.open), channels.open)
        invariant FollowsTheSlices(OwnTerms(), first, Asked(slices, clock, ledgers), granted, pendingBonds[submit.jobId])
      {
        ghost var before, held := channels.open, pendingBonds[submit.jobId];
        var ok, seen := RequestTopUp(submit, slices[i], clock(i));
        RisesFurther(taken, ledgers, before, seen);
        RisesTwice(old(channels.open), before, seen);
        OneMoreSlice(OwnTerms(), first, taken, Asked(slices, clock, ledgers), granted, held, seen, ok, pendingBonds[submit.jobId]);
        granted, ledgers := granted + [ok], ledgers + [seen];
      }
    }

    /** Take the bond and confirm the lock. A job that is refused leaves no bond behind. Without a raise
        to post, it is let in exactly when its ticket is taken and the first answer shows a good lock. */
    method Admit(submit: Submit, answers: nat -> Reading, postOk: bool, now: u64) returns (ok: bool, last: nat)
      requires Valid() && submit.jobId !in pendingBonds
      modifies this`pendingBonds, channels
      ensures Valid() && Rises(old(channels.open), channels.open) && (ok <==> submit.jobId in pendingBonds)
      ensures ok ==> TakesBond(OwnTerms(), submit, old(channels.open)) && (payout.Some? ==> answers(last).Seen?)
      ensures ok ==> pendingBonds[submit.jobId] == AdmittedBond(OwnTerms(), submit.bond.value, old(channels.open), answers(last))
      ensures submit.reserve.None? ==> (ok <==> IsLetIn(OwnTerms(), submit, old(channels.open), answers(0), now))
      ensures TakesBond(OwnTerms(), submit, old(channels.open)) && HasEnough(OwnTerms(), submit, answers, now) ==> ok
      ensures ok && payout.None? ==> channels.open == old(channels.open)
      ensures ok && payout.Some? ==> SignedInTime(OwnTerms(), pendingBonds[submit.jobId])
      ensures ok && payout.Some? && EarnedNeverFalls(answers) ==>
                && submit.bond.value.ticket.cumulative <= answers(last).state.reserved
                && pendingBonds[submit.jobId].delta <= answers(last).state.Remaining()
    {
      last := 0;
      var took := TakeBond(submit);
      if took.Err? { return false, 0; }
      var posted;
      ok, last, posted := EnsureLock(submit, answers, postOk, now);
      if !ok { pendingBonds := pendingBonds - {submit.jobId}; }
    }

    /** A priced job whose client pays for slices and then is silent, from submission to capture. `ledgers`
        are the ones its slices were measured against, `seen` the one it was captured on: what was banked
        is the difference between that and the ledger left behind. Once let in, and while no other job
        raises the pair its last bond is for, that bond is banked exactly when its ticket is for this job
        and its parties. Without a granted slice it always is, and the chain the job was let in on holds
        all of it; a granted slice is bound by neither. */
    method ServeJob(submit: Submit, answers: nat -> Reading, postOk: bool, slices: seq<Option<JobPay>>, clock: nat -> u64,
                    amount: u64, now: u64, later: u64, io: Io)
      returns (admitted: bool, last: nat, granted: seq<bool>, held: Option<Bond>, billed: Option<u64>,
               ghost ledgers: seq<Book>, ghost seen: Book)
      requires Valid() && submit.jobId !in pendingBonds
      modifies this`pendingBonds, channels
      ensures Valid() && submit.jobId !in pendingBonds
      ensures RisesAlong(old(channels.open), ledgers, seen) && BookOk(seen, channels.contract)
      ensures billed.None? ==> channels.open == seen
      ensures billed.Some? ==> admitted && held.Some?
                               && BookStep(seen, channels.open, Bank(held.value.pay.ticket, billed.value), channels.contract)
      ensures admitted ==> TakesBond(OwnTerms(), submit, old(channels.open)) && (payout.Some? ==> answers(last).Seen?)
      ensures submit.reserve.None? ==> (admitted <==> IsLetIn(OwnTerms(), submit, old(channels.open), answers(0), now))
      ensures TakesBond(OwnTerms(), submit, old(channels.open)) && HasEnough(OwnTerms(), submit, answers, now) ==> admitted
      // What is banked is the last bond, while it lasts and by the key the chain showed when the job was let in.
      ensures billed.Some? ==> held.Some? && billed.value == held.value.delta
                               && SignedBy(channels.signatures, held.value.pay.ticket, held.value.pay.sig, held.value.appKey, later)
      ensures admitted && payout.Some? ==> held.Some? && held.value.appKey == answers(last).state.appKey
      ensures admitted ==>
                var first, a := AdmittedBond(OwnTerms(), submit.bond.value, old(channels.open), answers(last)), Asked(slices, clock, ledgers);
                |granted| == |slices| && held.Some? && FollowsTheSlices(OwnTerms(), first, a, granted, held.value)
      ensures admitted && payout.Some? ==>
                var first, a := AdmittedBond(OwnTerms(), submit.bond.value, old(channels.open), answers(last)), Asked(slices, clock, ledgers);
                var since, t := SinceAt(OwnTerms(), first, old(channels.open), a, |slices|), held.value.pay.ticket;
                var id := IdFor(t.client, t.workerPayout, channels.contract);
                later < t.deadline && Authorised(seen, id) == Authorised(since, id) && MayOwn(since, id, t.client) ==>
                  && (billed.Some? <==> held.value.pay.jobId == submit.jobId && NamesParties(payout, submit, t))
                  && (billed.Some? ==> billed == Some(held.value.delta) && Authorised(channels.open, id) == t.cumulative)
      ensures admitted && true !in granted ==>
                held == Some(AdmittedBond(OwnTerms(), submit.bond.value, old(channels.open), answers(last)))
      ensures admitted && payout.Some? && EarnedNeverFalls(answers) && true !in granted ==>
                && held.value.pay.ticket.cumulative <= answers(last).state.reserved
                && held.value.delta <= answers(last).state.Remaining()
    {
      ghost var taken := channels.open;
      granted, held, billed, ledgers := [], None, None, [];
      admitted, last := Admit(submit, answers, postOk, now);
      seen := channels.open;
      if !admitted { return; }
      ghost var first := pendingBonds[submit.jobId];
      granted, ledgers := TopUps(submit, slices, clock, taken);
      ghost var bond, mid, a := pendingBonds[submit.jobId], channels.open, Asked(slices, clock, ledgers);
      held := Some(pendingBonds[submit.jobId]);
      var invoice;
      invoice, billed, seen := CaptureChunk(submit, amount, None, later, io);
      RisesFurther(taken, ledgers, mid, seen);
      if true !in granted { NoneGranted(OwnTerms(), first, taken, a, granted, bond); }
      if payout.Some? {
        SettledOnSilence(OwnTerms(), first, taken, a, mid, seen, later);
      }
    }

    /** The same job without a slice: let in, it is paid, within the lock it was let in on, though its
        client never speaks again, unless another job raises the pair or its ticket runs out. `seen` is
        the ledger as other jobs have left it; what this job does to it is to bank its bond, or nothing. */
    method ServeSilentClient(submit: Submit, answers: nat -> Reading, postOk: bool, amount: u64, now: u64, later: u64, io: Io)
      returns (admitted: bool, last: nat, billed: Option<u64>, ghost seen: Book)
      requires Valid() && submit.jobId !in pendingBonds
      modifies this`pendingBonds, channels
      ensures Valid() && submit.jobId !in pendingBonds && Rises(old(channels.open), seen)
      ensures billed.None? ==> channels.open == seen
      ensures billed.Some? ==> admitted && submit.bond.Some?
                               && BookStep(seen, channels.open, Bank(submit.bond.value.ticket, billed.value), channels.contract)
      ensures admitted ==> TakesBond(OwnTerms(), submit, old(channels.open))
      ensures submit.reserve.None? ==> (admitted <==> IsLetIn(OwnTerms(), submit, old(channels.open), answers(0), now))
      ensures TakesBond(OwnTerms(), submit, old(channels.open)) && HasEnough(OwnTerms(), submit, answers, now) ==> admitted
      ensures billed.Some? ==> billed.value == AdmittedBond(OwnTerms(), submit.bond.value, old(channels.open), answers(last)).delta
      ensures admitted && payout.Some? && EarnedNeverFalls(answers) ==>
                var t := submit.bond.value.ticket; var id := IdFor(t.client, t.workerPayout, channels.contract);
                && answers(last).Seen? && t.cumulative <= answers(last).state.reserved
                && (later < t.deadline && Authorised(seen, id) == Authorised(old(channels.open), id)
                    && MayOwn(old(channels.open), id, t.client) ==>
                      && billed.Some? && 1 <= billed.value <= answers(last).state.Remaining()
                      && Authorised(channels.open, id) == t.cumulative)
    {
      var granted, held;
      ghost var ledgers;
      admitted, last, granted, held, billed, ledgers, seen :=
        ServeJob(submit, answers, postOk, [], (i: nat) => now, amount, now, later, io);
    }
  }
}
