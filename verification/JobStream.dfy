/** One submission on the worker (server.rs, `handle_submit_cancellable`): the runner, the
    forwarder that meters its tokens, and the messages the two send, under every schedule. */
module JobStream {
  import opened U64
  import opened Wrappers
  import opened Pricing
  import Bonds

  datatype Message = Queued | Running | Delta(piece: Piece) | TopUp | Result | Invoice | Done | Failed

  /** A fragment of the answer with its token count; an empty fragment is counted but not sent. */
  datatype Piece = Piece(tokens: u64, empty: bool)

  datatype Outcome = Finished(amount: u64) | Broke | Stopped

  datatype Phase = Admitting | Waiting | Generating | Joining(outcome: Outcome) | Capturing(amount: u64) | Ended

  /** The forwarder: taking the next item, asking for budget for the piece in hand, waiting on the
      client's answer, emptying the channels unmetered once they are closed, or returned. */
  datatype Forwarder = Metering | Asking(held: Piece) | Asked(held: Piece) | Draining | Gone

  datatype Job = Job(
    rates: Rates, prompt: u64, holdback: bool, bond: Option<u64>,
    phase: Phase, forwarder: Forwarder, authorized: u64, used: u64,
    progress: nat, pieces: seq<Piece>, sent: seq<Message>,
    // Bookkeeping of the model: tokens forwarded so far by the metered loop, and by the last drain.
    metered: nat, drained: nat)

  datatype Event =
    | Refuse | Enqueue | StopQueued | ShutDown | Start
    | EmitProgress | EmitPiece(piece: Piece)
    | ForwardProgress | TakePiece | ChannelClosed | DrainProgress | DrainPiece | DrainedDry
    | AskClient | Grant(cumulative: u64, already: u64) | NoGrant
    | EndRun(outcome: Outcome) | Join | SendInvoice | Finish

  // ------------------------------------------------------------------- steps

  predicate OverBudget(used: u64, authorized: u64) { used > authorized && authorized != MAX }

  function Budget(j: Job): u64 {
    if !j.holdback then MAX
    else if j.bond.None? then 0 else AuthorizedTokens(j.rates, j.bond.value, j.prompt)
  }

  function Say(j: Job, m: Message): Job { j.(sent := j.sent + [m]) }

  /** Send the piece in hand, or ask for more budget first. */
  function Forward(j: Job, p: Piece): Job {
    if OverBudget(j.used, j.authorized) then j.(forwarder := Asking(p)) else
    var sent := if p.empty then j.sent else j.sent + [Delta(p)];
    j.(forwarder := Metering, sent := sent, metered := j.metered + p.tokens)
  }

  predicate Enabled(j: Job, e: Event) {
    match e
    case Refuse => j.phase.Admitting?
    case Enqueue => j.phase.Admitting?
    case StopQueued => j.phase.Waiting?
    case ShutDown => j.phase.Waiting?
    case Start => j.phase.Waiting?
    case EmitProgress => j.phase.Generating?
    case EmitPiece(p) => j.phase.Generating? && (p.empty <==> p.tokens == 0)
    case ForwardProgress => j.forwarder.Metering? && j.progress > 0
    case TakePiece => j.forwarder.Metering? && j.pieces != []
    case ChannelClosed => j.forwarder.Metering? && j.phase.Joining? && (j.progress == 0 || j.pieces == [])
    case DrainProgress => j.forwarder.Draining? && j.progress > 0
    case DrainPiece => j.forwarder.Draining? && j.progress == 0 && j.pieces != []
    case DrainedDry => j.forwarder.Draining? && j.progress == 0 && j.pieces == []
    case AskClient => j.phase.Generating? && j.holdback && j.forwarder.Asking?
    case Grant(cumulative, already) =>
      j.forwarder.Asked? && j.bond.Some? && Bonds.Slice(j.bond.value, cumulative, already).Some?
    case NoGrant => j.forwarder.Asked?
    case EndRun(_) => j.phase.Generating? && !j.forwarder.Asked?
    case Join => j.phase.Joining? && j.forwarder.Gone?
    case SendInvoice => j.phase.Capturing? && j.holdback && j.phase.amount > 0 && j.bond.Some?
    case Finish => j.phase.Capturing? && !(j.holdback && j.phase.amount > 0 && j.bond.Some?)
  }

  function Apply(j: Job, e: Event): Job
    requires Enabled(j, e)
  {
    match e
    case Refuse => Say(j, Failed).(phase := Ended)
    case Enqueue => Say(j, Queued).(phase := Waiting)
    case StopQueued => Say(j, Failed).(phase := Ended)
    case ShutDown => Say(j, Failed).(phase := Ended)
    case Start =>
      Say(j, Running).(phase := Generating, forwarder := Metering, authorized := Budget(j), used := j.prompt,
                       progress := 0, pieces := [], metered := 0, drained := 0)
    case EmitProgress => if j.forwarder.Gone? then j else j.(progress := j.progress + 1)
    case EmitPiece(p) => if j.forwarder.Gone? then j else j.(pieces := j.pieces + [p])
    case ForwardProgress => Say(j, Running).(progress := j.progress - 1)
    case TakePiece =>
      var p := j.pieces[0];
      Forward(j.(pieces := j.pieces[1..], used := SatAdd(j.used, p.tokens)), p)
    case ChannelClosed => j.(forwarder := Draining)
    case DrainProgress => Say(j, Running).(progress := j.progress - 1)
    case DrainPiece =>
      var k := j.(pieces := j.pieces[1..], drained := j.drained + j.pieces[0].tokens);
      if j.pieces[0].empty then k else Say(k, Delta(j.pieces[0]))
    case DrainedDry => j.(forwarder := Gone)
    case AskClient => Say(j, TopUp).(forwarder := Asked(j.forwarder.held))
    case Grant(cumulative, already) =>
      var k := j.(bond := Bonds.Slice(j.bond.value, cumulative, already));
      Forward(k.(authorized := Budget(k)), j.forwarder.held)
    case NoGrant => j.(forwarder := Gone)
    case EndRun(outcome) => j.(phase := Joining(outcome))
    case Join =>
      (match j.phase.outcome
       case Finished(amount) => Say(j, Result).(phase := Capturing(amount))
       case Broke => Say(j, Failed).(phase := Ended)
       case Stopped => Say(j, Failed).(phase := Ended))
    case SendInvoice => Say(j, Invoice).(bond := None)
    case Finish => Say(j, Done).(phase := Ended)
  }

  predicate Fresh(j: Job) {
    j.phase.Admitting? && j.sent == [] && j.forwarder.Gone? && j.metered == j.drained == 0 && j.progress == 0 && j.pieces == []
  }

  ghost predicate Run(jobs: seq<Job>, events: seq<Event>) {
    && |jobs| == |events| + 1 && Fresh(jobs[0])
    && forall i | 0 <= i < |events| :: Enabled(jobs[i], events[i]) && jobs[i + 1] == Apply(jobs[i], events[i])
  }

  // ----------------------------------------------------------------- grammar

  predicate Streams(m: Message) { m.Running? || m.Delta? || m.TopUp? }

  predicate IsStream(s: seq<Message>) { forall i | 0 <= i < |s| :: Streams(s[i]) }

  /** Failed | Queued Failed | Queued Running stream Failed | Queued Running stream Result Invoice? Done */
  ghost predicate Complete(s: seq<Message>) {
    || s == [Failed]
    || s == [Queued, Failed]
    || exists mid | IsStream(mid) ::
         || s == [Queued, Running] + mid + [Failed]
         || s == [Queued, Running] + mid + [Result, Done]
         || s == [Queued, Running] + mid + [Result, Invoice, Done]
  }

  ghost predicate InGrammar(s: seq<Message>) { exists rest :: Complete(s + rest) }

  predicate IsTerminal(m: Message) { m == Done || m == Failed }

  /** `s` is a started stream with `tail` after it. */
  ghost predicate Started(s: seq<Message>, tail: seq<Message>) {
    exists mid | IsStream(mid) :: s == [Queued, Running] + mid + tail
  }

  /** What has been sent, phase by phase; the forwarder is out of the way outside its two phases. */
  ghost predicate Shape(j: Job) {
    && (match j.phase
        case Admitting => j.sent == []
        case Waiting => j.sent == [Queued]
        case Generating => Started(j.sent, [])
        case Joining(_) => Started(j.sent, [])
        case Capturing(_) => Started(j.sent, [Result]) || (j.bond.None? && Started(j.sent, [Result, Invoice]))
        case Ended => Complete(j.sent))
    && (j.phase.Generating? || j.phase.Joining? || j.forwarder.Gone?)
    && (j.forwarder.Asked? ==> j.phase.Generating?)
    && (j.forwarder.Draining? ==> j.phase.Joining?)
  }

  lemma StreamGrows(s: seq<Message>, m: Message)
    requires Started(s, []) && Streams(m)
    ensures Started(s + [m], [])
  {
    var mid :| IsStream(mid) && s == [Queued, Running] + mid + [];
    assert s + [m] == [Queued, Running] + (mid + [m]) + [];
  }

  lemma TailGrows(s: seq<Message>, tail: seq<Message>, m: Message)
    requires Started(s, tail)
    ensures Started(s + [m], tail + [m])
  {
    var mid :| IsStream(mid) && s == [Queued, Running] + mid + tail;
    assert s + [m] == [Queued, Running] + mid + (tail + [m]);
  }

  lemma StepKeepsShape(j: Job, e: Event)
    requires Shape(j) && Enabled(j, e)
    ensures Shape(Apply(j, e))
  {
    if e.SendInvoice? || e.Finish? {
      ClosingKeepsShape(j, e);
    } else if j.phase.Generating? || j.phase.Joining? {
      if e.Join? { JoiningKeepsShape(j); } else { StreamingKeepsShape(j, e); }
    } else if e.Start? {
      assert j.sent + [Running] == [Queued, Running] + [] + [];
    }
  }

  lemma StreamingKeepsShape(j: Job, e: Event)
    requires Shape(j) && Enabled(j, e) && (j.phase.Generating? || j.phase.Joining?) && !e.Join?
    ensures Shape(Apply(j, e))
  {
    forall m: Message | Streams(m) ensures Started(j.sent + [m], []) { StreamGrows(j.sent, m); }
  }

  lemma JoiningKeepsShape(j: Job)
    requires Shape(j) && Enabled(j, Join)
    ensures Shape(Apply(j, Join))
  {
    TailGrows(j.sent, [], Failed);
    TailGrows(j.sent, [], Result);
    assert [] + [Failed] == [Failed] && [] + [Result] == [Result];
  }

  lemma ClosingKeepsShape(j: Job, e: Event)
    requires Shape(j) && Enabled(j, e) && (e.SendInvoice? || e.Finish?)
    ensures Shape(Apply(j, e))
  {
    if Started(j.sent, [Result]) {
      TailGrows(j.sent, [Result], Invoice);
      TailGrows(j.sent, [Result], Done);
      assert [Result] + [Invoice] == [Result, Invoice] && [Result] + [Done] == [Result, Done];
    }
    if Started(j.sent, [Result, Invoice]) {
      TailGrows(j.sent, [Result, Invoice], Done);
      assert [Result, Invoice] + [Done] == [Result, Invoice, Done];
    }
  }

  lemma ShapeIsInGrammar(j: Job)
    requires Shape(j)
    ensures InGrammar(j.sent)
  {
    var rest: seq<Message> :=
      match j.phase
      case Admitting => [Failed]
      case Waiting => [Failed]
      case Generating => [Failed]
      case Joining(_) => [Failed]
      case Capturing(_) => [Done]
      case Ended => [];
    if Started(j.sent, []) { TailGrows(j.sent, [], Failed); assert [] + [Failed] == [Failed]; }
    if Started(j.sent, [Result]) { TailGrows(j.sent, [Result], Done); assert [Result] + [Done] == [Result, Done]; }
    if Started(j.sent, [Result, Invoice]) {
      TailGrows(j.sent, [Result, Invoice], Done);
      assert [Result, Invoice] + [Done] == [Result, Invoice, Done];
    }
    assert j.phase.Ended? ==> j.sent + [] == j.sent;
    assert Complete(j.sent + rest);
  }

  lemma {:induction false} RunsKeepShape(jobs: seq<Job>, events: seq<Event>)
    requires Run(jobs, events)
    ensures Shape(jobs[|events|])
  {
    if events != [] {
      var n := |events| - 1;
      RunsKeepShape(jobs[..|events|], events[..n]);
      StepKeepsShape(jobs[n], events[n]);
    }
  }

  /** Under every schedule the messages of a submission are the beginning of a sentence of the
      grammar, and a whole one when the runner has ended. */
  lemma MessagesFollowTheGrammar(jobs: seq<Job>, events: seq<Event>)
    requires Run(jobs, events)
    ensures InGrammar(jobs[|events|].sent)
    ensures jobs[|events|].phase.Ended? ==> Complete(jobs[|events|].sent)
  {
    RunsKeepShape(jobs, events);
    ShapeIsInGrammar(jobs[|events|]);
  }

  lemma SentenceIsSafe(w: seq<Message>, mid: seq<Message>, tail: seq<Message>)
    requires IsStream(mid) && w == [Queued, Running] + mid + tail
    requires tail in {[Failed], [Result, Done], [Result, Invoice, Done]}
    ensures forall i | 0 <= i < |w| - 1 :: !IsTerminal(w[i])
    ensures forall i | 0 <= i < |w| && w[i] in {Result, Invoice} :: w[|w| - 1] == Done
    ensures forall i | 0 <= i < |w| && w[i] == Invoice :: i > 0 && w[i - 1] == Result
    ensures forall i | 0 <= i < |w| && w[i] == Result :: i == |mid| + 2
  {
    forall i | 0 <= i < |w|
      ensures i < |w| - 1 ==> !IsTerminal(w[i])
      ensures w[i] in {Result, Invoice} ==> w[|w| - 1] == Done
      ensures w[i] == Invoice ==> i > 0 && w[i - 1] == Result
      ensures w[i] == Result ==> i == |mid| + 2
    {
      if 2 <= i < |mid| + 2 { assert w[i] == mid[i - 2]; }
    }
  }

  /** In the grammar, nothing follows a terminal status, nothing is delivered by a failed or stopped
      run, one result at most is delivered, and an invoice comes only after it. */
  lemma GrammarIsSafe(s: seq<Message>)
    requires InGrammar(s)
    ensures forall i | 0 <= i < |s| - 1 :: !IsTerminal(s[i])
    ensures Failed in s ==> Result !in s && Invoice !in s
    ensures forall i | 0 <= i < |s| && s[i] == Invoice :: i > 0 && s[i - 1] == Result
    ensures forall i, j | 0 <= i < |s| && 0 <= j < |s| && s[i] == s[j] == Result :: i == j
  {
    var rest :| Complete(s + rest);
    var w := s + rest;
    assert forall i | 0 <= i < |s| :: w[i] == s[i];
    if w != [Failed] && w != [Queued, Failed] {
      var mid :| IsStream(mid) && (
        || w == [Queued, Running] + mid + [Failed]
        || w == [Queued, Running] + mid + [Result, Done]
        || w == [Queued, Running] + mid + [Result, Invoice, Done]);
      SentenceIsSafe(w, mid, w[|mid| + 2..]);
      assert Failed in s ==> w[|w| - 1] == Failed;
    }
  }

  // ---------------------------------------------------------------- metering

  function Held(f: Forwarder): nat { if f.Asking? || f.Asked? then f.held.tokens else 0 }

  /** The forwarder's counters, while it meters: what it may forward is what the bond of the moment
      buys, and what it has forwarded is within it. */
  ghost predicate Metered(j: Job) {
    && (j.phase.Generating? || j.phase.Joining? ==>
          && (j.metered > 0 && j.authorized != MAX ==> j.prompt + j.metered <= j.authorized)
          && j.authorized == Budget(j))
    && (j.forwarder.Metering? || j.forwarder.Asking? || j.forwarder.Asked? ==>
          && (j.phase.Generating? || j.phase.Joining?)
          && j.used == Clip(j.prompt + j.metered + Held(j.forwarder))
          && (j.forwarder.Asking? || j.forwarder.Asked? ==> OverBudget(j.used, j.authorized)))
    && (j.phase.Admitting? || j.phase.Waiting? ==> j.metered == 0)
    && (j.forwarder.Asked? ==> j.phase.Generating?)
  }

  lemma StepKeepsMetered(j: Job, e: Event)
    requires Metered(j) && Enabled(j, e)
    ensures Metered(Apply(j, e))
    ensures j.phase.Generating? || j.phase.Joining? ==> j.authorized <= Apply(j, e).authorized
    ensures j.bond.Some? && Apply(j, e).bond.Some? ==> j.bond.value <= Apply(j, e).bond.value
  {
    BondNeverFalls(j, e);
    match e
    case Grant(cumulative, already) => GrantKeepsMetered(j, cumulative, already);
    case TakePiece => TakePieceKeepsMetered(j);
    case Start => StartsMetered(j);
    case SendInvoice =>
    case _ => OtherStepsKeepMetered(j, e);
  }

  lemma BondNeverFalls(j: Job, e: Event)
    requires Enabled(j, e)
    ensures j.bond.Some? && Apply(j, e).bond.Some? ==> j.bond.value <= Apply(j, e).bond.value
  {}

  lemma StartsMetered(j: Job)
    requires Metered(j) && Enabled(j, Start)
    ensures Metered(Apply(j, Start))
  {
    assert Apply(j, Start).used == Clip(j.prompt);
  }

  lemma OtherStepsKeepMetered(j: Job, e: Event)
    requires Metered(j) && Enabled(j, e) && !e.Grant? && !e.TakePiece? && !e.Start? && !e.SendInvoice?
    ensures Metered(Apply(j, e))
    ensures j.authorized == Apply(j, e).authorized
  {
    SameBudget(j, e);
  }

  lemma SameBudget(j: Job, e: Event)
    requires Enabled(j, e) && !e.Grant? && !e.SendInvoice?
    ensures Budget(Apply(j, e)) == Budget(j)
  {
    StepKeepsTerms(j, e);
  }

  lemma GrantKeepsMetered(j: Job, cumulative: u64, already: u64)
    requires Metered(j) && Enabled(j, Grant(cumulative, already))
    ensures Metered(Apply(j, Grant(cumulative, already))) && j.authorized <= Apply(j, Grant(cumulative, already)).authorized
  {
    AuthorizedMonotone(j.rates, j.bond.value, Bonds.Slice(j.bond.value, cumulative, already).value, j.prompt);
  }

  lemma TakePieceKeepsMetered(j: Job)
    requires Metered(j) && Enabled(j, TakePiece)
    ensures Metered(Apply(j, TakePiece)) && j.authorized == Apply(j, TakePiece).authorized
  {}

  lemma {:induction false} RunsStayMetered(jobs: seq<Job>, events: seq<Event>)
    requires Run(jobs, events)
    ensures Metered(jobs[|events|])
    ensures jobs[|events|].rates == jobs[0].rates && jobs[|events|].prompt == jobs[0].prompt
            && jobs[|events|].holdback == jobs[0].holdback
  {
    if events != [] {
      var n := |events| - 1;
      RunsStayMetered(jobs[..|events|], events[..n]);
      StepKeepsMetered(jobs[n], events[n]);
      StepKeepsTerms(jobs[n], events[n]);
    }
  }

  lemma StepKeepsTerms(j: Job, e: Event)
    requires Enabled(j, e)
    ensures var k := Apply(j, e); k.rates == j.rates && k.prompt == j.prompt && k.holdback == j.holdback
  {}

  /** Unpaid tokens are never forwarded: at any moment of any run of a prepaid job, everything the
      metered loop has sent costs no more than the bond held at that moment, or, when it has sent
      nothing that costs, than the prompt. The one exception is a count past the top of a `u64`. */
  lemma ForwardedTokensArePaid(jobs: seq<Job>, events: seq<Event>)
    requires Run(jobs, events)
    requires var j := jobs[|events|]; j.holdback && j.bond.Some? && (j.phase.Generating? || j.phase.Joining?)
                                      && j.prompt + j.metered <= MAX
    ensures var j := jobs[|events|];
            ChargeLlmMicros(j.rates, j.prompt, j.metered, 0) <= Max(j.bond.value, ChargeLlmMicros(j.rates, j.prompt, 0, 0))
  {
    RunsStayMetered(jobs, events);
    var j := jobs[|events|];
    if j.rates.output > 0 && j.metered > 0 {
      BudgetNeverOversells(j.rates, j.bond.value, j.prompt, j.metered);
    } else if j.metered > 0 {
      assert UnroundedCents(j.rates, j.prompt, j.metered, 0) == UnroundedCents(j.rates, j.prompt, 0, 0);
    }
  }

  /** The client is asked for more exactly when the piece in hand is past what the bond buys. */
  lemma AsksExactly(jobs: seq<Job>, events: seq<Event>)
    requires Run(jobs, events) && Enabled(jobs[|events|], TakePiece)
    requires var j := jobs[|events|]; j.prompt + j.metered + j.pieces[0].tokens <= MAX
    ensures var j := jobs[|events|]; var needed := j.prompt + j.metered + j.pieces[0].tokens;
            Apply(j, TakePiece).forwarder.Asking? <==>
              j.holdback && (match j.bond
                             case None => needed > 0
                             case Some(b) => AuthorizedTokens(j.rates, b, j.prompt) < MAX && needed > AuthorizedTokens(j.rates, b, j.prompt))
  {
    RunsStayMetered(jobs, events);
  }

  /** A job that is not prepaid never waits for its client, and one without a bond is forwarded nothing. */
  lemma FreeJobsNeverWait(jobs: seq<Job>, events: seq<Event>)
    requires Run(jobs, events)
    ensures var j := jobs[|events|];
            && (!j.holdback ==> !j.forwarder.Asking? && !j.forwarder.Asked?)
            && (j.holdback && j.bond.None? && (j.phase.Generating? || j.phase.Joining?) ==> j.metered == 0)
  {
    RunsStayMetered(jobs, events);
  }

  ghost function Grants(events: seq<Event>): nat {
    if events == [] then 0
    else Grants(events[..|events| - 1]) + if events[|events| - 1].Grant? then 1 else 0
  }

  /** How many questions to the client were answered, by a slice or not. */
  function Answers(events: seq<Event>): nat {
    if events == [] then 0
    else Answers(events[..|events| - 1]) + if events[|events| - 1].Grant? || events[|events| - 1].NoGrant? then 1 else 0
  }

  function Waits(j: Job): nat { if j.forwarder.Asked? then 1 else 0 }

  /** The client is asked for one slice at a time, and each question has one answer. */
  lemma {:induction false} EveryQuestionIsAnswered(jobs: seq<Job>, events: seq<Event>)
    requires Run(jobs, events)
    ensures Questions(events) == Answers(events) + Waits(jobs[|events|])
  {
    if events != [] {
      var n := |events| - 1;
      EveryQuestionIsAnswered(jobs[..|events|], events[..n]);
      RunsStayMetered(jobs[..|events|], events[..n]);
      StepAnswers(jobs[n], events[n], Questions(events[..n]), Answers(events[..n]));
    }
  }

  lemma StepAnswers(j: Job, e: Event, asked: nat, answered: nat)
    requires Enabled(j, e) && (j.forwarder.Asked? ==> j.phase.Generating?) && asked == answered + Waits(j)
    ensures asked + (if e.AskClient? then 1 else 0) == answered + (if e.Grant? || e.NoGrant? then 1 else 0) + Waits(Apply(j, e))
  {}

  /** What a client's ticket may grant is the worker's own check: it raises the bond, strictly. */
  lemma GrantRaisesTheBond(j: Job, e: Event)
    requires Enabled(j, e) && Apply(j, e).bond.Some?
    ensures j.bond.Some? && j.bond.value + (if e.Grant? then 1 else 0) <= Apply(j, e).bond.value
  {}

  /** Asking cannot go on for ever: each slice granted leaves one fewer of the 2^64 a bond can reach. */
  lemma {:induction false} GrantsRunOut(jobs: seq<Job>, events: seq<Event>)
    requires Run(jobs, events) && jobs[|events|].bond.Some?
    ensures jobs[0].bond.Some? && jobs[0].bond.value + Grants(events) <= jobs[|events|].bond.value <= MAX
  {
    if events != [] {
      var n := |events| - 1;
      GrantRaisesTheBond(jobs[n], events[n]);
      GrantsRunOut(jobs[..|events|], events[..n]);
    }
  }

  // ------------------------------------------------------ the answer as it is told

  /** The pieces a client is shown of these: an empty one is not sent. */
  function Shown(pieces: seq<Piece>): seq<Piece> {
    if pieces == [] then [] else (if pieces[0].empty then [] else [pieces[0]]) + Shown(pieces[1..])
  }

  lemma {:induction false} ShownOver(a: seq<Piece>, b: seq<Piece>)
    ensures Shown(a + b) == Shown(a) + Shown(b)
  {
    if a == [] {
      assert a + b == b;
    } else {
      assert (a + b)[1..] == a[1..] + b;
      ShownOver(a[1..], b);
    }
  }

  /** The pieces that were sent. */
  function Told(sent: seq<Message>): seq<Piece> {
    if sent == [] then [] else
    Told(sent[..|sent| - 1]) + match sent[|sent| - 1] case Delta(p) => [p] case _ => []
  }

  /** How often a message was sent. */
  function HowOften(sent: seq<Message>, m: Message): nat {
    if sent == [] then 0 else HowOften(sent[..|sent| - 1], m) + if sent[|sent| - 1] == m then 1 else 0
  }

  /** How often each message but the pieces was sent. */
  datatype Tally = Tally(runs: nat, asks: nat, results: nat, invoices: nat, failures: nat, dones: nat)

  function TallyOf(sent: seq<Message>): Tally {
    Tally(HowOften(sent, Running), HowOften(sent, TopUp), HowOften(sent, Result), HowOften(sent, Invoice),
          HowOften(sent, Failed), HowOften(sent, Done))
  }

  function Plus(t: Tally, m: Message): Tally {
    match m
    case Running => t.(runs := t.runs + 1)
    case TopUp => t.(asks := t.asks + 1)
    case Result => t.(results := t.results + 1)
    case Invoice => t.(invoices := t.invoices + 1)
    case Failed => t.(failures := t.failures + 1)
    case Done => t.(dones := t.dones + 1)
    case _ => t
  }

  /** The tally after a step, which sends one message at most. */
  function Counted(t: Tally, j: Job, e: Event): Tally
    requires Enabled(j, e)
  {
    var sent := Apply(j, e).sent;
    if |sent| > |j.sent| then Plus(t, sent[|sent| - 1]) else t
  }

  lemma StepSends(j: Job, e: Event)
    requires Enabled(j, e)
    ensures var sent := Apply(j, e).sent; sent == j.sent || sent == j.sent + [sent[|sent| - 1]]
  {}

  lemma StepCounts(j: Job, e: Event)
    requires Enabled(j, e)
    ensures TallyOf(Apply(j, e).sent) == Counted(TallyOf(j.sent), j, e)
  {
    StepSends(j, e);
    var sent := Apply(j, e).sent;
    if sent != j.sent { OneMoreMessage(j.sent, sent[|sent| - 1]); }
  }

  /** The pieces the backend emitted. */
  function Emitted(events: seq<Event>): seq<Piece> {
    if events == [] then [] else
    Emitted(events[..|events| - 1]) + Piecewise(events[|events| - 1])
  }

  /** How often the client was asked for a slice. */
  function Questions(events: seq<Event>): nat {
    if events == [] then 0 else Questions(events[..|events| - 1]) + if events[|events| - 1].AskClient? then 1 else 0
  }

  lemma OneMoreMessage(sent: seq<Message>, m: Message)
    ensures Told(sent + [m]) == Told(sent) + match m case Delta(p) => [p] case _ => []
    ensures TallyOf(sent + [m]) == Plus(TallyOf(sent), m)
  {
    assert (sent + [m])[..|sent|] == sent;
  }

  function InHand(f: Forwarder): seq<Piece> { if f.Asking? || f.Asked? then [f.held] else [] }

  /** What is still to be told. */
  function Ahead(f: Forwarder, pieces: seq<Piece>): seq<Piece> { Shown(InHand(f) + pieces) }

  lemma AheadOf(f: Forwarder, pieces: seq<Piece>)
    ensures Ahead(f, pieces) == if f.Asking? || f.Asked? then Shown([f.held]) + Shown(pieces) else Shown(pieces)
  {
    ShownOver(InHand(f), pieces);
  }

  lemma TellOne(sent: seq<Message>, p: Piece)
    ensures Told(if p.empty then sent else sent + [Delta(p)]) == Told(sent) + Shown([p])
  {
    OneMoreMessage(sent, Delta(p));
    assert Shown([p]) == if p.empty then [] else [p];
  }

  lemma Regroup(a: seq<Piece>, b: seq<Piece>, c: seq<Piece>)
    ensures a + (b + c) == a + b + c
  {}

  lemma ForwardTells(j: Job, p: Piece)
    ensures var k := Forward(j, p); k.pieces == j.pieces && Told(k.sent) + Ahead(k.forwarder, k.pieces) == Told(j.sent) + Shown([p] + j.pieces)
  {
    var k := Forward(j, p);
    TellOne(j.sent, p);
    AheadOf(k.forwarder, k.pieces);
    ShownOver([p], j.pieces);
    Regroup(Told(j.sent), Shown([p]), Shown(j.pieces));
  }

  lemma TakingTells(j: Job)
    requires Enabled(j, TakePiece)
    ensures var k := Apply(j, TakePiece); Told(k.sent) + Ahead(k.forwarder, k.pieces) == Told(j.sent) + Ahead(j.forwarder, j.pieces)
  {
    var p, rest := j.pieces[0], j.pieces[1..];
    AheadOf(j.forwarder, j.pieces);
    assert j.pieces == [p] + rest;
    ForwardTells(j.(pieces := rest, used := SatAdd(j.used, p.tokens)), p);
  }

  lemma GrantTells(j: Job, cumulative: u64, already: u64)
    requires Enabled(j, Grant(cumulative, already))
    ensures var k := Apply(j, Grant(cumulative, already));
            Told(k.sent) + Ahead(k.forwarder, k.pieces) == Told(j.sent) + Ahead(j.forwarder, j.pieces)
  {
    var k := j.(bond := Bonds.Slice(j.bond.value, cumulative, already));
    ForwardTells(k.(authorized := Budget(k)), j.forwarder.held);
  }

  lemma DrainTells(j: Job)
    requires Enabled(j, DrainPiece)
    ensures var k := Apply(j, DrainPiece); Told(k.sent) + Ahead(k.forwarder, k.pieces) == Told(j.sent) + Ahead(j.forwarder, j.pieces)
  {
    var p, rest := j.pieces[0], j.pieces[1..];
    AheadOf(j.forwarder, j.pieces);
    AheadOf(j.forwarder, rest);
    assert j.pieces == [p] + rest;
    TellOne(j.sent, p);
    ShownOver([p], rest);
    Regroup(Told(j.sent), Shown([p]), Shown(rest));
  }

  lemma OtherStepsTellNothing(j: Job, e: Event)
    requires Enabled(j, e) && !e.TakePiece? && !e.Grant? && !e.DrainPiece? && !e.EmitPiece?
    ensures var k := Apply(j, e);
            && Told(k.sent) == Told(j.sent) && (e.Start? || k.pieces == j.pieces) && (e.Start? ==> k.pieces == [])
            && (e.NoGrant? || e.Start? || InHand(k.forwarder) == InHand(j.forwarder)) && (e.Start? ==> InHand(k.forwarder) == [])
  {
    forall m: Message | !m.Delta? ensures Told(j.sent + [m]) == Told(j.sent) { OneMoreMessage(j.sent, m); }
  }

  /** What was told, what is in hand and what is queued make up what was emitted, unless a slice was
      refused; then what was told is the beginning of it, and nothing more is. */
  ghost predicate IsTold(j: Job, emitted: seq<Piece>, refused: bool) {
    && (if refused then j.forwarder.Gone? && Told(j.sent) <= Shown(emitted)
        else Told(j.sent) + Ahead(j.forwarder, j.pieces) == Shown(emitted))
    && TellsInTurn(j, refused)
    && (j.phase.Admitting? || j.phase.Waiting? ==> !refused && emitted == [])
  }

  /** Where the forwarder can be, phase by phase. */
  predicate TellsInTurn(j: Job, refused: bool) {
    && (!refused && j.forwarder.Gone? ==> j.pieces == [])
    && (!refused && j.phase.Generating? ==> !j.forwarder.Gone? && !j.forwarder.Draining?)
    && (!j.phase.Generating? && !j.phase.Joining? ==> j.forwarder.Gone?)
  }

  lemma StepsTellInTurn(j: Job, e: Event, refused: bool)
    requires TellsInTurn(j, refused) && Enabled(j, e) && (refused ==> j.forwarder.Gone? && !j.phase.Admitting? && !j.phase.Waiting?)
    ensures TellsInTurn(Apply(j, e), refused || e.NoGrant?) && (refused || e.NoGrant? ==> Apply(j, e).forwarder.Gone?)
  {}

  lemma EmitIsTold(j: Job, p: Piece, emitted: seq<Piece>, refused: bool)
    requires IsTold(j, emitted, refused) && Enabled(j, EmitPiece(p))
    ensures IsTold(Apply(j, EmitPiece(p)), emitted + [p], refused)
  {
    StepsTellInTurn(j, EmitPiece(p), refused);
    ShownOver(emitted, [p]);
    AheadGrows(Told(j.sent), j.forwarder, j.pieces, p);
  }

  lemma AheadGrows(told: seq<Piece>, f: Forwarder, pieces: seq<Piece>, p: Piece)
    ensures told + Ahead(f, pieces + [p]) == told + Ahead(f, pieces) + Shown([p])
  {
    Regroup(InHand(f), pieces, [p]);
    ShownOver(InHand(f) + pieces, [p]);
    Regroup(told, Ahead(f, pieces), Shown([p]));
  }

  lemma StepIsTold(j: Job, e: Event, emitted: seq<Piece>, refused: bool)
    requires IsTold(j, emitted, refused) && Enabled(j, e) && !e.EmitPiece?
    ensures IsTold(Apply(j, e), emitted, refused || e.NoGrant?)
  {
    StepsTellInTurn(j, e, refused);
    match e
    case TakePiece => TakingTells(j);
    case Grant(cumulative, already) => GrantTells(j, cumulative, already);
    case DrainPiece => DrainTells(j);
    case _ => OtherStepsTellNothing(j, e);
  }

  function Piecewise(e: Event): seq<Piece> { match e case EmitPiece(p) => [p] case _ => [] }

  lemma AnyStepIsTold(j: Job, e: Event, emitted: seq<Piece>, refused: bool)
    requires IsTold(j, emitted, refused) && Enabled(j, e)
    ensures IsTold(Apply(j, e), emitted + Piecewise(e), refused || e.NoGrant?)
  {
    if e.EmitPiece? {
      EmitIsTold(j, e.piece, emitted, refused);
    } else {
      assert emitted + [] == emitted;
      StepIsTold(j, e, emitted, refused);
    }
  }

  lemma FreshIsTold(j: Job)
    requires Fresh(j)
    ensures IsTold(j, [], false)
  {
    AheadOf(j.forwarder, j.pieces);
  }

  lemma {:induction false} RunsAreTold(jobs: seq<Job>, events: seq<Event>)
    requires Run(jobs, events)
    ensures IsTold(jobs[|events|], Emitted(events), NoGrant in events)
  {
    if events == [] {
      FreshIsTold(jobs[0]);
    } else {
      var n := |events| - 1;
      RunsAreTold(jobs[..|events|], events[..n]);
      AnyStepIsTold(jobs[n], events[n], Emitted(events[..n]), NoGrant in events[..n]);
      RefusedOnce(events);
    }
  }

  lemma RefusedOnce(events: seq<Event>)
    requires events != []
    ensures var n := |events| - 1; NoGrant in events <==> NoGrant in events[..n] || events[n].NoGrant?
  {
    assert events == events[..|events| - 1] + [events[|events| - 1]];
  }

  /** Under every schedule the client is told a beginning of the answer, piece by piece and in order, and
      no piece twice; all of it once the channels are drained. */
  lemma StreamIsTheAnswer(jobs: seq<Job>, events: seq<Event>)
    requires Run(jobs, events)
    ensures Told(jobs[|events|].sent) <= Shown(Emitted(events))
    ensures NoGrant !in events && (jobs[|events|].phase.Capturing? || jobs[|events|].phase.Ended?) ==>
              Told(jobs[|events|].sent) == Shown(Emitted(events))
  {
    RunsAreTold(jobs, events);
  }

  /** What is known of the fractions: all but the queued ones were told, once each, unless a slice was refused. */
  ghost predicate ProgressIsTold(j: Job, t: Tally, reported: nat, refused: bool) {
    && (if refused then t.runs <= reported else t.runs + j.progress == reported)
    && (!refused && j.forwarder.Gone? ==> j.progress == 0)
  }

  lemma StepAsks(j: Job, e: Event, t: Tally)
    requires Enabled(j, e)
    ensures Counted(t, j, e).asks == t.asks + if e.AskClient? then 1 else 0
  {}

  lemma StepTellsProgress(j: Job, e: Event, t: Tally, reported: nat, refused: bool)
    requires ProgressIsTold(j, t, reported, refused) && TellsInTurn(j, refused) && Enabled(j, e)
    requires refused ==> j.forwarder.Gone? && !j.phase.Admitting? && !j.phase.Waiting?
    ensures ProgressIsTold(Apply(j, e), Counted(t, j, e), reported + (if e.Start? || e.EmitProgress? then 1 else 0), refused || e.NoGrant?)
  {}

  lemma {:induction false} RunsTellProgress(jobs: seq<Job>, events: seq<Event>)
    requires Run(jobs, events)
    ensures ProgressIsTold(jobs[|events|], TallyOf(jobs[|events|].sent), Reports(events), NoGrant in events)
    ensures TallyOf(jobs[|events|].sent).asks == Questions(events)
  {
    if events != [] {
      var n := |events| - 1;
      RunsTellProgress(jobs[..|events|], events[..n]);
      RunsAreTold(jobs[..|events|], events[..n]);
      StepTellsProgress(jobs[n], events[n], TallyOf(jobs[n].sent), Reports(events[..n]), NoGrant in events[..n]);
      StepAsks(jobs[n], events[n], TallyOf(jobs[n].sent));
      RefusedOnce(events);
      StepCounts(jobs[n], events[n]);
    }
  }

  /** How often there is something to report: the start, and each fraction. */
  function Reports(events: seq<Event>): nat {
    if events == [] then 0 else
    Reports(events[..|events| - 1]) + if events[|events| - 1].Start? || events[|events| - 1].EmitProgress? then 1 else 0
  }

  /** The client is told that the job runs, and then of each fraction of its progress, once, unless a
      slice is refused; and it is asked for a slice as often as the runner asks. */
  lemma ProgressIsToldOnce(jobs: seq<Job>, events: seq<Event>)
    requires Run(jobs, events)
    ensures HowOften(jobs[|events|].sent, Running) <= Reports(events)
    ensures NoGrant !in events && (jobs[|events|].phase.Capturing? || jobs[|events|].phase.Ended?) ==>
              HowOften(jobs[|events|].sent, Running) == Reports(events)
    ensures HowOften(jobs[|events|].sent, TopUp) == Questions(events)
  {
    RunsTellProgress(jobs, events);
    RunsAreTold(jobs, events);
  }

  // ------------------------------------------------------------- how a job ends

  /** How the runs of a job ended. */
  function Endings(events: seq<Event>): seq<Outcome> {
    if events == [] then [] else Endings(events[..|events| - 1]) + EndingOf(events[|events| - 1])
  }

  function EndingOf(e: Event): seq<Outcome> { match e case EndRun(outcome) => [outcome] case _ => [] }

  /** Refused, stopped in the queue, or shut down: turned away before it ran. */
  predicate TurnsAway(e: Event) { e.Refuse? || e.StopQueued? || e.ShutDown? }

  ghost predicate TurnedAway(events: seq<Event>) { exists i :: 0 <= i < |events| && TurnsAway(events[i]) }

  /** How often the last messages are sent, phase by phase, after how the job went. */
  ghost predicate Story(j: Job, t: Tally, away: bool, endings: seq<Outcome>) {
    match j.phase
    case Joining(outcome) => !away && endings == [outcome] && t.results == t.invoices == t.failures == t.dones == 0
    case Capturing(amount) => !away && endings == [Finished(amount)] && t.results == 1 && t.failures == t.dones == 0
    case Ended =>
      var finished := |endings| == 1 && endings[0].Finished?;
      && away == (endings == []) && |endings| <= 1
      && (if finished then t.results == t.dones == 1 && t.failures == 0
          else t.results == t.invoices == t.dones == 0 && t.failures == 1)
    case _ => !away && endings == [] && t.results == t.invoices == t.failures == t.dones == 0
  }

  lemma StepKeepsStory(j: Job, e: Event, t: Tally, away: bool, endings: seq<Outcome>)
    requires Story(j, t, away, endings) && Enabled(j, e)
    requires !j.phase.Generating? && !j.phase.Joining? ==> j.forwarder.Gone?
    ensures Story(Apply(j, e), Counted(t, j, e), away || TurnsAway(e), endings + EndingOf(e))
  {
    assert endings + [] == endings && [] + EndingOf(e) == EndingOf(e);
  }

  lemma {:induction false} RunsKeepStory(jobs: seq<Job>, events: seq<Event>)
    requires Run(jobs, events)
    ensures Story(jobs[|events|], TallyOf(jobs[|events|].sent), TurnedAway(events), Endings(events))
  {
    if events != [] {
      var n := |events| - 1;
      RunsKeepStory(jobs[..|events|], events[..n]);
      RunsAreTold(jobs[..|events|], events[..n]);
      StepKeepsStory(jobs[n], events[n], TallyOf(jobs[n].sent), TurnedAway(events[..n]), Endings(events[..n]));
      StepCounts(jobs[n], events[n]);
      AwayOnce(events);
    }
  }

  lemma AwayOnce(events: seq<Event>)
    requires events != []
    ensures var n := |events| - 1; TurnedAway(events) <==> TurnedAway(events[..n]) || TurnsAway(events[n])
  {
    var n := |events| - 1;
    assert forall i | 0 <= i < n :: events[..n][i] == events[i];
  }

  lemma {:induction false} SentIsCounted(sent: seq<Message>, m: Message)
    ensures m in sent <==> HowOften(sent, m) > 0
  {
    if sent != [] {
      SentIsCounted(sent[..|sent| - 1], m);
      assert sent == sent[..|sent| - 1] + [sent[|sent| - 1]];
    }
  }

  lemma {:induction false} EndingsAreEvents(events: seq<Event>)
    ensures forall o :: EndRun(o) in events <==> o in Endings(events)
  {
    if events != [] {
      EndingsAreEvents(events[..|events| - 1]);
      assert events == events[..|events| - 1] + [events[|events| - 1]];
    }
  }

  /** Over every run that is over: a result is delivered, and the job said to be done, exactly when its run
      finished; it is said to have failed exactly when it was turned away, broke or was stopped. */
  lemma EndsAsItWent(jobs: seq<Job>, events: seq<Event>)
    requires Run(jobs, events) && jobs[|events|].phase.Ended?
    ensures var sent := jobs[|events|].sent;
            && (Result in sent <==> exists amount :: EndRun(Finished(amount)) in events)
            && (Done in sent <==> Result in sent)
            && (Failed in sent <==> TurnedAway(events) || EndRun(Broke) in events || EndRun(Stopped) in events)
            && (Failed in sent <==> Done !in sent)
            && (Invoice in sent ==> Result in sent)
  {
    var sent := jobs[|events|].sent;
    RunsKeepStory(jobs, events);
    EndingsAreEvents(events);
    SentIsCounted(sent, Result);
    SentIsCounted(sent, Done);
    SentIsCounted(sent, Failed);
    SentIsCounted(sent, Invoice);
    var endings := Endings(events);
    if endings != [] { assert endings == [endings[0]] && endings[0] in endings; }
  }

  /** From the end of a run that finished: what was owed then is what is invoiced. */
  ghost predicate Owes(j: Job, invoices: nat, amount: u64, bond: Option<u64>, holdback: bool) {
    var owed := holdback && amount > 0 && bond.Some?;
    && j.holdback == holdback
    && match j.phase
       case Joining(outcome) => outcome == Finished(amount) && j.bond == bond && invoices == 0 && !j.forwarder.Asked?
       case Capturing(a) => a == amount && j.forwarder.Gone?
                            && ((j.bond == bond && invoices == 0) || (j.bond.None? && invoices == 1 && owed))
       case Ended => invoices == (if owed then 1 else 0) && j.forwarder.Gone?
       case _ => false
  }

  lemma StepKeepsOwing(j: Job, e: Event, t: Tally, amount: u64, bond: Option<u64>, holdback: bool)
    requires Owes(j, t.invoices, amount, bond, holdback) && Enabled(j, e)
    ensures Owes(Apply(j, e), Counted(t, j, e).invoices, amount, bond, holdback)
  {}

  /** An invoice is sent exactly when the run that finished came to something and a bond was held. */
  lemma {:induction false} InvoicedExactly(jobs: seq<Job>, events: seq<Event>, i: nat, amount: u64)
    requires Run(jobs, events) && i < |events| && events[i] == EndRun(Finished(amount))
    ensures Owes(jobs[|events|], HowOften(jobs[|events|].sent, Invoice), amount, jobs[i].bond, jobs[i].holdback)
    ensures jobs[|events|].phase.Ended? ==>
              (Invoice in jobs[|events|].sent <==> jobs[i].holdback && amount > 0 && jobs[i].bond.Some?)
  {
    var n := |events| - 1;
    SentIsCounted(jobs[|events|].sent, Invoice);
    if n == i {
      RunsKeepStory(jobs[..|events|], events[..n]);
    } else {
      InvoicedExactly(jobs[..|events|], events[..n], i, amount);
      StepKeepsOwing(jobs[n], events[n], TallyOf(jobs[n].sent), amount, jobs[i].bond, jobs[i].holdback);
      StepCounts(jobs[n], events[n]);
    }
  }

  // --------------------------------------------------------------- the drain

  function Backlog(pieces: seq<Piece>): nat { if pieces == [] then 0 else pieces[0].tokens + Backlog(pieces[1..]) }

  lemma {:induction false} BacklogOver(a: seq<Piece>, b: seq<Piece>)
    ensures Backlog(a + b) == Backlog(a) + Backlog(b)
  {
    if a == [] {
      assert a + b == b;
    } else {
      assert (a + b)[1..] == a[1..] + b;
      BacklogOver(a[1..], b);
    }
  }

  predicate Weighs(p: Piece) { p.empty <==> p.tokens == 0 }

  predicate AllWeigh(f: Forwarder, pieces: seq<Piece>) {
    && (f.Asking? || f.Asked? ==> Weighs(f.held))
    && forall i | 0 <= i < |pieces| :: Weighs(pieces[i])
  }

  /** What the counters say was sent is what was sent. */
  predicate CountsOut(j: Job) { Backlog(Told(j.sent)) == j.metered + j.drained }

  ghost predicate Weighed(j: Job) {
    && AllWeigh(j.forwarder, j.pieces) && CountsOut(j)
    && (j.phase.Admitting? || j.phase.Waiting? ==> j.metered == j.drained == 0 && j.forwarder.Gone?)
  }

  lemma TellWeighs(sent: seq<Message>, p: Piece)
    requires Weighs(p)
    ensures Backlog(Told(if p.empty then sent else sent + [Delta(p)])) == Backlog(Told(sent)) + p.tokens
  {
    TellOne(sent, p);
    BacklogOver(Told(sent), Shown([p]));
    assert Shown([p]) == if p.empty then [] else [p];
    assert [p][1..] == [];
  }

  lemma ForwardCounts(j: Job, p: Piece)
    requires Weighs(p) && CountsOut(j)
    ensures CountsOut(Forward(j, p))
  {
    TellWeighs(j.sent, p);
  }

  lemma StepCountsOut(j: Job, e: Event)
    requires Weighed(j) && Enabled(j, e)
    ensures CountsOut(Apply(j, e))
  {
    match e
    case TakePiece => ForwardCounts(j.(pieces := j.pieces[1..], used := SatAdd(j.used, j.pieces[0].tokens)), j.pieces[0]);
    case Grant(cumulative, already) =>
      var k := j.(bond := Bonds.Slice(j.bond.value, cumulative, already));
      ForwardCounts(k.(authorized := Budget(k)), j.forwarder.held);
    case DrainPiece => TellWeighs(j.sent, j.pieces[0]);
    case EmitPiece(_) =>
    case _ => OtherStepsTellNothing(j, e);
  }

  lemma StepWeighs(j: Job, e: Event)
    requires Weighed(j) && Enabled(j, e)
    ensures Weighed(Apply(j, e))
  {
    StepCountsOut(j, e);
    StepKeepsWeights(j, e);
  }

  lemma StepKeepsWeights(j: Job, e: Event)
    requires AllWeigh(j.forwarder, j.pieces) && Enabled(j, e)
    ensures AllWeigh(Apply(j, e).forwarder, Apply(j, e).pieces)
  {}

  /** The tokens told are those the metered loop forwarded and those of the last drain. */
  lemma {:induction false} ToldIsCounted(jobs: seq<Job>, events: seq<Event>)
    requires Run(jobs, events)
    ensures Weighed(jobs[|events|])
  {
    if events != [] {
      var n := |events| - 1;
      ToldIsCounted(jobs[..|events|], events[..n]);
      StepWeighs(jobs[n], events[n]);
    }
  }

  /** Before the channels close nothing was drained; after, nothing is generated. */
  ghost predicate DrainsLast(j: Job) {
    && (j.forwarder.Metering? || j.forwarder.Asking? || j.forwarder.Asked? ==> j.drained == 0)
    && (j.phase.Admitting? || j.phase.Waiting? ==> j.forwarder.Gone?)
    && (j.forwarder.Draining? ==> j.phase.Joining?)
    && (j.forwarder.Asked? ==> j.phase.Generating?)
  }

  lemma {:induction false} RunsDrainLast(jobs: seq<Job>, events: seq<Event>)
    requires Run(jobs, events)
    ensures DrainsLast(jobs[|events|])
  {
    if events != [] {
      var n := |events| - 1;
      RunsDrainLast(jobs[..|events|], events[..n]);
      StepDrainsLast(jobs[n], events[n]);
    }
  }

  lemma StepDrainsLast(j: Job, e: Event)
    requires DrainsLast(j) && Enabled(j, e)
    ensures DrainsLast(Apply(j, e))
  {}

  /** The forwarder has left its metered loop. */
  predicate Closed(j: Job) {
    && (j.phase.Joining? || j.phase.Capturing? || j.phase.Ended?)
    && (j.forwarder.Draining? || (j.forwarder.Gone? && j.pieces == []))
  }

  lemma ClosedStep(j: Job, e: Event)
    requires Closed(j) && Enabled(j, e)
    ensures var k := Apply(j, e);
            && Closed(k) && k.metered == j.metered && k.prompt == j.prompt && k.rates == j.rates
            && k.drained + Backlog(k.pieces) == j.drained + Backlog(j.pieces)
  {}

  /** The last drain sends, unmetered, exactly what was queued when the channels closed. */
  lemma {:induction false} DrainSendsTheQueue(jobs: seq<Job>, events: seq<Event>, i: nat)
    requires Run(jobs, events) && i < |events| && events[i].ChannelClosed?
    ensures var j, k := jobs[i], jobs[|events|];
            && Closed(k) && k.metered == j.metered && k.prompt == j.prompt && k.rates == j.rates
            && k.drained + Backlog(k.pieces) == Backlog(j.pieces)
  {
    var n := |events| - 1;
    if n == i {
      RunsDrainLast(jobs[..|events|], events[..n]);
    } else {
      DrainSendsTheQueue(jobs[..|events|], events[..n], i);
      ClosedStep(jobs[n], events[n]);
    }
  }

  /** From the closing on: pieces only, or fractions only. */
  ghost predicate OneSided(j: Job, told: seq<Piece>, runs: nat) {
    || (j.progress == 0 && HowOften(j.sent, Running) == runs)
    || (j.pieces == [] && Told(j.sent) == told)
  }

  lemma StepStaysOneSided(j: Job, e: Event, told: seq<Piece>, runs: nat)
    requires Closed(j) && OneSided(j, told, runs) && Enabled(j, e)
    ensures OneSided(Apply(j, e), told, runs)
  {
    if e.DrainPiece? {
      StepCounts(j, e);
    } else {
      OtherStepsTellNothing(j, e);
      StepCounts(j, e);
    }
  }

  /** The last drain sends what was left of one queue: the loop has emptied the other. */
  lemma {:induction false} DrainIsOneSided(jobs: seq<Job>, events: seq<Event>, i: nat)
    requires Run(jobs, events) && i < |events| && events[i].ChannelClosed?
    ensures OneSided(jobs[|events|], Told(jobs[i].sent), HowOften(jobs[i].sent, Running))
  {
    var n := |events| - 1;
    if n > i {
      DrainSendsTheQueue(jobs[..|events|], events[..n], i);
      DrainIsOneSided(jobs[..|events|], events[..n], i);
      StepStaysOneSided(jobs[n], events[n], Told(jobs[i].sent), HowOften(jobs[i].sent, Running));
    }
  }

  /** So an answer that is all delivered was paid for in advance exactly when its queue at the closing
      was: when the forwarder is gone, what was sent costs no more than some budget if and only if what
      had been forwarded and what was queued then do. */
  lemma DeliveredIsPaidExactly(jobs: seq<Job>, events: seq<Event>, i: nat, budget: nat)
    requires Run(jobs, events) && i < |events| && events[i].ChannelClosed? && jobs[|events|].forwarder.Gone?
    requires jobs[i].metered + Backlog(jobs[i].pieces) <= MAX
    ensures var j, k := jobs[i], jobs[|events|];
            && k.metered + k.drained == j.metered + Backlog(j.pieces)
            && (ChargeLlmMicros(k.rates, k.prompt, k.metered + k.drained, 0) <= budget
                <==> ChargeLlmMicros(j.rates, j.prompt, j.metered + Backlog(j.pieces), 0) <= budget)
    ensures var j, k := jobs[i], jobs[|events|];
            j.prompt + j.metered + Backlog(j.pieces) <= j.authorized <==> k.prompt + k.metered + k.drained <= j.authorized
  {
    DrainSendsTheQueue(jobs, events, i);
  }

  lemma RunGoesOn(jobs: seq<Job>, events: seq<Event>, e: Event) returns (jobs': seq<Job>, events': seq<Event>)
    requires Run(jobs, events) && Enabled(jobs[|events|], e)
    ensures Run(jobs', events') && jobs'[|events'|] == Apply(jobs[|events|], e)
  {
    jobs', events' := jobs + [Apply(jobs[|events|], e)], events + [e];
  }

  const MICRO_A_TOKEN: Rates := Rates(0, 100, 0, 0)

  lemma MicroATokenCosts(tokens: u64)
    ensures ChargeLlmMicros(MICRO_A_TOKEN, 0, tokens, 0) == tokens
  {
    var r := MICRO_A_TOKEN;
    assert r.output == 100 && Times(tokens, r.output) == tokens * 100;
    assert UnroundedCents(r, 0, tokens, 0) == tokens * 100;
  }

  lemma MicroATokenBuys(micros: u64)
    ensures AuthorizedTokens(MICRO_A_TOKEN, micros, 0) == micros
  {
    MicroATokenCosts(0);
    assert SatSub(micros, 0) * 100 / MICRO_A_TOKEN.output == micros;
  }

  /** A job at a micro a token that holds a bond of ten, its runner at work. */
  predicate Bursting(j: Job) {
    && j.phase.Generating? && j.forwarder.Metering? && j.used == 0 && j.progress == 0 && j.authorized == 10
    && j.bond == Some(10) && j.rates == MICRO_A_TOKEN && j.prompt == 0 && j.metered == j.drained == 0 && j.holdback
  }

  /** Its backend emits fifty tokens at once. */
  lemma BurstRun() returns (jobs: seq<Job>, events: seq<Event>)
    ensures Run(jobs, events) && Bursting(jobs[|events|]) && jobs[|events|].pieces == [Piece(50, false)]
  {
    var first := Job(MICRO_A_TOKEN, 0, true, Some(10), Admitting, Gone, 0, 0, 0, [], [], 0, 0);
    MicroATokenBuys(10);
    jobs, events := [first], [];
    jobs, events := RunGoesOn(jobs, events, Enqueue);
    jobs, events := RunGoesOn(jobs, events, Start);
    assert Bursting(jobs[|events|]);
    jobs, events := RunGoesOn(jobs, events, EmitPiece(Piece(50, false)));
  }

  ghost predicate DeliversUnpaid(jobs: seq<Job>, events: seq<Event>) {
    && Run(jobs, events)
    && var j := jobs[|events|];
       && j.holdback && j.bond.Some? && j.metered + j.drained <= MAX && Delta(Piece(50, false)) in j.sent
       && ChargeLlmMicros(j.rates, j.prompt, j.metered + j.drained, 0) > Max(j.bond.value, ChargeLlmMicros(j.rates, j.prompt, 0, 0))
  }

  /** Unpaid tokens are forwarded, too: a burst still queued when its run ends goes out whole. */
  lemma DrainForwardsUnpaidTokens()
    ensures exists jobs: seq<Job>, events: seq<Event> :: DeliversUnpaid(jobs, events)
  {
    var jobs, events := BurstRun();
    jobs, events := RunGoesOn(jobs, events, EndRun(Finished(10)));
    jobs, events := RunGoesOn(jobs, events, ChannelClosed);
    var sent := jobs[|events|].sent;
    jobs, events := RunGoesOn(jobs, events, DrainPiece);
    ABurstDrained(jobs[|events|], sent, Piece(50, false), jobs[|events|].drained);
    MicroATokenCosts(0);
    assert DeliversUnpaid(jobs, events);
  }

  lemma ABurstDrained(j: Job, sent: seq<Message>, p: Piece, tokens: u64)
    requires j.rates == MICRO_A_TOKEN && j.prompt == 0 && j.metered == 0 && j.drained == tokens && j.sent == sent + [Delta(p)]
    ensures ChargeLlmMicros(j.rates, j.prompt, j.metered + j.drained, 0) == tokens
    ensures Delta(p) in j.sent
  {
    MicroATokenCosts(tokens);
    assert j.sent[|sent|] == Delta(p);
  }

  // -------------------------------------------------------------- the standstill

  /** A job that has not ended can take no step at all exactly when its run is over while the forwarder
      is still asking for budget: nobody is left to answer, and the job and its place are held. */
  lemma StuckExactly(j: Job)
    requires Shape(j) && !j.phase.Ended?
    ensures (forall e: Event :: !Enabled(j, e)) <==> j.phase.Joining? && j.forwarder.Asking?
  {
    if !(j.phase.Joining? && j.forwarder.Asking?) {
      var e := match j.phase
               case Admitting => Refuse
               case Waiting => Start
               case Generating => EmitProgress
               case Joining(_) => if j.forwarder.Gone? then Join
                                  else if j.forwarder.Draining? then
                                    (if j.progress > 0 then DrainProgress else if j.pieces != [] then DrainPiece else DrainedDry)
                                  else if j.progress > 0 then ForwardProgress else ChannelClosed
               case Capturing(_) => if j.holdback && j.phase.amount > 0 && j.bond.Some? then SendInvoice else Finish
               case Ended => Finish;
      assert Enabled(j, e);
    }
  }

  ghost predicate Stuck(jobs: seq<Job>, events: seq<Event>) {
    Run(jobs, events) && !jobs[|events|].phase.Ended? && forall e: Event :: !Enabled(jobs[|events|], e)
  }

  /** And a run gets there: the same burst, taken up just before the run ends. */
  lemma AJobCanHang()
    ensures exists jobs: seq<Job>, events: seq<Event> :: Stuck(jobs, events)
  {
    var jobs, events := BurstRun();
    jobs, events := RunGoesOn(jobs, events, TakePiece);
    jobs, events := RunGoesOn(jobs, events, EndRun(Finished(10)));
    RunsKeepShape(jobs, events);
    StuckExactly(jobs[|events|]);
    assert Stuck(jobs, events);
  }
}
