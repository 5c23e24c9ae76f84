/** What a job costs: the price table, the token counts it is applied to, and the budget a bond buys.

    Every rate the source multiplies by has been through `CeilCents`, so a rate is a whole number of
    cents per million tokens, and a charge of t tokens at c cents is exactly t * c / 100 micros. */
module Pricing {
  import opened U64
  import opened Wrappers

  const TOKEN_CHUNK: u64 := 1_000_000
  const U32_MAX: int := 0xFFFF_FFFF
  const TOLERANCE: real := 0.000001

  // ------------------------------------------------------------------ rates

  /** A price as an operator writes it, in USD. */
  datatype Price = Price(amount: real, input: Option<real>, output: Option<real>,
                         cache: Option<real>, cacheWrite: Option<real>)

  /** The rates a bill is computed from, in cents per million tokens. */
  datatype Rates = Rates(input: nat, output: nat, cache: nat, cacheWrite: nat)

  /** Cents, rounded up, except that a hair above a whole cent (or below) is that cent. */
  function CeilCents(x: real): nat {
    if x <= 0.0 then 0 else
    var scaled := x * 100.0;
    var nearest := (scaled + 0.5).Floor;
    var off := scaled - nearest as real;
    if -TOLERANCE < off < TOLERANCE then nearest else
    if scaled.Floor as real == scaled then scaled.Floor else scaled.Floor + 1
  }

  predicate IsFree(p: Price) {
    p.amount <= 0.0 && p.input.GetOr(0.0) <= 0.0 && p.output.GetOr(0.0) <= 0.0
  }

  function Usd(cents: nat): real { cents as real / 100.0 }

  function RoundedUsd(x: Option<real>): Option<real> {
    match x
    case None => None
    case Some(v) => Some(Usd(CeilCents(v)))
  }

  function LlmRates(p: Price): Rates {
    var input := CeilCents(p.input.GetOr(p.amount));
    var output := CeilCents(p.output.GetOr(p.amount));
    var cache := if p.cache.Some? then CeilCents(p.cache.value) else input;
    var cacheWrite := if p.cacheWrite.Some? then CeilCents(p.cacheWrite.value) else input;
    Rates(input, output, cache, Max(cacheWrite, input))
  }

  function MaxRate(r: Rates): nat { Max(Max(r.input, r.output), r.cacheWrite) }

  /** Uncached prompt is billed at the dearer of reading and writing the cache. */
  function Fresh(r: Rates): nat { Max(r.input, r.cacheWrite) }

  function RoundProtocol(p: Price): Price {
    var rounded := Price(Usd(CeilCents(p.amount)), RoundedUsd(p.input), RoundedUsd(p.output),
                         RoundedUsd(p.cache), RoundedUsd(p.cacheWrite));
    var top := Usd(MaxRate(LlmRates(rounded)));
    if top > rounded.amount then rounded.(amount := top) else rounded
  }

  /** A flat price fills in for a missing prompt or answer rate, the prompt rate for a missing cache rate;
      writing the cache is never cheaper than reading the prompt. */
  lemma RatesFillIn(p: Price)
    ensures var r := LlmRates(p);
            && r.input == CeilCents(match p.input case Some(x) => x case None => p.amount)
            && r.output == CeilCents(match p.output case Some(x) => x case None => p.amount)
            && (p.cache.None? ==> r.cache == r.input) && (p.cacheWrite.None? ==> r.cacheWrite == r.input)
            && (p.cache.Some? ==> r.cache == CeilCents(p.cache.value))
            && (p.cacheWrite.Some? ==> r.cacheWrite >= r.input && r.cacheWrite >= CeilCents(p.cacheWrite.value)
                                       && r.cacheWrite in {r.input, CeilCents(p.cacheWrite.value)})
  {}

  lemma CeilCentsOfCents(c: nat)
    ensures CeilCents(Usd(c)) == c
  {
    if c > 0 {
      var scaled := Usd(c) * 100.0;
      assert scaled == c as real;
      assert (scaled + 0.5).Floor == c;
    }
  }

  /** A rounded rate is never below the price asked by a millionth of a cent or more, never a
      cent above it, and it is below it at all exactly when the price is a hair above a whole cent. */
  lemma CeilCentsBounds(x: real)
    requires x > 0.0
    ensures x * 100.0 - TOLERANCE < CeilCents(x) as real < x * 100.0 + 1.0
    ensures CeilCents(x) as real >= x * 100.0 <==>
            var over := x * 100.0 - (x * 100.0).Floor as real; over == 0.0 || over >= TOLERANCE
  {
    var scaled := x * 100.0;
    var whole := scaled.Floor;
    var nearest := (scaled + 0.5).Floor;
    assert nearest == whole || nearest == whole + 1;
  }

  lemma RoundedKeepsCents(p: Price)
    ensures var q := RoundProtocol(p);
            && CeilCents(q.amount) == Max(CeilCents(p.amount), MaxRate(LlmRates(p)))
            && q.input == RoundedUsd(p.input) && q.output == RoundedUsd(p.output)
            && q.cache == RoundedUsd(p.cache) && q.cacheWrite == RoundedUsd(p.cacheWrite)
            && q.amount == Usd(CeilCents(q.amount))
  {
    var rounded := Price(Usd(CeilCents(p.amount)), RoundedUsd(p.input), RoundedUsd(p.output),
                         RoundedUsd(p.cache), RoundedUsd(p.cacheWrite));
    CeilCentsOfCents(CeilCents(p.amount));
    forall v: real { CeilCentsOfCents(CeilCents(v)); }
    assert LlmRates(rounded) == LlmRates(p);
    CeilCentsOfCents(MaxRate(LlmRates(p)));
  }

  /** Rounding a price table twice is rounding it once. */
  lemma RoundProtocolIdempotent(p: Price)
    ensures RoundProtocol(RoundProtocol(p)) == RoundProtocol(p)
  {
    var q := RoundProtocol(p);
    RoundedKeepsCents(p);
    RoundedKeepsCents(q);
    forall v: real { CeilCentsOfCents(CeilCents(v)); }
    assert MaxRate(LlmRates(q)) <= CeilCents(q.amount);
  }

  /** No rate that is billed falls by rounding, and a component that was left out rises to the
      dearest rate: the two tables bill alike exactly when that changes nothing. */
  lemma RoundProtocolLowersNoBilledRate(p: Price)
    ensures var r, q := LlmRates(p), LlmRates(RoundProtocol(p));
            && r.input <= q.input && r.output <= q.output && r.cache <= q.cache && r.cacheWrite <= q.cacheWrite
            && (r == q <==> (p.input.Some? || r.input >= MaxRate(r)) && (p.output.Some? || r.output >= MaxRate(r)))
  {
    var q := RoundProtocol(p);
    RoundedKeepsCents(p);
    forall v: real { CeilCentsOfCents(CeilCents(v)); }
  }

  // ---------------------------------------------------------------- charges

  function UnroundedCents(r: Rates, prompt: u64, completion: u64, cached: u64): nat {
    var hit: nat := Min(cached, prompt);
    Times(prompt - hit, Fresh(r)) + Times(hit, r.cache) + Times(completion, r.output)
  }

  function Times(tokens: nat, rate: nat): nat { tokens * rate }

  /** Micros, from hundredths of micros: the nearest one, halves up. */
  function Nearest(hundredths: nat): nat { (hundredths + 50) / 100 }

  /** The nearest micro is at most half a micro off, and half a micro is rounded up. */
  lemma NearestIsNear(hundredths: nat)
    ensures 100 * Nearest(hundredths) - 50 <= hundredths < 100 * Nearest(hundredths) + 50
  {}

  function ChargeLlmMicros(r: Rates, prompt: u64, completion: u64, cached: u64): u64 {
    Clip(Nearest(UnroundedCents(r, prompt, completion, cached)))
  }

  /** Each token is charged once: a cached one, of which there are no more than the prompt has, at the cache
      rate, any other of the prompt at the dearer of reading and writing it, and the answer's at theirs. */
  lemma EachTokenOnce(r: Rates, prompt: u64, completion: u64, cached: u64)
    ensures cached <= prompt ==>
              UnroundedCents(r, prompt, completion, cached)
              == (prompt - cached) * Max(r.input, r.cacheWrite) + cached * r.cache + completion * r.output
    ensures cached > prompt ==> UnroundedCents(r, prompt, completion, cached) == prompt * r.cache + completion * r.output
    ensures 100 * ChargeLlmMicros(r, prompt, completion, cached) <= UnroundedCents(r, prompt, completion, cached) + 50
  {
    assert cached > prompt ==> Times(prompt - prompt, Fresh(r)) == 0;
  }

  /** A million tokens at one rate. */
  function MicrosAt(cents: nat): u64 { Clip(Max(Nearest(TOKEN_CHUNK * cents), 1)) }

  function ChunkMicros(r: Rates): u64 { MicrosAt(MaxRate(r)) }

  /** A million tokens at c cents are ten thousand micros a cent, and never nothing. */
  lemma MillionCosts(cents: nat)
    ensures MicrosAt(cents) == if cents == 0 then 1 else Min(10_000 * cents, MAX)
  {}

  /** Tokens in total, prompt included, that `micros` pays for. */
  function AuthorizedTokens(r: Rates, micros: u64, prompt: u64): u64 {
    if r.output == 0 then MAX else
    var left := SatSub(micros, ChargeLlmMicros(r, prompt, 0, 0));
    SatAdd(prompt, Clip(left * 100 / r.output))
  }

  lemma MulMono(a: nat, b: nat, c: nat)
    requires a <= b
    ensures a * c <= b * c
  {}

  lemma DivBounds(n: nat, d: nat)
    requires d > 0
    ensures (n / d) * d <= n < (n / d + 1) * d
  {}

  lemma DivMono(n: nat, m: nat, d: nat)
    requires n <= m && d > 0
    ensures n / d <= m / d
  {
    DivBounds(n, d);
    DivBounds(m, d);
    if n / d > m / d {
      MulMono(m / d + 1, n / d, d);
    }
  }

  /** No count that grows, with the others kept, makes a bill smaller. */
  lemma ChargeMonotone(r: Rates, p1: u64, c1: u64, h1: u64, p2: u64, c2: u64, h2: u64)
    requires c1 <= c2
    requires p1 - Min(h1, p1) <= p2 - Min(h2, p2) && Min(h1, p1) <= Min(h2, p2)
    ensures ChargeLlmMicros(r, p1, c1, h1) <= ChargeLlmMicros(r, p2, c2, h2)
  {
    MulMono(p1 - Min(h1, p1), p2 - Min(h2, p2), Fresh(r));
    MulMono(Min(h1, p1), Min(h2, p2), r.cache);
    MulMono(c1, c2, r.output);
  }

  lemma AuthorizedMonotone(r: Rates, m1: u64, m2: u64, prompt: u64)
    requires m1 <= m2
    ensures AuthorizedTokens(r, m1, prompt) <= AuthorizedTokens(r, m2, prompt)
  {
    if r.output > 0 {
      var paid := ChargeLlmMicros(r, prompt, 0, 0);
      var l1, l2 := SatSub(m1, paid) * 100, SatSub(m2, paid) * 100;
      DivMono(l1, l2, r.output);
    }
  }

  /** A budget never oversells: any answer within the tokens a budget authorises costs no more than
      the budget, or, when the prompt alone is over it, no more than the prompt. */
  lemma BudgetNeverOversells(r: Rates, micros: u64, prompt: u64, completion: u64)
    ensures r.output > 0 && prompt + completion <= AuthorizedTokens(r, micros, prompt) ==>
              ChargeLlmMicros(r, prompt, completion, 0) <= Max(micros, ChargeLlmMicros(r, prompt, 0, 0))
  {
    if r.output > 0 && prompt + completion <= AuthorizedTokens(r, micros, prompt) {
      var p := prompt * Fresh(r);
      var paid := ChargeLlmMicros(r, prompt, 0, 0);
      assert UnroundedCents(r, prompt, 0, 0) == p;
      var left := SatSub(micros, paid);
      DivBounds(left * 100, r.output);
      MulMono(completion, left * 100 / r.output, r.output);
      assert completion * r.output <= left * 100;
      assert UnroundedCents(r, prompt, completion, 0) == p + completion * r.output;
    }
  }

  /** Where answers cost nothing, any budget is enough for any answer. */
  lemma FreeAnswersAreNotMetered(r: Rates, micros: u64, prompt: u64, completion: u64)
    ensures r.output == 0 ==>
              AuthorizedTokens(r, micros, prompt) == MAX
              && ChargeLlmMicros(r, prompt, completion, 0) == ChargeLlmMicros(r, prompt, 0, 0)
  {
    assert r.output == 0 ==> Times(completion, r.output) == 0;
  }

  /** ... and it is not short either: one more completion token reaches the budget, unless the
      count itself has hit the top of a `u64`. */
  lemma BudgetIsTight(r: Rates, micros: u64, prompt: u64)
    requires r.output > 0 && AuthorizedTokens(r, micros, prompt) < MAX
    ensures ChargeLlmMicros(r, prompt, AuthorizedTokens(r, micros, prompt) - prompt + 1, 0) >= micros
  {
    var p := prompt * Fresh(r);
    var paid := ChargeLlmMicros(r, prompt, 0, 0);
    assert UnroundedCents(r, prompt, 0, 0) == p;
    var left := SatSub(micros, paid);
    var completion := left * 100 / r.output;
    DivBounds(left * 100, r.output);
    assert UnroundedCents(r, prompt, completion + 1, 0) == p + (completion + 1) * r.output;
  }

  /** The same tokens never cost more by `n` than by `f`. */
  ghost predicate NeverDearer(n: Rates, f: Rates) {
    forall prompt: u64, completion: u64, cached: u64 ::
      ChargeLlmMicros(n, prompt, completion, cached) <= ChargeLlmMicros(f, prompt, completion, cached)
  }

  /** They never do exactly when none of the three rates is above the other's. */
  lemma NeverDearerExactly(n: Rates, f: Rates)
    requires Max(Fresh(n), Max(n.cache, n.output)) <= MAX
    ensures NeverDearer(n, f) <==> Fresh(n) <= Fresh(f) && n.cache <= f.cache && n.output <= f.output
  {
    if Fresh(n) <= Fresh(f) && n.cache <= f.cache && n.output <= f.output {
      forall prompt: u64, completion: u64, cached: u64
        ensures ChargeLlmMicros(n, prompt, completion, cached) <= ChargeLlmMicros(f, prompt, completion, cached)
      {
        var hit: nat := Min(cached, prompt);
        TimesBelow(prompt - hit, Fresh(n), Fresh(f));
        TimesBelow(hit, n.cache, f.cache);
        TimesBelow(completion, n.output, f.output);
      }
    } else {
      HundredTokens(n);
      HundredTokens(f);
      assert || ChargeLlmMicros(n, 100, 0, 0) > ChargeLlmMicros(f, 100, 0, 0)
             || ChargeLlmMicros(n, 100, 0, 100) > ChargeLlmMicros(f, 100, 0, 100)
             || ChargeLlmMicros(n, 0, 100, 0) > ChargeLlmMicros(f, 0, 100, 0);
    }
  }

  /** A hundred tokens cost their rate, in micros. */
  lemma HundredTokens(r: Rates)
    ensures ChargeLlmMicros(r, 100, 0, 0) == Clip(Fresh(r))
    ensures ChargeLlmMicros(r, 100, 0, 100) == Clip(r.cache)
    ensures ChargeLlmMicros(r, 0, 100, 0) == Clip(r.output)
  {
    assert UnroundedCents(r, 100, 0, 0) == 100 * Fresh(r);
    assert UnroundedCents(r, 100, 0, 100) == 100 * r.cache;
    assert UnroundedCents(r, 0, 100, 0) == 100 * r.output;
  }

  lemma MixWithinPrice(r: Rates, top: nat, prompt: u64, completion: u64, cached: u64)
    requires 10_000 * top <= MAX && Max(MaxRate(r), r.cache) <= top && prompt + completion <= TOKEN_CHUNK
    ensures ChargeLlmMicros(r, prompt, completion, cached) <= MicrosAt(top)
  {
    var hit: nat := Min(cached, prompt);
    TimesBelow(prompt - hit, Fresh(r), top);
    TimesBelow(hit, r.cache, top);
    TimesBelow(completion, r.output, top);
    AllTimes(prompt - hit, hit, completion, TOKEN_CHUNK, top);
  }

  lemma TimesBelow(tokens: nat, rate: nat, top: nat)
    requires rate <= top
    ensures Times(tokens, rate) <= Times(tokens, top)
  {
    MulMono(rate, top, tokens);
  }

  lemma AllTimes(a: nat, b: nat, c: nat, n: nat, top: nat)
    requires a + b + c <= n
    ensures Times(a, top) + Times(b, top) + Times(c, top) <= n * top
  {
    MulMono(a + b + c, n, top);
    assert (a + b + c) * top == a * top + b * top + c * top;
  }

  /** A million tokens at a rate no other but the cache rate is above cover every mix of at most a
      million tokens exactly when the cache rate is not above it either. */
  lemma PriceCoversEveryMix(r: Rates, top: nat)
    requires MaxRate(r) <= top && 10_000 * Max(top, r.cache) <= MAX
    ensures (forall prompt: u64, completion: u64, cached: u64 | prompt + completion <= TOKEN_CHUNK ::
               ChargeLlmMicros(r, prompt, completion, cached) <= MicrosAt(top))
            <==> r.cache <= top
  {
    if r.cache <= top {
      forall prompt: u64, completion: u64, cached: u64 | prompt + completion <= TOKEN_CHUNK
        ensures ChargeLlmMicros(r, prompt, completion, cached) <= MicrosAt(top)
      {
        MixWithinPrice(r, top, prompt, completion, cached);
      }
    } else {
      assert UnroundedCents(r, TOKEN_CHUNK, 0, TOKEN_CHUNK) == TOKEN_CHUNK * r.cache;
      assert ChargeLlmMicros(r, TOKEN_CHUNK, 0, TOKEN_CHUNK) > MicrosAt(top);
    }
  }

  /** One prepaid chunk covers every mix of at most a million tokens exactly when the cache rate,
      which the dearest rate leaves out, is not above it. */
  lemma ChunkCoversEveryMix(r: Rates)
    requires 10_000 * Max(MaxRate(r), r.cache) <= MAX
    ensures (forall prompt: u64, completion: u64, cached: u64 | prompt + completion <= TOKEN_CHUNK ::
               ChargeLlmMicros(r, prompt, completion, cached) <= ChunkMicros(r))
            <==> r.cache <= MaxRate(r)
  {
    PriceCoversEveryMix(r, MaxRate(r));
  }

  // ---------------------------------------------------- the starting ceiling

  /** The most tokens the answer may have, or `None` when the prompt alone spends the bond. */
  function ClampToChunk(r: Rates, prompt: u64, bond: u64, maxTokens: nat): Option<nat>
    requires maxTokens <= U32_MAX
  {
    var promptMicros := PromptMicros(r, prompt);
    if promptMicros >= bond then None else
    Some(Min(maxTokens, Min(Max(Room(r, prompt, bond), 1), U32_MAX)))
  }

  function PromptMicros(r: Rates, prompt: u64): u64 { Clip((prompt * Fresh(r) + 99) / 100) }

  function Room(r: Rates, prompt: u64, bond: u64): u64
    requires PromptMicros(r, prompt) < bond
  {
    if r.output > 0 then Clip((bond - PromptMicros(r, prompt)) * 100 / r.output) else MAX
  }

  /** A job is turned away exactly when its prompt alone spends the bond. Its ceiling is the one asked for,
      or the most that fits in the bond after the prompt, but never less than one token. */
  lemma CeilingIsTheMost(r: Rates, prompt: u64, bond: u64, maxTokens: nat)
    requires maxTokens <= U32_MAX && bond * 100 <= MAX
    ensures ClampToChunk(r, prompt, bond, maxTokens).None? <==> prompt * Fresh(r) > 100 * (bond - 1)
    ensures ClampToChunk(r, prompt, bond, maxTokens).Some? ==>
              var n, spent := ClampToChunk(r, prompt, bond, maxTokens).value, PromptMicros(r, prompt) * 100;
              && n <= maxTokens && (maxTokens >= 1 ==> n >= 1)
              && (n > 1 ==> spent + n * r.output <= bond * 100)
              && (n < maxTokens ==> spent + (n + 1) * r.output > bond * 100)
  {
    var pm: nat := PromptMicros(r, prompt);
    if pm < bond && r.output > 0 {
      DivBounds((bond - pm) * 100, r.output);
      var room := (bond - pm) * 100 / r.output;
      var n := ClampToChunk(r, prompt, bond, maxTokens).value;
      if n <= room { MulMono(n, room, r.output); }
      if room < n + 1 { MulMono(room + 1, n + 1, r.output); }
      RoomFits(bond - pm, r.output);
    }
  }

  lemma RoomFits(left: nat, output: nat)
    requires output > 0
    ensures left * 100 / output <= left * 100
  {
    DivBounds(left * 100, output);
    MulMono(1, output, left * 100 / output);
  }

  /** An admitted job that keeps to its ceiling costs at most its bond when no cached token is dearer
      than a fresh one. Only a bond with no room for one output token is exceeded, and then by less
      than that one token's price. */
  lemma ClampKeepsTheBond(r: Rates, prompt: u64, bond: u64, maxTokens: nat, completion: u64, cached: u64)
    requires maxTokens <= U32_MAX && (Min(cached, prompt) == 0 || r.cache <= Fresh(r))
    requires ClampToChunk(r, prompt, bond, maxTokens).Some?
    requires completion <= ClampToChunk(r, prompt, bond, maxTokens).value
    ensures Room(r, prompt, bond) >= 1 ==> ChargeLlmMicros(r, prompt, completion, cached) <= bond
    ensures Room(r, prompt, bond) == 0 ==>
              ChargeLlmMicros(r, prompt, completion, cached) < bond + Max(Nearest(r.output), 1)
  {
    var hit, pm: int, room := Min(cached, prompt), PromptMicros(r, prompt), Room(r, prompt, bond);
    if hit > 0 { MulMono(r.cache, Fresh(r), hit); }
    assert (prompt - hit) * Fresh(r) + hit * Fresh(r) == prompt * Fresh(r);
    assert prompt * Fresh(r) <= pm * 100;
    if r.output > 0 {
      DivBounds((bond - pm) * 100, r.output);
      if room >= 1 {
        MulMono(completion, (bond - pm) * 100 / r.output, r.output);
        assert completion * r.output <= (bond - pm) * 100;
      } else {
        MulMono(completion, 1, r.output);
      }
    } else {
      assert completion * r.output == 0;
    }
  }

  /** A job let in with room for an answer, and an answer within its ceiling. */
  predicate Admitted(r: Rates, prompt: u64, bond: u64, completion: u64) {
    PromptMicros(r, prompt) < bond && 1 <= Room(r, prompt, bond) && completion <= Min(Room(r, prompt, bond), U32_MAX)
  }

  /** Counting every cached token as fresh leaves room for the bill, whatever is cached, exactly when
      the cache rate is not above the fresh one. */
  lemma ClampCoversEveryCacheShare(r: Rates)
    requires (r.output + 400) * (r.cache + 1) <= MAX
    ensures (forall prompt: u64, bond: u64, completion: u64, cached: u64 | Admitted(r, prompt, bond, completion) ::
               ChargeLlmMicros(r, prompt, completion, cached) <= bond)
            <==> r.cache <= Fresh(r)
  {
    if r.cache <= Fresh(r) {
      forall prompt: u64, bond: u64, completion: u64, cached: u64 | Admitted(r, prompt, bond, completion)
        ensures ChargeLlmMicros(r, prompt, completion, cached) <= bond
      {
        ClampKeepsTheBond(r, prompt, bond, U32_MAX, completion, cached);
      }
    } else {
      var prompt := r.output + 400;
      DearCacheProducts(prompt, Fresh(r), r.cache);
      DearCacheOverruns(r, prompt, prompt * Fresh(r), prompt * r.cache);
    }
  }

  /** A prompt all cached at the dearer rate overruns a bond that covers it as fresh and one token more. */
  lemma DearCacheOverruns(r: Rates, prompt: nat, x: nat, y: nat)
    requires x == prompt * Fresh(r) && y == prompt * r.cache && x + prompt <= y && y + prompt <= MAX
    requires prompt == r.output + 400
    ensures var bond := PromptMicros(r, prompt) + r.output / 100 + 1;
            && bond <= MAX && Admitted(r, prompt, bond, 0) && ChargeLlmMicros(r, prompt, 0, prompt) > bond
  {
    DearerByTheRoom(x, y, r.output);
    CachedPrompt(r, prompt, x, y);
    RoomForOne(r, prompt, PromptMicros(r, prompt) + r.output / 100 + 1);
  }

  lemma DearCacheProducts(prompt: nat, low: nat, high: nat)
    requires low < high
    ensures prompt * low + prompt <= prompt * high && prompt <= prompt * (high + 1) == prompt * high + prompt
  {
    MulMono(low + 1, high, prompt);
    MulMono(1, high + 1, prompt);
  }

  /** What a prompt costs when counted as fresh, and what it costs when all of it was cached. */
  lemma CachedPrompt(r: Rates, prompt: u64, x: nat, y: nat)
    requires x == prompt * Fresh(r) && y == prompt * r.cache && (x + 99) / 100 <= MAX && Nearest(y) <= MAX
    ensures PromptMicros(r, prompt) == (x + 99) / 100 && ChargeLlmMicros(r, prompt, 0, prompt) == Nearest(y)
  {
    assert UnroundedCents(r, prompt, 0, prompt) == y;
  }

  lemma DearerByTheRoom(x: nat, y: nat, output: nat)
    requires x + output + 400 <= y
    ensures (x + 99) / 100 + output / 100 + 1 < Nearest(y) <= y + 1
  {}

  lemma RoomForOne(r: Rates, prompt: u64, bond: u64)
    requires PromptMicros(r, prompt) < bond && r.output <= (bond - PromptMicros(r, prompt)) * 100
    ensures Admitted(r, prompt, bond, 0)
  {
    if r.output > 0 { DivMono(r.output, (bond - PromptMicros(r, prompt)) * 100, r.output); }
  }

  // ------------------------------------------------------------ token counts

  datatype TokenUsage = TokenUsage(prompt: u64, completion: u64, cached: u64, reasoning: u64)

  /** What a provider claims, its subsets held inside their totals; nothing when it claims nothing. */
  function FromMeta(prompt: u64, completion: u64, cached: u64, reasoning: u64): Option<TokenUsage> {
    if prompt == 0 && completion == 0 then None
    else Some(TokenUsage(prompt, completion, Min(cached, prompt), Min(reasoning, completion)))
  }

  function Reconcile(ours: TokenUsage, reported: Option<TokenUsage>): TokenUsage {
    if reported.None? || (reported.value.prompt == 0 && reported.value.completion == 0) then ours else
    var theirs := reported.value;
    var prompt := Max(ours.prompt, theirs.prompt);
    var completion := Max(ours.completion, theirs.completion);
    TokenUsage(prompt, completion, Min(theirs.cached, prompt), Min(Max(ours.reasoning, theirs.reasoning), completion))
  }

  /** What is made of a claim keeps its totals, and its subsets as far as they fit; two merged counts keep
      the greater of each, the credit for cached tokens being the provider's. */
  lemma CountsAreKept(ours: TokenUsage, prompt: u64, completion: u64, cached: u64, reasoning: u64)
    ensures var claim := FromMeta(prompt, completion, cached, reasoning);
            && (claim.None? <==> prompt + completion == 0)
            && (claim.Some? ==>
                  && claim.value.prompt == prompt && claim.value.completion == completion
                  && claim.value.cached <= prompt && (cached <= prompt ==> claim.value.cached == cached)
                  && claim.value.reasoning <= completion && (reasoning <= completion ==> claim.value.reasoning == reasoning))
    ensures var claim := FromMeta(prompt, completion, cached, reasoning); var u := Reconcile(ours, claim);
            if claim.None? then u == ours else
              && u.prompt >= ours.prompt && u.prompt >= prompt && u.prompt in {ours.prompt, prompt}
              && u.completion >= ours.completion && u.completion >= completion && u.completion in {ours.completion, completion}
              && u.cached == claim.value.cached
              && (ours.reasoning <= ours.completion ==>
                    && ours.reasoning <= u.reasoning <= u.completion && claim.value.reasoning <= u.reasoning
                    && u.reasoning in {ours.reasoning, claim.value.reasoning})
  {}

  function Charge(r: Rates, u: TokenUsage): u64 {
    ChargeLlmMicros(r, u.prompt, u.completion, u.cached)
  }

  /** The bill of a chat: nothing when the table is free; else by the rate table, but never below what
      the backend says it must earn. `meta` are the counts as the provider wrote them. */
  function BillLlm(p: Price, ours: TokenUsage, meta: TokenUsage, floor: u64): u64 {
    if IsFree(p) then 0 else
    Max(Charge(LlmRates(p), Reconcile(ours, FromMeta(meta.prompt, meta.completion, meta.cached, meta.reasoning))), floor)
  }

  /** A free table charges nothing for what is not cached; of rounded tables, the free ones are those with
      no rate at all but the cache's. */
  lemma FreeTablesHaveNoRates(p: Price)
    ensures IsFree(p) ==> LlmRates(p).input == LlmRates(p).output == 0
    ensures p == RoundProtocol(p) && p.amount >= 0.0 ==> (IsFree(p) <==> MaxRate(LlmRates(p)) == 0 && CeilCents(p.amount) == 0)
  {
    RoundedKeepsCents(p);
    if p.amount > 0.0 { CeilCentsBounds(p.amount); }
  }

  /** What a bill must be for neither side to shrink it by under-counting: at least the backend's floor,
      what the provider's own counts cost, and what the local counts cost with the same cache credit. */
  predicate Enough(bill: u64, p: Price, ours: TokenUsage, meta: TokenUsage, floor: u64) {
    && bill >= floor
    && Charge(LlmRates(p), meta) <= bill
    && Charge(LlmRates(p), if meta.prompt == 0 && meta.completion == 0 then ours else ours.(cached := Min(meta.cached, meta.prompt))) <= bill
  }

  /** The bill of a table that is not free is never short. */
  lemma BillIsNeverShort(p: Price, ours: TokenUsage, meta: TokenUsage, floor: u64)
    requires !IsFree(p)
    ensures Enough(BillLlm(p, ours, meta, floor), p, ours, meta, floor)
  {
    var r, reported := LlmRates(p), FromMeta(meta.prompt, meta.completion, meta.cached, meta.reasoning);
    if reported.Some? {
      ReconcileRaisesTheirs(r, ours, reported.value);
      ReconcileRaisesOurs(r, ours, reported.value);
    } else {
      assert UnroundedCents(r, meta.prompt, meta.completion, meta.cached) == 0;
    }
  }

  /** Whether a table is free is not asked of its cache rates, and a free one bills nothing: where the
      backend names no floor, no bill is short exactly when a free table has no cache rate either; a floor
      is kept to exactly when the table is not free. */
  lemma NeverShortExactly(p: Price)
    ensures (forall ours: TokenUsage, meta: TokenUsage :: Enough(BillLlm(p, ours, meta, 0), p, ours, meta, 0))
            <==> !IsFree(p) || (LlmRates(p).cache == 0 && LlmRates(p).cacheWrite == 0)
    ensures (forall ours: TokenUsage, meta: TokenUsage, floor: u64 :: Enough(BillLlm(p, ours, meta, floor), p, ours, meta, floor))
            <==> !IsFree(p)
  {
    var r := LlmRates(p);
    if !IsFree(p) {
      forall ours: TokenUsage, meta: TokenUsage, floor: u64 ensures Enough(BillLlm(p, ours, meta, floor), p, ours, meta, floor) {
        BillIsNeverShort(p, ours, meta, floor);
      }
      return;
    }
    var zero := TokenUsage(0, 0, 0, 0);
    assert !Enough(BillLlm(p, zero, zero, 1), p, zero, zero, 1);
    if r.cache == 0 && r.cacheWrite == 0 {
      forall u: TokenUsage ensures Charge(r, u) == 0 { assert UnroundedCents(r, u.prompt, u.completion, u.cached) == 0; }
    } else {
      HundredTokens(r);
      var uncached, cached := TokenUsage(100, 0, 0, 0), TokenUsage(100, 0, 100, 0);
      assert Charge(r, uncached) > 0 || Charge(r, cached) > 0;
      assert !Enough(BillLlm(p, zero, uncached, 0), p, zero, uncached, 0) || !Enough(BillLlm(p, zero, cached, 0), p, zero, cached, 0);
    }
  }

  /** A table with only a cache rate gives away what it caches. */
  lemma CacheIsGivenAway(cents: nat)
    requires 0 < cents <= MAX
    ensures var p := Price(0.0, None, None, Some(Usd(cents)), None); var u := TokenUsage(100, 0, 100, 0);
            BillLlm(p, u, u, 0) == 0 && Charge(LlmRates(p), u) == cents
  {
    CeilCentsOfCents(cents);
    HundredTokens(LlmRates(Price(0.0, None, None, Some(Usd(cents)), None)));
  }

  lemma ReconcileRaisesTheirs(r: Rates, ours: TokenUsage, theirs: TokenUsage)
    requires theirs.cached <= theirs.prompt
    ensures Charge(r, Reconcile(ours, Some(theirs))) >= Charge(r, theirs)
  {
    var billed := Reconcile(ours, Some(theirs));
    ChargeMonotone(r, theirs.prompt, theirs.completion, theirs.cached, billed.prompt, billed.completion, billed.cached);
  }

  lemma ReconcileRaisesOurs(r: Rates, ours: TokenUsage, theirs: TokenUsage)
    requires theirs.cached <= theirs.prompt && (theirs.prompt != 0 || theirs.completion != 0)
    ensures Charge(r, Reconcile(ours, Some(theirs))) >= Charge(r, ours.(cached := theirs.cached))
  {
    var billed := Reconcile(ours, Some(theirs));
    ChargeMonotone(r, ours.prompt, ours.completion, theirs.cached, billed.prompt, billed.completion, billed.cached);
  }
}
