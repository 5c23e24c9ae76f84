/** Who gets a job when the first provider says nothing (routing.rs), and how it is handed on
    (apps/desktop/src-tauri/src/jobs.rs). */
module Fallbacks {
  import opened U64
  import opened Wrappers
  import opened Pricing
  import opened Sorting
  import opened Draws
  import opened Routing
  import JobStream

  /** A model asked for by a longer name still belongs to the provider listing the shorter one. */
  predicate Serves(listed: string, model: string) { listed == model || listed <= model }

  // --------------------------------------------------------------- who is left

  function ServingPrice(models: seq<Model>, kind: Kind, model: string): Option<nat> {
    if models == [] then None
    else if models[0].kind == kind && Serves(models[0].id, model) then Some(Amount(models[0]))
    else ServingPrice(models[1..], kind, model)
  }

  /** What the first choice asked; nothing when it is gone or no longer serves the model. */
  function FirstPrice(peers: seq<Peer>, kind: Kind, model: string, first: string): nat {
    if peers == [] then 0
    else if peers[0].id == first then ServingPrice(peers[0].models, kind, model).GetOr(0)
    else FirstPrice(peers[1..], kind, model, first)
  }

  /** `i` is the first choice, the first provider of that id, and `k` its first model that serves the one
      asked for: one of the kind whose name the asked one begins with. */
  ghost predicate IsFirstChoice(peers: seq<Peer>, kind: Kind, model: string, first: string, i: nat, k: nat) {
    && i < |peers| && peers[i].id == first && (forall j | 0 <= j < i :: peers[j].id != first)
    && k < |peers[i].models| && IsServing(peers[i].models[k], kind, model)
    && forall j | 0 <= j < k :: !IsServing(peers[i].models[j], kind, model)
  }

  predicate IsServing(m: Model, kind: Kind, model: string) {
    m.kind == kind && |m.id| <= |model| && forall c | 0 <= c < |m.id| :: m.id[c] == model[c]
  }

  /** What the user saw: the price of the first choice, nothing when it is gone or no longer serves the model. */
  ghost predicate UserSaw(peers: seq<Peer>, kind: Kind, model: string, first: string, price: nat) {
    && (forall i: nat, k: nat | IsFirstChoice(peers, kind, model, first, i, k) :: price == Amount(peers[i].models[k]))
    && ((forall i: nat, k: nat :: !IsFirstChoice(peers, kind, model, first, i, k)) ==> price == 0)
  }

  lemma ServesExactly(m: Model, kind: Kind, model: string)
    ensures IsServing(m, kind, model) <==> m.kind == kind && Serves(m.id, model)
  {}

  ghost predicate FirstServing(models: seq<Model>, kind: Kind, model: string, k: nat) {
    k < |models| && IsServing(models[k], kind, model) && forall j | 0 <= j < k :: !IsServing(models[j], kind, model)
  }

  lemma {:induction false} ServingPriceIs(models: seq<Model>, kind: Kind, model: string)
    ensures forall k: nat | FirstServing(models, kind, model, k) :: ServingPrice(models, kind, model) == Some(Amount(models[k]))
    ensures ServingPrice(models, kind, model).Some? ==> exists k: nat :: FirstServing(models, kind, model, k)
  {
    if models != [] {
      ServesExactly(models[0], kind, model);
      if IsServing(models[0], kind, model) {
        assert FirstServing(models, kind, model, 0);
      } else {
        var rest := models[1..];
        ServingPriceIs(rest, kind, model);
        forall k: nat | FirstServing(models, kind, model, k) ensures k > 0 && FirstServing(rest, kind, model, k - 1) {
          assert forall j | 0 <= j < |rest| :: rest[j] == models[j + 1];
        }
        if ServingPrice(rest, kind, model).Some? {
          var k: nat :| FirstServing(rest, kind, model, k);
          assert forall j | 0 <= j < |rest| :: rest[j] == models[j + 1];
          assert FirstServing(models, kind, model, k + 1);
        }
      }
    }
  }

  lemma {:induction false} FirstPriceIs(peers: seq<Peer>, kind: Kind, model: string, first: string)
    ensures UserSaw(peers, kind, model, first, FirstPrice(peers, kind, model, first))
  {
    if peers != [] {
      if peers[0].id == first {
        ServingPriceIs(peers[0].models, kind, model);
        forall i: nat, k: nat | IsFirstChoice(peers, kind, model, first, i, k) ensures i == 0 && FirstServing(peers[0].models, kind, model, k) {}
        if ServingPrice(peers[0].models, kind, model).Some? {
          var k: nat :| FirstServing(peers[0].models, kind, model, k);
          assert IsFirstChoice(peers, kind, model, first, 0, k);
        }
      } else {
        var rest := peers[1..];
        FirstPriceIs(rest, kind, model, first);
        assert forall j | 0 <= j < |rest| :: rest[j] == peers[j + 1];
        forall i: nat, k: nat | IsFirstChoice(peers, kind, model, first, i, k) ensures i > 0 && IsFirstChoice(rest, kind, model, first, i - 1, k) {}
        forall i: nat, k: nat | IsFirstChoice(rest, kind, model, first, i, k) ensures IsFirstChoice(peers, kind, model, first, i + 1, k) {}
      }
    }
  }

  function Others(peers: seq<Peer>, first: string): seq<Peer> {
    if peers == [] then [] else
    Others(peers[..|peers| - 1], first) + if peers[|peers| - 1].id != first then [peers[|peers| - 1]] else []
  }

  lemma {:induction false} OthersList(peers: seq<Peer>, kind: Kind, first: string)
    ensures forall o :: Lists(Others(peers, first), kind, o) <==> Lists(peers, kind, o) && o.peerId != first
  {
    if peers != [] {
      var n := |peers| - 1;
      OthersList(peers[..n], kind, first);
      forall o ensures Lists(peers, kind, o) <==> Lists(peers[..n], kind, o) || Lists([peers[n]], kind, o) {
        ListsAppend(peers[..n], peers[n], kind, o);
        assert peers[..n] + [peers[n]] == peers;
      }
      forall o ensures Lists(Others(peers, first), kind, o)
                       <==> Lists(Others(peers[..n], first), kind, o) || (peers[n].id != first && Lists([peers[n]], kind, o))
      {
        if peers[n].id != first { ListsAppend(Others(peers[..n], first), peers[n], kind, o); }
        else { assert Others(peers, first) == Others(peers[..n], first); }
      }
      forall o | Lists([peers[n]], kind, o) ensures o.peerId == peers[n].id {}
    }
  }

  // ---------------------------------------------------------------- the order

  /** An offer with its place among those met, and the value drawn for it. */
  datatype Tagged = Tagged(at: nat, offer: Offer, draw: nat)

  predicate ByPriceThenDraw(a: Tagged, b: Tagged) {
    a.offer.price < b.offer.price || (a.offer.price == b.offer.price && a.draw <= b.draw)
  }

  predicate ByDraw(a: Tagged, b: Tagged) { a.draw <= b.draw }

  function Untag(s: seq<Tagged>): (r: seq<Offer>)
    ensures |r| == |s| && forall i | 0 <= i < |s| :: r[i] == s[i].offer
  {
    seq(|s|, i requires 0 <= i < |s| => s[i].offer)
  }

  predicate SameModelNoDearer(o: Offer, model: string, price: nat) { Serves(o.model, model) && o.price <= price }

  predicate OtherFree(o: Offer, model: string, price: nat, kind: Kind) {
    !Serves(o.model, model) && price == 0 && o.price == 0 && kind == Llm
  }

  /** What a fallback is looked for: the kind, the model asked for, and the price the user saw. */
  datatype Search = Search(kind: Kind, model: string, price: nat)

  /** On the first pile, or on the one of other models. */
  predicate Wants(s: Search, other: bool, o: Offer) {
    if other then OtherFree(o, s.model, s.price, s.kind) else SameModelNoDearer(o, s.model, s.price)
  }

  /** The tags of the first `n` offers that are wanted. */
  function Wanted(offers: seq<Offer>, draw: nat -> nat, s: Search, other: bool, n: nat): seq<Tagged>
    requires n <= |offers|
  {
    if n == 0 then [] else
    Wanted(offers, draw, s, other, n - 1) + if Wants(s, other, offers[n - 1]) then [Tagged(n - 1, offers[n - 1], draw(n - 1))] else []
  }

  predicate IsTag(t: Tagged, offers: seq<Offer>, draw: nat -> nat) {
    t.at < |offers| && t.offer == offers[t.at] && t.draw == draw(t.at)
  }

  lemma {:induction false} WantedAreTags(offers: seq<Offer>, draw: nat -> nat, s: Search, other: bool, n: nat)
    requires n <= |offers|
    ensures var w := Wanted(offers, draw, s, other, n);
            && |w| <= n && (forall t :: t in w <==> t.at < n && IsTag(t, offers, draw) && Wants(s, other, t.offer))
            && forall i, j | 0 <= i < j < |w| :: w[i].at < w[j].at
  {
    if n > 0 {
      WantedAreTags(offers, draw, s, other, n - 1);
      var before := Wanted(offers, draw, s, other, n - 1);
      assert forall i | 0 <= i < |before| :: before[i] in before;
    }
  }

  /** Sort the offers of the others into those two piles, each with its draw. */
  method Sift(offers: seq<Offer>, kind: Kind, model: string, price: nat, draw: nat -> nat) returns (sames: seq<Tagged>, frees: seq<Tagged>)
    ensures sames == Wanted(offers, draw, Search(kind, model, price), false, |offers|)
    ensures frees == Wanted(offers, draw, Search(kind, model, price), true, |offers|)
  {
    sames, frees := [], [];
    for i := 0 to |offers|
      invariant sames == Wanted(offers, draw, Search(kind, model, price), false, i)
      invariant frees == Wanted(offers, draw, Search(kind, model, price), true, i)
    {
      var t := Tagged(i, offers[i], draw(i));
      if Serves(offers[i].model, model) {
        if offers[i].price <= price { sames := sames + [t]; }
      } else if price == 0 && offers[i].price == 0 && kind == Llm {
        frees := frees + [t];
      }
    }
  }

  /** When an offer is a fallback: it costs no more than the user saw, and its model's name begins the asked
      one, or the user's choice was free and answers in text. */
  predicate Qualifies(o: Offer, kind: Kind, model: string, price: nat) {
    o.price <= price && ((|o.model| <= |model| && model[..|o.model|] == o.model) || (price == 0 && kind == Llm))
  }

  /** Providers worth trying after `first`, in order; `draw` is the value drawn for each offer met. The
      first `same` of them serve the model; `tags` says which offer met each of them is. */
  method Fallbacks(peers: seq<Peer>, kind: Kind, model: string, first: string, draw: nat -> nat)
    returns (list: seq<Offer>, ghost tags: seq<Tagged>, ghost same: nat, ghost price: nat)
    ensures UserSaw(peers, kind, model, first, price)
    // Exactly the offers of others that qualify, each as often as it is met.
    ensures forall saw: nat | UserSaw(peers, kind, model, first, saw) ::
              forall o :: o in list <==> Lists(peers, kind, o) && o.peerId != first && Qualifies(o, kind, model, saw)
    ensures |tags| == |list| && forall i | 0 <= i < |list| :: tags[i].offer == list[i] && IsTag(tags[i], Offers(Others(peers, first), kind), draw)
    ensures forall i, j | 0 <= i < j < |tags| :: tags[i].at != tags[j].at
    ensures var met := Offers(Others(peers, first), kind);
            forall k | 0 <= k < |met| && Qualifies(met[k], kind, model, price) :: Tagged(k, met[k], draw(k)) in tags
    // The same model first, then by price, then as the draws fall.
    ensures same <= |list| <= |Offers(Others(peers, first), kind)|
    ensures forall i | 0 <= i < |list| :: i < same <==> |list[i].model| <= |model| && model[..|list[i].model|] == list[i].model
    ensures forall i, j | 0 <= i < j < |list| && (j < same || same <= i) ::
              list[i].price < list[j].price || (list[i].price == list[j].price && tags[i].draw <= tags[j].draw)
    ensures price == 0 ==> forall o | o in list :: o.price == 0
  {
    price := FirstPrice(peers, kind, model, first);
    FirstPriceIs(peers, kind, model, first);
    ghost var met := Offers(Others(peers, first), kind);
    var sames, frees := Sift(Offers(Others(peers, first), kind), kind, model, FirstPrice(peers, kind, model, first), draw);
    SamePileSorts(met, draw, Search(kind, model, price));
    OtherPileSorts(met, draw, Search(kind, model, price));
    var ordered, rest := SortBy(sames, ByPriceThenDraw), SortBy(frees, ByDraw);
    list, same, tags := Untag(ordered) + Untag(rest), |ordered|, ordered + rest;
    TwoPiles(met, draw, Search(kind, model, price), ordered, rest);
    TheListIs(peers, kind, model, first, draw, price, tags, list);
    forall saw: nat | UserSaw(peers, kind, model, first, saw) ensures saw == price { SawOnePrice(peers, kind, model, first, saw, price); }
  }

  lemma SawOnePrice(peers: seq<Peer>, kind: Kind, model: string, first: string, a: nat, b: nat)
    requires UserSaw(peers, kind, model, first, a) && UserSaw(peers, kind, model, first, b)
    ensures a == b
  {
    if i: nat, k: nat :| IsFirstChoice(peers, kind, model, first, i, k) {
      assert a == Amount(peers[i].models[k]) == b;
    }
  }

  lemma TheListIs(peers: seq<Peer>, kind: Kind, model: string, first: string, draw: nat -> nat, price: nat, tags: seq<Tagged>, list: seq<Offer>)
    requires |list| == |tags| && forall i | 0 <= i < |tags| :: list[i] == tags[i].offer
    requires forall t :: t in tags <==> IsTag(t, Offers(Others(peers, first), kind), draw) && Qualifies(t.offer, kind, model, price)
    ensures forall o :: o in list <==> Lists(peers, kind, o) && o.peerId != first && Qualifies(o, kind, model, price)
    ensures forall i | 0 <= i < |tags| :: IsTag(tags[i], Offers(Others(peers, first), kind), draw)
  {
    var met := Offers(Others(peers, first), kind);
    OffersOfOthers(peers, kind, first);
    forall i | 0 <= i < |tags| ensures IsTag(tags[i], met, draw) && Qualifies(list[i], kind, model, price) && list[i] in met {
      assert tags[i] in tags;
    }
    forall o | o in met && Qualifies(o, kind, model, price) ensures o in list {
      var k :| 0 <= k < |met| && met[k] == o;
      assert Tagged(k, o, draw(k)) in tags;
      var i :| 0 <= i < |tags| && tags[i] == Tagged(k, o, draw(k));
      assert list[i] == o;
    }
  }

  lemma OffersOfOthers(peers: seq<Peer>, kind: Kind, first: string)
    ensures forall o :: o in Offers(Others(peers, first), kind) <==> Lists(peers, kind, o) && o.peerId != first
  {
    OthersList(peers, kind, first);
    OffersAreListed(Others(peers, first), kind);
  }

  /** A pile of some of the offers met: the wanted ones, each once. */
  ghost predicate IsPile(u: seq<Tagged>, offers: seq<Offer>, draw: nat -> nat, s: Search, other: bool) {
    && (forall t :: t in u <==> IsTag(t, offers, draw) && Wants(s, other, t.offer))
    && (forall i, j | 0 <= i < j < |u| :: u[i].at != u[j].at)
  }

  lemma SamePileSorts(offers: seq<Offer>, draw: nat -> nat, s: Search)
    ensures var u := SortBy(Wanted(offers, draw, s, false, |offers|), ByPriceThenDraw);
            IsPile(u, offers, draw, s, false) && Sorted(u, ByPriceThenDraw)
  {
    var w := Wanted(offers, draw, s, false, |offers|);
    WantedAreTags(offers, draw, s, false, |offers|);
    SortSorts(w, ByPriceThenDraw);
    Rearranged(w, SortBy(w, ByPriceThenDraw));
  }

  lemma OtherPileSorts(offers: seq<Offer>, draw: nat -> nat, s: Search)
    ensures var u := SortBy(Wanted(offers, draw, s, true, |offers|), ByDraw);
            IsPile(u, offers, draw, s, true) && Sorted(u, ByDraw)
  {
    var w := Wanted(offers, draw, s, true, |offers|);
    WantedAreTags(offers, draw, s, true, |offers|);
    SortSorts(w, ByDraw);
    Rearranged(w, SortBy(w, ByDraw));
  }

  /** However it is rearranged, a pile holds the same tags, at different places. */
  lemma Rearranged(w: seq<Tagged>, u: seq<Tagged>)
    requires multiset(u) == multiset(w)
    requires forall i, j | 0 <= i < j < |w| :: w[i].at < w[j].at
    requires forall t, t' | t in w && t' in w && t.at == t'.at :: t == t'
    ensures forall t :: t in u <==> t in w
    ensures forall i, j | 0 <= i < j < |u| :: u[i].at != u[j].at
  {
    assert forall t :: t in u <==> t in multiset(u);
    assert forall t :: t in w <==> t in multiset(w);
    forall i, j | 0 <= i < j < |u| ensures u[i].at != u[j].at {
      if u[i].at == u[j].at {
        assert u[i] in u && u[j] in u;
        TwiceInBoth(w, u, i, j);
        assert false;
      }
    }
  }

  lemma TwoPiles(met: seq<Offer>, draw: nat -> nat, s: Search, ordered: seq<Tagged>, rest: seq<Tagged>)
    requires IsPile(ordered, met, draw, s, false) && Sorted(ordered, ByPriceThenDraw)
    requires IsPile(rest, met, draw, s, true) && Sorted(rest, ByDraw)
    ensures var tags := ordered + rest;
            && (forall t :: t in tags <==> IsTag(t, met, draw) && Qualifies(t.offer, s.kind, s.model, s.price))
            && (forall i, j | 0 <= i < j < |tags| :: tags[i].at != tags[j].at)
            && (forall i | 0 <= i < |tags| ::
                  i < |ordered| <==> |tags[i].offer.model| <= |s.model| && s.model[..|tags[i].offer.model|] == tags[i].offer.model)
            && (forall i, j | 0 <= i < j < |tags| && (j < |ordered| || |ordered| <= i) :: ByPriceThenDraw(tags[i], tags[j]))
            && |tags| <= |met|
  {
    var tags := ordered + rest;
    forall o: Offer ensures Serves(o.model, s.model) <==> |o.model| <= |s.model| && s.model[..|o.model|] == o.model {}
    assert forall i | 0 <= i < |ordered| :: ordered[i] in ordered;
    assert forall i | 0 <= i < |rest| :: rest[i] in rest;
    AtMostAllMet(tags, met);
  }

  lemma AtMostAllMet(tags: seq<Tagged>, met: seq<Offer>)
    requires forall i | 0 <= i < |tags| :: tags[i].at < |met|
    requires forall i, j | 0 <= i < j < |tags| :: tags[i].at != tags[j].at
    ensures |tags| <= |met|
  {
    PlacesCount(tags);
    BelowCount(|met|);
    Smaller(Places(tags), Below(|met|));
  }

  function Places(tags: seq<Tagged>): set<nat> { set i | 0 <= i < |tags| :: tags[i].at }

  function Below(n: nat): set<nat> { if n == 0 then {} else Below(n - 1) + {n - 1} }

  lemma {:induction false} PlacesCount(tags: seq<Tagged>)
    requires forall i, j | 0 <= i < j < |tags| :: tags[i].at != tags[j].at
    ensures |Places(tags)| == |tags|
  {
    if tags != [] {
      var n := |tags| - 1;
      PlacesCount(tags[..n]);
      assert Places(tags) == Places(tags[..n]) + {tags[n].at};
    }
  }

  lemma {:induction false} BelowCount(n: nat)
    ensures |Below(n)| == n && forall k: nat :: k in Below(n) <==> k < n
  {
    if n > 0 { BelowCount(n - 1); }
  }

  lemma {:induction false} Smaller(a: set<nat>, b: set<nat>)
    requires a <= b
    ensures |a| <= |b|
  {
    assert b == a + (b - a);
  }

  // -------------------------------------------------------- what "no dearer" bounds

  function RatesOf(m: Model): Rates
    requires m.price.Some?
  {
    LlmRates(m.price.value)
  }

  /** A listing is never ranked below its dearest rate. */
  lemma RankedByTheDearest(m: Model)
    requires m.price.Some?
    ensures MaxRate(RatesOf(m)) <= Amount(m)
  {
    AmountIsTheDearest(m);
  }

  /** What a fallback no dearer than the first choice bills for up to a million tokens, however they are
      mixed, is within a million tokens at the price the first choice was ranked by exactly when its cache
      rate, which it is not ranked by, is. That is the chunk the first choice would have asked for exactly
      when its price is its dearest rate. */
  lemma FallbackBillIsBounded(first: Model, next: Model)
    requires first.price.Some? && next.price.Some? && Amount(next) <= Amount(first)
    requires 10_000 * Max(Amount(first), RatesOf(next).cache) <= MAX
    ensures (forall prompt: u64, completion: u64, cached: u64 | prompt + completion <= TOKEN_CHUNK ::
               ChargeLlmMicros(RatesOf(next), prompt, completion, cached) <= MicrosAt(Amount(first)))
            <==> RatesOf(next).cache <= Amount(first)
    ensures MicrosAt(Amount(first)) == ChunkMicros(RatesOf(first)) <==> MaxRate(RatesOf(first)) == Amount(first)
  {
    RankedByTheDearest(next);
    RankedByTheDearest(first);
    PriceCoversEveryMix(RatesOf(next), Amount(first));
  }

  /** No retry costs more for the same tokens, whichever fallback is no dearer (and caches within its
      dearest rate), exactly when the first choice asks the one price it was ranked by for all of them. */
  lemma NoRetryCostsMoreExactly(first: Model)
    requires first.price.Some? && Amount(first) <= MAX
    ensures (forall next: Model | next.price.Some? && Amount(next) <= Amount(first) && RatesOf(next).cache <= MaxRate(RatesOf(next)) ::
               NeverDearer(RatesOf(next), RatesOf(first)))
            <==> Fresh(RatesOf(first)) == RatesOf(first).output == Amount(first) <= RatesOf(first).cache
  {
    var f, top := RatesOf(first), Amount(first);
    RankedByTheDearest(first);
    if Fresh(f) == f.output == top <= f.cache {
      forall next: Model | next.price.Some? && Amount(next) <= top && RatesOf(next).cache <= MaxRate(RatesOf(next))
        ensures NeverDearer(RatesOf(next), f)
      {
        RankedByTheDearest(next);
        NeverDearerExactly(RatesOf(next), f);
      }
    } else {
      var next := Model("", Llm, Some(Price(Usd(top), None, None, None, None)));
      CeilCentsOfCents(top);
      assert RatesOf(next) == Rates(top, top, top, top) && Amount(next) == top;
      NeverDearerExactly(RatesOf(next), f);
    }
  }

  /** With no bound on its cache rate, which it is not ranked by, any first choice has a fallback that
      is ranked as free and costs more. */
  lemma CacheIsNotRanked(first: Model)
    requires first.price.Some? && RatesOf(first).cache < MAX
    ensures exists next: Model :: next.price.Some? && Amount(next) == 0 && !NeverDearer(RatesOf(next), RatesOf(first))
  {
    var dear := RatesOf(first).cache + 1;
    var next := Model("", Llm, Some(Price(0.0, None, None, Some(Usd(dear)), None)));
    CeilCentsOfCents(dear);
    NeverDearerExactly(RatesOf(next), RatesOf(first));
    assert Amount(next) == 0;
  }

  /** One rate for all can be ranked below a dear answer, and cost fifty times as much on a prompt. */
  lemma SameTokensMayCostMore()
    ensures exists first: Model, next: Model ::
              && first.price.Some? && next.price.Some? && Amount(next) <= Amount(first)
              && ChargeLlmMicros(RatesOf(next), 1_000_000, 0, 0) == 500_000
              && ChargeLlmMicros(RatesOf(first), 1_000_000, 0, 0) == 10_000
  {
    var first := Model("m", Llm, Some(Price(Usd(100), Some(Usd(1)), Some(Usd(100)), None, None)));
    var next := Model("m", Llm, Some(Price(Usd(50), None, None, None, None)));
    CeilCentsOfCents(100);
    CeilCentsOfCents(50);
    CeilCentsOfCents(1);
    PromptCosts(RatesOf(first), 1);
    PromptCosts(RatesOf(next), 50);
    assert Amount(first) == 100 && Amount(next) == 50;
  }

  lemma PromptCosts(r: Rates, cents: nat)
    requires Fresh(r) == cents <= 1000
    ensures ChargeLlmMicros(r, 1_000_000, 0, 0) == 10_000 * cents
  {
    assert UnroundedCents(r, 1_000_000, 0, 0) == 1_000_000 * cents;
  }

  // ------------------------------------------------------------ one provider's try

  /** A message as the desktop reads it: whether it is about this job, whether it is empty (a token
      fragment, or an answer with no text), and what storing or paying it came to. */
  datatype Incoming = Incoming(mine: bool, what: JobStream.Message, empty: bool, llm: bool, tools: bool, stores: bool, pays: bool)

  predicate Speaks(m: Incoming) { m.mine && m.what.Delta? && !m.empty }

  ghost predicate Spoke(msgs: seq<Incoming>, n: nat) { exists i :: 0 <= i < n && i < |msgs| && Speaks(msgs[i]) }

  /** A failure, or an answer that is no answer. */
  predicate Gives(m: Incoming) {
    !(m.mine && (m.what.Failed? || (m.what.Result? && m.llm && m.empty && !m.tools)))
  }

  /** The try ends here: nothing had been said, and this message is no answer. */
  ghost predicate Stops(msgs: seq<Incoming>, n: nat) { n < |msgs| && !Gives(msgs[n]) && !Spoke(msgs, n) }

  predicate Stored(m: Incoming) { m.mine && m.what.Result? && m.stores }

  predicate Closes(m: Incoming) {
    || (m.mine && (m.what.Done? || m.what.Failed? || m.what.Result?))
    || ((m.what.Invoice? || m.what.TopUp?) && !m.pays)
  }

  datatype Outcome = Settled | Nothing

  ghost predicate ShownBefore(msgs: seq<Incoming>, n: nat) { exists i :: 0 <= i < n && i < |msgs| && Stored(msgs[i]) }

  /** Where the reading stops: at the first such message, or at the end. */
  ghost function StopAt(msgs: seq<Incoming>, from: nat): (at: nat)
    requires from <= |msgs|
    ensures from <= at <= |msgs| && (at < |msgs| ==> Stops(msgs, at)) && forall i | from <= i < at :: !Stops(msgs, i)
    decreases |msgs| - from
  {
    if from == |msgs| || Stops(msgs, from) then from else StopAt(msgs, from + 1)
  }

  /** The provider gave nothing: it was stopped, or it fell silent with the job unresolved. */
  ghost predicate GaveNothing(msgs: seq<Incoming>, runnerFailed: bool, open: bool) {
    || StopAt(msgs, 0) < |msgs|
    || ((forall m | m in msgs :: !Closes(m)) && !Spoke(msgs, |msgs|) && (runnerFailed || open))
  }

  /** Read one provider's messages. `runnerFailed` is how its connection ended, `open` whether the job
      is still unresolved on record; `stored` says whether an answer was kept. */
  method Attempt(msgs: seq<Incoming>, runnerFailed: bool, open: bool) returns (outcome: Outcome, stored: bool)
    ensures outcome == Nothing <==> GaveNothing(msgs, runnerFailed, open)
    ensures stored <==> ShownBefore(msgs, StopAt(msgs, 0))
  {
    var terminal, spoke := false, false;
    stored := false;
    for i := 0 to |msgs|
      invariant StopAt(msgs, 0) == StopAt(msgs, i)
      invariant spoke <==> Spoke(msgs, i)
      invariant stored <==> ShownBefore(msgs, i)
      invariant terminal <==> exists k :: 0 <= k < i && Closes(msgs[k])
    {
      var m := msgs[i];
      if m.mine && m.what.Delta? && !m.empty { spoke := true; }
      else if m.mine && !spoke && (m.what.Failed? || (m.what.Result? && m.llm && m.empty && !m.tools)) {
        return Nothing, stored;
      }
      if (m.what.Invoice? || m.what.TopUp?) && !m.pays { terminal := true; }
      if m.mine {
        if m.what.Result? && m.stores { stored := true; }
        if m.what.Done? || m.what.Failed? || m.what.Result? { terminal := true; }
      }
    }
    assert terminal <==> exists m :: m in msgs && Closes(m);
    outcome := if !terminal && (runnerFailed || open) && !spoke then Nothing else Settled;
  }

  function Mine(msgs: seq<Incoming>): seq<JobStream.Message> {
    if msgs == [] then [] else
    Mine(msgs[..|msgs| - 1]) + if msgs[|msgs| - 1].mine then [msgs[|msgs| - 1].what] else []
  }

  /** What is said about other jobs is not read. */
  lemma OtherJobsAreIgnored(msgs: seq<Incoming>, m: Incoming)
    ensures Mine(msgs + [m]) == if m.mine then Mine(msgs) + [m.what] else Mine(msgs)
  {
    assert (msgs + [m])[..|msgs|] == msgs;
  }

  lemma {:induction false} MineKeepsOrder(msgs: seq<Incoming>, i: nat, j: nat)
    requires i < j < |msgs| && msgs[i].mine && msgs[j].mine
    ensures exists a, b :: 0 <= a < b < |Mine(msgs)| && Mine(msgs)[a] == msgs[i].what && Mine(msgs)[b] == msgs[j].what
  {
    var n := |msgs| - 1;
    if j < n {
      MineKeepsOrder(msgs[..n], i, j);
      var a, b :| 0 <= a < b < |Mine(msgs[..n])| && Mine(msgs[..n])[a] == msgs[i].what && Mine(msgs[..n])[b] == msgs[j].what;
      assert Mine(msgs)[a] == msgs[i].what && Mine(msgs)[b] == msgs[j].what;
    } else {
      MineHas(msgs[..n], i);
      var a :| 0 <= a < |Mine(msgs[..n])| && Mine(msgs[..n])[a] == msgs[i].what;
      assert Mine(msgs)[a] == msgs[i].what && Mine(msgs)[|Mine(msgs[..n])|] == msgs[j].what;
    }
  }

  lemma {:induction false} MineHas(msgs: seq<Incoming>, i: nat)
    requires i < |msgs| && msgs[i].mine
    ensures exists a :: 0 <= a < |Mine(msgs)| && Mine(msgs)[a] == msgs[i].what
  {
    var n := |msgs| - 1;
    if i < n {
      MineHas(msgs[..n], i);
      var a :| 0 <= a < |Mine(msgs[..n])| && Mine(msgs[..n])[a] == msgs[i].what;
      assert Mine(msgs)[a] == msgs[i].what;
    } else {
      assert Mine(msgs)[|Mine(msgs[..n])|] == msgs[i].what;
    }
  }

  /** An answer was kept, then came a message that is no answer, with nothing said and no such message
      before it. */
  ghost predicate KeptThenRefused(msgs: seq<Incoming>, n: nat) {
    && n < |msgs| && !Gives(msgs[n]) && !Spoke(msgs, n) && ShownBefore(msgs, n)
    && forall k | 0 <= k < n :: Gives(msgs[k])
  }

  /** A job is handed on although an answer of it is on record exactly when the provider sends such a
      message. */
  lemma HandedOnWithAnAnswerExactly(msgs: seq<Incoming>, runnerFailed: bool, open: bool)
    ensures GaveNothing(msgs, runnerFailed, open) && ShownBefore(msgs, StopAt(msgs, 0))
            <==> exists n: nat :: KeptThenRefused(msgs, n)
  {
    var at := StopAt(msgs, 0);
    if GaveNothing(msgs, runnerFailed, open) && ShownBefore(msgs, at) {
      var i :| 0 <= i < at && Stored(msgs[i]);
      assert Closes(msgs[i]) && msgs[i] in msgs;
      SilentUntil(msgs, at);
      assert KeptThenRefused(msgs, at);
    }
    if n: nat :| KeptThenRefused(msgs, n) {
      assert forall k | 0 <= k < n :: !Stops(msgs, k);
      assert Stops(msgs, n) && at == n;
    }
  }

  /** Nothing was said before the reading stopped, so every message before gave something. */
  lemma SilentUntil(msgs: seq<Incoming>, at: nat)
    requires Stops(msgs, at) && forall i | 0 <= i < at :: !Stops(msgs, i)
    ensures forall k | 0 <= k < at :: Gives(msgs[k])
  {
    forall k | 0 <= k < at ensures Gives(msgs[k]) {
      assert !Stops(msgs, k);
      assert Spoke(msgs, k) ==> Spoke(msgs, at);
    }
  }

  /** A provider that keeps to the worker's own grammar never does, and nothing it said was shown. */
  lemma HandedOnOnlyWhenNothingWasShown(msgs: seq<Incoming>, runnerFailed: bool, open: bool)
    requires JobStream.InGrammar(Mine(msgs)) && GaveNothing(msgs, runnerFailed, open)
    ensures !ShownBefore(msgs, StopAt(msgs, 0)) && !Spoke(msgs, StopAt(msgs, 0))
  {
    HandedOnWithAnAnswerExactly(msgs, runnerFailed, open);
    if n: nat :| KeptThenRefused(msgs, n) {
      var i :| 0 <= i < n && Stored(msgs[i]);
      MineKeepsOrder(msgs, i, n);
      JobStream.GrammarIsSafe(Mine(msgs));
    }
  }

  /** One outside it can: a picture, then a failure. */
  lemma ShownAndStillHandedOn()
    ensures exists msgs: seq<Incoming> :: GaveNothing(msgs, false, false) && ShownBefore(msgs, StopAt(msgs, 0))
  {
    var picture := Incoming(true, JobStream.Result, false, false, false, true, true);
    var failure := Incoming(true, JobStream.Failed, true, false, false, true, true);
    var msgs := [picture, failure];
    assert Stored(msgs[0]);
    assert KeptThenRefused(msgs, 1);
    HandedOnWithAnAnswerExactly(msgs, false, false);
  }

  // --------------------------------------------------------------- handing on

  /** `rest` is all else a request holds. */
  datatype Payload = Payload(isLlm: bool, modelId: Option<string>, rest: string)

  function ForModel(p: Payload, model: string): Payload {
    if p.isLlm && p.modelId.Some? && p.modelId != Some(model) then p.(modelId := Some(model)) else p
  }

  datatype Try = Try(peerId: string, payload: Payload)

  function Known(list: seq<Offer>, known: string -> bool): seq<Offer> {
    if list == [] then [] else
    Known(list[..|list| - 1], known) + if known(list[|list| - 1].peerId) then [list[|list| - 1]] else []
  }

  lemma {:induction false} KnownIsShorter(list: seq<Offer>, known: string -> bool)
    ensures |Known(list, known)| <= |list|
    ensures forall o :: o in Known(list, known) <==> o in list && known(o.peerId)
  {
    if list != [] { KnownIsShorter(list[..|list| - 1], known); }
  }

  lemma {:induction false} KnownPrefix(list: seq<Offer>, known: string -> bool, n: nat)
    requires n <= |list|
    ensures Known(list[..n], known) <= Known(list, known)
  {
    if n < |list| {
      KnownPrefix(list[..|list| - 1], known, n);
      assert list[..|list| - 1][..n] == list[..n];
    } else {
      assert list[..n] == list;
    }
  }

  /** `next.find_map(get_peer)`: skip the fallbacks that are gone. */
  method NextKnown(list: seq<Offer>, known: string -> bool, from: nat) returns (at: nat)
    requires from <= |list|
    ensures from <= at <= |list| && (at < |list| ==> known(list[at].peerId))
    ensures Known(list[..at], known) == Known(list[..from], known)
  {
    at := from;
    while at < |list| && !known(list[at].peerId)
      invariant from <= at <= |list| && Known(list[..at], known) == Known(list[..from], known)
    {
      assert list[..at + 1][..at] == list[..at];
      at := at + 1;
    }
  }

  /** What a run of tries has to show for itself. */
  ghost predicate TriesFollow(tries: seq<Try>, first: string, payload: Payload, alternates: seq<Offer>) {
    && 1 <= |tries| <= 1 + |alternates| && tries[0] == Try(first, payload)
    && forall i | 1 <= i < |tries| :: tries[i].peerId == alternates[i - 1].peerId && IsAskedFor(tries[i].payload, payload, alternates[i - 1].model)
  }

  /** The user's request, but for the model of a text request that names one: it is asked for another. */
  predicate IsAskedFor(asked: Payload, payload: Payload, model: string) {
    && asked.isLlm == payload.isLlm && asked.rest == payload.rest
    && asked.modelId == (if payload.isLlm && payload.modelId.Some? then Some(model) else payload.modelId)
  }

  lemma KnownStep(list: seq<Offer>, known: string -> bool, next: nat)
    requires next < |list| && known(list[next].peerId)
    ensures Known(list[..next + 1], known) == Known(list[..next], known) + [list[next]] <= Known(list, known)
  {
    assert list[..next + 1][..next] == list[..next];
    KnownPrefix(list, known, next + 1);
  }

  lemma OneMoreTry(tries: seq<Try>, first: string, payload: Payload, used: seq<Offer>, f: Offer)
    requires TriesFollow(tries, first, payload, used) && |tries| == 1 + |used|
    ensures TriesFollow(tries + [Try(f.peerId, ForModel(tries[|tries| - 1].payload, f.model))], first, payload, used + [f])
  {}

  lemma FollowsMore(tries: seq<Try>, first: string, payload: Payload, used: seq<Offer>, all: seq<Offer>)
    requires TriesFollow(tries, first, payload, used) && used <= all
    ensures TriesFollow(tries, first, payload, all) && |used| <= |all| && (|used| == |all| ==> used == all)
  {}

  /** Each of the first `n` tries gave nothing, was not stopped, and its job went to the next. */
  ghost predicate HandedOn(n: nat, outcomes: nat -> Outcome, stopAsked: nat -> bool, reassigns: nat -> bool) {
    forall i | 0 <= i < n :: outcomes(i) == Nothing && !stopAsked(i) && reassigns(i)
  }

  lemma OneMoreHandedOn(n: nat, outcomes: nat -> Outcome, stopAsked: nat -> bool, reassigns: nat -> bool)
    requires HandedOn(n, outcomes, stopAsked, reassigns) && outcomes(n) == Nothing && !stopAsked(n) && reassigns(n)
    ensures HandedOn(n + 1, outcomes, stopAsked, reassigns)
  {}

  /** Try the first provider, then each fallback still known, until one settles the job, the user
      stops it, or nobody is left. */
  method Submit(first: string, payload: Payload, list: seq<Offer>, known: string -> bool,
                outcomes: nat -> Outcome, stopAsked: nat -> bool, reassigns: nat -> bool)
    returns (tries: seq<Try>, settled: bool)
    ensures TriesFollow(tries, first, payload, Known(list, known)) && |tries| <= 1 + |list|
    ensures |tries| >= 1 && HandedOn(|tries| - 1, outcomes, stopAsked, reassigns)
    ensures settled <==> outcomes(|tries| - 1) == Settled
    ensures !settled ==> || stopAsked(|tries| - 1) || |tries| == 1 + |Known(list, known)| || !reassigns(|tries| - 1)
  {
    KnownIsShorter(list, known);
    assert list[..0] == [];
    tries := [Try(first, payload)];
    var next := 0;
    ghost var used: seq<Offer> := [];
    while true
      invariant next <= |list| && used == Known(list[..next], known)
      invariant |tries| == 1 + |used| && used <= Known(list, known)
      invariant TriesFollow(tries, first, payload, used)
      invariant HandedOn(|tries| - 1, outcomes, stopAsked, reassigns)
      decreases |list| - next
    {
      var now := |tries| - 1;
      FollowsMore(tries, first, payload, used, Known(list, known));
      if outcomes(now) == Settled { return tries, true; }
      if stopAsked(now) { return tries, false; }
      next := NextKnown(list, known, next);
      if next == |list| {
        assert list[..next] == list;
        return tries, false;
      }
      if !reassigns(now) { return tries, false; }
      var f := list[next];
      KnownStep(list, known, next);
      next := next + 1;
      OneMoreTry(tries, first, payload, used, f);
      OneMoreHandedOn(now, outcomes, stopAsked, reassigns);
      used := used + [f];
      tries := tries + [Try(f.peerId, ForModel(tries[now].payload, f.model))];
    }
  }
}
