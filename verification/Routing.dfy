/** Choosing who runs a job (routing.rs). Prices are in cents. */
module Routing {
  import opened Wrappers
  import opened U64
  import opened Pricing
  import opened Sorting
  import opened Draws

  datatype Kind = Llm | Image | Video

  datatype Model = Model(id: string, kind: Kind, price: Option<Price>)

  datatype Peer = Peer(id: string, name: string, online: bool, models: seq<Model>)

  datatype ModelOption = ModelOption(model: string, providers: nat, peerId: string, peerLabel: string, price: nat, unpriced: bool)

  /** What a listing is ranked by: its dearest rate, and free when it names no price. */
  function Amount(m: Model): nat {
    if m.price.None? then 0 else
    var p, top := m.price.value, Usd(MaxRate(LlmRates(m.price.value)));
    CeilCents(if p.amount >= top then p.amount else top)
  }

  /** A listing is ranked by the greater of its price and its dearest rate, in whole cents. */
  lemma AmountIsTheDearest(m: Model)
    ensures m.price.None? ==> Amount(m) == 0
    ensures m.price.Some? ==> Amount(m) == Max(CeilCents(m.price.value.amount), MaxRate(LlmRates(m.price.value)))
  {
    if m.price.Some? {
      var x, top := m.price.value.amount, MaxRate(LlmRates(m.price.value));
      CeilCentsOfCents(top);
      if x > 0.0 { CeilCentsBounds(x); }
    }
  }

  // ------------------------------------------------------------------ offers

  function OfferOf(peer: Peer, m: Model): Offer {
    Offer(peer.id, peer.name, m.id, Amount(m), m.price.None? || IsFree(m.price.value))
  }

  /** What the first `n` models of one peer offer of a kind. */
  function OffersOf(peer: Peer, kind: Kind, n: nat): seq<Offer>
    requires n <= |peer.models|
  {
    if n == 0 then [] else
    OffersOf(peer, kind, n - 1) + if peer.models[n - 1].kind == kind then [OfferOf(peer, peer.models[n - 1])] else []
  }

  /** What everyone online offers of a kind, in the order the source meets it. */
  function Offers(peers: seq<Peer>, kind: Kind): seq<Offer> {
    if peers == [] then [] else
    var last := peers[|peers| - 1];
    Offers(peers[..|peers| - 1], kind) + if last.online then OffersOf(last, kind, |last.models|) else []
  }

  /** An offer is on the table exactly when somebody online lists it. */
  lemma {:induction false} OffersOfAreListed(peer: Peer, kind: Kind, n: nat)
    requires n <= |peer.models|
    ensures forall o :: o in OffersOf(peer, kind, n) <==>
              exists k :: 0 <= k < n && peer.models[k].kind == kind && o == OfferOf(peer, peer.models[k])
  {
    if n > 0 { OffersOfAreListed(peer, kind, n - 1); }
  }

  ghost predicate Lists(peers: seq<Peer>, kind: Kind, o: Offer) {
    exists i, k :: 0 <= i < |peers| && peers[i].online && 0 <= k < |peers[i].models|
                   && peers[i].models[k].kind == kind && o == OfferOf(peers[i], peers[i].models[k])
  }

  lemma ListsAppend(peers: seq<Peer>, p: Peer, kind: Kind, o: Offer)
    ensures Lists(peers + [p], kind, o) <==> Lists(peers, kind, o) || Lists([p], kind, o)
  {
    var all := peers + [p];
    if Lists(peers, kind, o) {
      var i, k :| 0 <= i < |peers| && peers[i].online && 0 <= k < |peers[i].models|
                  && peers[i].models[k].kind == kind && o == OfferOf(peers[i], peers[i].models[k]);
      assert all[i] == peers[i];
    }
    if Lists([p], kind, o) { assert all[|peers|] == p; }
    if Lists(all, kind, o) {
      var i, k :| 0 <= i < |all| && all[i].online && 0 <= k < |all[i].models|
                  && all[i].models[k].kind == kind && o == OfferOf(all[i], all[i].models[k]);
      if i < |peers| { assert peers[i] == all[i]; } else { assert [p][0] == all[i]; }
    }
  }

  lemma OneLists(p: Peer, kind: Kind, o: Offer)
    ensures Lists([p], kind, o) <==> p.online && o in OffersOf(p, kind, |p.models|)
  {
    OffersOfAreListed(p, kind, |p.models|);
    assert [p][0] == p;
  }

  lemma {:induction false} OffersAreListed(peers: seq<Peer>, kind: Kind)
    ensures forall o :: o in Offers(peers, kind) <==> Lists(peers, kind, o)
  {
    if peers != [] {
      var n := |peers| - 1;
      OffersAreListed(peers[..n], kind);
      forall o ensures o in Offers(peers, kind) <==> Lists(peers, kind, o) {
        assert peers[..n] + [peers[n]] == peers;
        ListsAppend(peers[..n], peers[n], kind, o);
        OneLists(peers[n], kind, o);
      }
    }
  }

  function CountOf(offers: seq<Offer>, m: string): nat {
    if offers == [] then 0 else
    CountOf(offers[..|offers| - 1], m) + if offers[|offers| - 1].model == m then 1 else 0
  }

  /** The count is the number of offers of the model. */
  lemma {:induction false} CountIsExact(offers: seq<Offer>, m: string)
    ensures CountOf(offers, m) == |Serving(offers, m)|
  {
    if offers != [] {
      var n := |offers| - 1;
      CountIsExact(offers[..n], m);
      assert Serving(offers, m) == Serving(offers[..n], m) + if offers[n].model == m then {n} else {};
    }
  }

  function Serving(offers: seq<Offer>, m: string): set<nat> { set i: nat | i < |offers| && offers[i].model == m }

  // ------------------------------------------------------------ model options

  /** The row a model gets: how many offer it, and the offer the draws left in place. */
  function RowOf(offers: seq<Offer>, draws: seq<nat>, m: string): ModelOption
    requires |draws| == |offers| && Stand(offers, m).Listed?
  {
    HolderHolds(offers, draws, m);
    var o := offers[Holder(offers, draws, m)];
    ModelOption(m, CountOf(offers, m), o.peerId, o.peerLabel, o.price, o.unpriced)
  }

  /** Whatever the draws, the place is held by an offer of the model at its least price. */
  lemma {:induction false} HolderHolds(offers: seq<Offer>, draws: seq<nat>, m: string)
    requires |draws| == |offers| && Stand(offers, m).Listed?
    ensures Tied(offers, m, Holder(offers, draws, m))
  {
    var n := |offers| - 1;
    if Stand(offers[..n], m).Listed? { HolderHolds(offers[..n], draws[..n], m); }
  }

  /** What a row's flag is said to mean. */
  predicate NobodyPriced(offers: seq<Offer>, m: string) {
    forall i | 0 <= i < |offers| && offers[i].model == m :: offers[i].unpriced
  }

  /** The flag is the held offer's alone. It says that nobody named a price, whatever is drawn, exactly
      when nobody did, or when no offer at the least price is without one. */
  lemma UnpricedMeansNobodyPricedExactly(offers: seq<Offer>, m: string)
    requires Stand(offers, m).Listed?
    ensures (forall draws | draws in Vectors(offers) && |draws| == |offers| :: RowOf(offers, draws, m).unpriced == NobodyPriced(offers, m))
            <==> NobodyPriced(offers, m) || forall j: nat | Tied(offers, m, j) :: !offers[j].unpriced
  {
    forall draws | draws in Vectors(offers) && |draws| == |offers|
      ensures Tied(offers, m, Holder(offers, draws, m)) && RowOf(offers, draws, m).unpriced == offers[Holder(offers, draws, m)].unpriced
    {
      HolderHolds(offers, draws, m);
    }
    if !NobodyPriced(offers, m) && exists j: nat :: Tied(offers, m, j) && offers[j].unpriced {
      var j: nat :| Tied(offers, m, j) && offers[j].unpriced;
      var draws := EveryTieIsChosen(offers, m, j);
      assert RowOf(offers, draws, m).unpriced;
    }
  }

  /** One provider without a price and one with: the row is marked as if nobody had named one. */
  lemma OnePricedAndStillUnpriced(a: Peer, free: Model, b: Peer, dear: Model, draws: seq<nat>)
    requires free.price.None? && dear.price.Some? && !IsFree(dear.price.value) && Amount(dear) > 0
    requires dear.id == free.id && |draws| == 2
    ensures var offers := [OfferOf(a, free), OfferOf(b, dear)];
            && Stand(offers, free.id).Listed?
            && RowOf(offers, draws, free.id).unpriced && !NobodyPriced(offers, free.id)
  {
    var offers := [OfferOf(a, free), OfferOf(b, dear)];
    assert offers[..1] == [OfferOf(a, free)] && offers[..1][..0] == [];
    assert Stand(offers[..1], free.id) == Listed(0, 1);
    HolderHolds(offers, draws, free.id);
    assert !offers[1].unpriced;
  }

  /** Every row is its model's, and no model has two. */
  ghost predicate RowsAgree(options: seq<ModelOption>, offers: seq<Offer>, draws: seq<nat>)
    requires |draws| == |offers|
  {
    && (forall i | 0 <= i < |options| :: Stand(offers, options[i].model).Listed? && options[i] == RowOf(offers, draws, options[i].model))
    && (forall i, j | 0 <= i < j < |options| :: options[i].model != options[j].model)
  }

  /** Every model offered has a row, and its ties are counted. */
  ghost predicate TiesAgree(options: seq<ModelOption>, ties: map<string, nat>, offers: seq<Offer>) {
    && (forall m :: Stand(offers, m).Listed? <==> m in ties)
    && (forall m | m in ties :: ties[m] == Stand(offers, m).ties && HasRow(options, m))
  }

  ghost predicate HasRow(options: seq<ModelOption>, m: string) {
    exists i :: 0 <= i < |options| && options[i].model == m
  }

  /** The table under construction agrees with the offers met and the values drawn so far. */
  ghost predicate Tabulates(options: seq<ModelOption>, ties: map<string, nat>, offers: seq<Offer>, draws: seq<nat>) {
    && |draws| == |offers| && draws in Vectors(offers)
    && RowsAgree(options, offers, draws) && TiesAgree(options, ties, offers)
  }

  lemma OfferAdds(offers: seq<Offer>, draws: seq<nat>, c: Offer, r: nat, m: string)
    requires |draws| == |offers|
    ensures m != c.model ==> && Stand(offers + [c], m) == Stand(offers, m)
                             && Holder(offers + [c], draws + [r], m) == Holder(offers, draws, m)
    ensures CountOf(offers + [c], m) == CountOf(offers, m) + if c.model == m then 1 else 0
    ensures var was := Stand(offers, c.model);
            && (was.Unlisted? || c.price < was.price ==>
                  Stand(offers + [c], c.model) == Listed(c.price, 1) && Holder(offers + [c], draws + [r], c.model) == |offers|
                  && Spread(offers + [c]) == 1)
            && (was.Listed? && c.price == was.price ==>
                  Stand(offers + [c], c.model) == Listed(c.price, was.ties + 1) && Spread(offers + [c]) == was.ties + 1
                  && Holder(offers + [c], draws + [r], c.model) == if r == 0 then |offers| else Holder(offers, draws, c.model))
            && (was.Listed? && c.price > was.price ==>
                  Stand(offers + [c], c.model) == was && Spread(offers + [c]) == 1
                  && Holder(offers + [c], draws + [r], c.model) == Holder(offers, draws, c.model))
    ensures draws in Vectors(offers) && r < Spread(offers + [c]) ==> draws + [r] in Vectors(offers + [c])
  {
    assert (offers + [c])[..|offers|] == offers && (draws + [r])[..|draws|] == draws;
  }

  lemma RowsAddUp(offers: seq<Offer>, draws: seq<nat>, c: Offer, r: nat, m: string)
    requires |draws| == |offers| && Stand(offers, m).Listed?
    ensures Stand(offers + [c], m).Listed?
    ensures m != c.model ==> RowOf(offers + [c], draws + [r], m) == RowOf(offers, draws, m)
    ensures m == c.model ==>
              var took := Holder(offers + [c], draws + [r], m) == |offers|;
              var was, now := RowOf(offers, draws, m), RowOf(offers + [c], draws + [r], m);
              now == if took then ModelOption(m, was.providers + 1, c.peerId, c.peerLabel, c.price, c.unpriced)
                     else was.(providers := was.providers + 1)
  {
    OfferAdds(offers, draws, c, r, m);
    HolderHolds(offers, draws, m);
    HolderHolds(offers + [c], draws + [r], m);
  }

  /** The one row a new offer touches, put in its place. */
  function Put(options: seq<ModelOption>, at: nat, row: ModelOption): seq<ModelOption>
    requires at <= |options|
  {
    if at == |options| then options + [row] else options[at := row]
  }

  ghost predicate FirstOf(options: seq<ModelOption>, m: string, at: nat) {
    at <= |options| && (forall i | 0 <= i < at :: options[i].model != m) && (at < |options| ==> options[at].model == m)
  }

  lemma RowsGrow(options: seq<ModelOption>, offers: seq<Offer>, draws: seq<nat>, c: Offer, r: nat, at: nat, row: ModelOption)
    requires |draws| == |offers| && RowsAgree(options, offers, draws) && FirstOf(options, c.model, at)
    requires Stand(offers + [c], c.model).Listed? && row == RowOf(offers + [c], draws + [r], c.model)
    ensures RowsAgree(Put(options, at, row), offers + [c], draws + [r])
  {
    var options' := Put(options, at, row);
    forall i | 0 <= i < |options'|
      ensures Stand(offers + [c], options'[i].model).Listed? && options'[i] == RowOf(offers + [c], draws + [r], options'[i].model)
    {
      if i != at { RowsAddUp(offers, draws, c, r, options[i].model); }
    }
  }

  lemma TiesGrow(options: seq<ModelOption>, ties: map<string, nat>, offers: seq<Offer>, draws: seq<nat>, c: Offer, at: nat, row: ModelOption)
    requires |draws| == |offers| && TiesAgree(options, ties, offers) && FirstOf(options, c.model, at)
    requires Stand(offers + [c], c.model).Listed? && row.model == c.model
    ensures TiesAgree(Put(options, at, row), ties[c.model := Stand(offers + [c], c.model).ties], offers + [c])
  {
    var options' := Put(options, at, row);
    forall m ensures m != c.model ==> Stand(offers + [c], m) == Stand(offers, m) { OfferAdds(offers, draws, c, 0, m); }
    forall m | m == c.model || HasRow(options, m) ensures HasRow(options', m) {
      if m == c.model { assert options'[at].model == m; }
      else {
        var i :| 0 <= i < |options| && options[i].model == m;
        assert options'[i].model == m;
      }
    }
  }

  lemma TableGrows(options: seq<ModelOption>, ties: map<string, nat>, offers: seq<Offer>, draws: seq<nat>,
                   c: Offer, r: nat, at: nat, row: ModelOption)
    requires Tabulates(options, ties, offers, draws) && r < Spread(offers + [c]) && FirstOf(options, c.model, at)
    requires Stand(offers + [c], c.model).Listed? && row == RowOf(offers + [c], draws + [r], c.model)
    ensures Tabulates(Put(options, at, row), ties[c.model := Stand(offers + [c], c.model).ties], offers + [c], draws + [r])
  {
    OfferAdds(offers, draws, c, r, c.model);
    RowsGrow(options, offers, draws, c, r, at, row);
    TiesGrow(options, ties, offers, draws, c, at, row);
  }

  /** One more offer: a new row, or one more provider of an old one, which it takes over when it is
      cheaper, or, at the same price, when a draw from one more than have tied comes out 0. */
  method Consider(options: seq<ModelOption>, ties: map<string, nat>, c: Offer, ghost offers: seq<Offer>, ghost draws: seq<nat>)
    returns (options': seq<ModelOption>, ties': map<string, nat>, ghost draws': seq<nat>)
    requires Tabulates(options, ties, offers, draws)
    ensures Tabulates(options', ties', offers + [c], draws')
  {
    options', ties' := options, ties;
    var at := 0;
    while at < |options| && options[at].model != c.model
      invariant 0 <= at <= |options|
      invariant forall i | 0 <= i < at :: options[i].model != c.model
    {
      at := at + 1;
    }
    var drawn: nat := 0;
    ghost var was := Stand(offers, c.model);
    OfferAdds(offers, draws, c, drawn, c.model);
    if at == |options| {
      HolderHolds(offers + [c], draws + [drawn], c.model);
      NobodyCounts(offers, c.model);
      var row := ModelOption(c.model, 1, c.peerId, c.peerLabel, c.price, c.unpriced);
      ties' := ties[c.model := 1];
      options' := options + [row];
      TableGrows(options, ties, offers, draws, c, drawn, at, row);
    } else {
      var existing := options[at].(providers := options[at].providers + 1);
      HolderHolds(offers, draws, c.model);
      HolderInRange(offers, draws, c.model);
      var take := false;
      if c.price < existing.price {
        ties' := ties[c.model := 1];
        take := true;
      } else if c.price == existing.price {
        var n := ties[c.model] + 1;
        ties' := ties[c.model := n];
        drawn :| 0 <= drawn < n;
        take := drawn == 0;
      }
      RowsAddUp(offers, draws, c, drawn, c.model);
      OfferAdds(offers, draws, c, drawn, c.model);
      var row := if take then ModelOption(c.model, existing.providers, c.peerId, c.peerLabel, c.price, c.unpriced) else existing;
      options' := options[at := row];
      assert ties' == ties[c.model := Stand(offers + [c], c.model).ties];
      TableGrows(options, ties, offers, draws, c, drawn, at, row);
    }
    draws' := draws + [drawn];
  }

  lemma {:induction false} NobodyCounts(offers: seq<Offer>, m: string)
    requires Stand(offers, m).Unlisted?
    ensures CountOf(offers, m) == 0
  {
    if offers != [] { NobodyCounts(offers[..|offers| - 1], m); }
  }

  predicate CheaperRow(a: ModelOption, b: ModelOption) {
    a.price < b.price || (a.price == b.price && LexLe(a.model, b.model))
  }

  lemma RowsOrder()
    ensures Ordering(CheaperRow)
  {
    forall a: ModelOption, b: ModelOption ensures CheaperRow(a, b) || CheaperRow(b, a) { LexTotal(a.model, b.model); }
    forall a: ModelOption, b: ModelOption, c: ModelOption | CheaperRow(a, b) && CheaperRow(b, c) ensures CheaperRow(a, c) {
      if a.price == b.price == c.price { LexTransitive(a.model, b.model, c.model); }
    }
  }

  lemma Regroup<T>(a: seq<T>, b: seq<T>, c: seq<T>)
    ensures a + b + c == a + (b + c)
    ensures a + b + [] == a + b
  {}

  lemma NextOffer(offers: seq<Offer>, peer: Peer, kind: Kind, k: nat)
    requires k < |peer.models|
    ensures var met := offers + OffersOf(peer, kind, k);
            offers + OffersOf(peer, kind, k + 1) == if peer.models[k].kind == kind then met + [OfferOf(peer, peer.models[k])] else met
  {
    Regroup(offers, OffersOf(peer, kind, k), if peer.models[k].kind == kind then [OfferOf(peer, peer.models[k])] else []);
  }

  /** The inner loop: one online peer's models of the kind. */
  method TabulatePeer(peer: Peer, kind: Kind, options: seq<ModelOption>, ties: map<string, nat>,
                      ghost offers: seq<Offer>, ghost draws: seq<nat>)
    returns (options': seq<ModelOption>, ties': map<string, nat>, ghost draws': seq<nat>)
    requires Tabulates(options, ties, offers, draws)
    ensures Tabulates(options', ties', offers + OffersOf(peer, kind, |peer.models|), draws')
  {
    options', ties', draws' := options, ties, draws;
    ghost var met := offers;
    assert offers + [] == offers;
    for k := 0 to |peer.models|
      invariant met == offers + OffersOf(peer, kind, k)
      invariant Tabulates(options', ties', met, draws')
    {
      NextOffer(offers, peer, kind, k);
      if peer.models[k].kind == kind {
        var c := OfferOf(peer, peer.models[k]);
        options', ties', draws' := Consider(options', ties', c, met, draws');
        met := met + [c];
      }
    }
  }

  /** Every offer met once, in order. */
  method Tabulate(peers: seq<Peer>, kind: Kind)
    returns (options: seq<ModelOption>, ties: map<string, nat>, ghost draws: seq<nat>)
    ensures Tabulates(options, ties, Offers(peers, kind), draws)
  {
    options, ties, draws := [], map[], [];
    ghost var met: seq<Offer> := [];
    for i := 0 to |peers|
      invariant met == Offers(peers[..i], kind)
      invariant Tabulates(options, ties, met, draws)
    {
      assert peers[..i + 1][..i] == peers[..i];
      if peers[i].online {
        options, ties, draws := TabulatePeer(peers[i], kind, options, ties, met, draws);
        met := met + OffersOf(peers[i], kind, |peers[i].models|);
      }
    }
    assert peers[..|peers|] == peers;
  }

  /** Every model on offer, one row each, cheapest first and then by name. The values drawn are any
      the generator can give: `draws` records them. */
  method ModelOptions(peers: seq<Peer>, kind: Kind) returns (options: seq<ModelOption>, ghost draws: seq<nat>)
    ensures |draws| == |Offers(peers, kind)| && draws in Vectors(Offers(peers, kind))
    ensures forall i, j | 0 <= i < j < |options| ::
              options[i].price < options[j].price || (options[i].price == options[j].price && ComesBefore(options[i].model, options[j].model))
    ensures forall i, j | 0 <= i < j < |options| :: options[i].model != options[j].model
    ensures forall row | row in options ::
              Stand(Offers(peers, kind), row.model).Listed? && row == RowOf(Offers(peers, kind), draws, row.model)
    ensures forall m | Stand(Offers(peers, kind), m).Listed? :: RowOf(Offers(peers, kind), draws, m) in options
  {
    var table, ties;
    table, ties, draws := Tabulate(peers, kind);
    RowsOrder();
    SortSorts(table, CheaperRow);
    options := SortBy(table, CheaperRow);
    TableRows(table, ties, Offers(peers, kind), draws);
    assert forall row :: row in options <==> row in multiset(options);
    assert forall row :: row in table <==> row in multiset(table);
    DistinctStaysDistinct(table, options);
    RowsAreInOrder(options);
  }

  lemma RowsAreInOrder(options: seq<ModelOption>)
    requires Sorted(options, CheaperRow)
    requires forall i, j | 0 <= i < j < |options| :: options[i].model != options[j].model
    ensures forall i, j | 0 <= i < j < |options| ::
              options[i].price < options[j].price || (options[i].price == options[j].price && ComesBefore(options[i].model, options[j].model))
  {
    forall i, j | 0 <= i < j < |options|
      ensures options[i].price < options[j].price || (options[i].price == options[j].price && ComesBefore(options[i].model, options[j].model))
    {
      assert CheaperRow(options[i], options[j]);
      LexLeExactly(options[i].model, options[j].model);
    }
  }

  lemma TableRows(options: seq<ModelOption>, ties: map<string, nat>, offers: seq<Offer>, draws: seq<nat>)
    requires Tabulates(options, ties, offers, draws)
    ensures forall row | row in options :: Stand(offers, row.model).Listed? && row == RowOf(offers, draws, row.model)
    ensures forall m | Stand(offers, m).Listed? :: RowOf(offers, draws, m) in options
  {
    forall m | Stand(offers, m).Listed? ensures RowOf(offers, draws, m) in options {
      var i :| 0 <= i < |options| && options[i].model == m;
      assert options[i] in options;
    }
  }

  lemma DistinctStaysDistinct(s: seq<ModelOption>, t: seq<ModelOption>)
    requires multiset(s) == multiset(t)
    requires forall i, j | 0 <= i < j < |s| :: s[i].model != s[j].model
    ensures forall i, j | 0 <= i < j < |t| :: t[i].model != t[j].model
  {
    forall i, j | 0 <= i < j < |t| ensures t[i].model != t[j].model {
      if t[i].model == t[j].model {
        assert t[i] in multiset(t) && t[j] in multiset(t);
        var a :| 0 <= a < |s| && s[a] == t[i];
        var b :| 0 <= b < |s| && s[b] == t[j];
        assert a == b;
        TwiceInBoth(s, t, i, j);
      }
    }
  }

  lemma TwiceInBoth<T>(s: seq<T>, t: seq<T>, i: nat, j: nat)
    requires i < j < |t| && t[i] == t[j] && multiset(s) == multiset(t)
    ensures exists a, b :: 0 <= a < b < |s| && s[a] == s[b]
  {
    var x := t[i];
    assert t == t[..i] + [x] + t[i + 1..j] + [x] + t[j + 1..];
    assert multiset(s)[x] >= 2;
    var a :| 0 <= a < |s| && s[a] == x;
    assert s == s[..a] + [x] + s[a + 1..];
    assert x in multiset(s[..a]) || x in multiset(s[a + 1..]);
    if x in s[..a] {
      var b :| 0 <= b < a && s[..a][b] == x;
      assert s[b] == s[a];
    } else {
      var b :| 0 <= b < |s| - a - 1 && s[a + 1..][b] == x;
      assert s[a] == s[a + 1 + b];
    }
  }

  // --------------------------------------------------------- provider options

  predicate CheaperOffer(a: Offer, b: Offer) {
    || a.price < b.price
    || (a.price == b.price && a.model != b.model && LexLe(a.model, b.model))
    || (a.price == b.price && a.model == b.model && LexLe(a.peerLabel, b.peerLabel))
  }

  lemma OffersOrder()
    ensures Ordering(CheaperOffer)
  {
    forall a: Offer, b: Offer ensures CheaperOffer(a, b) || CheaperOffer(b, a) {
      LexTotal(a.model, b.model);
      LexTotal(a.peerLabel, b.peerLabel);
    }
    forall a: Offer, b: Offer, c: Offer | CheaperOffer(a, b) && CheaperOffer(b, c) ensures CheaperOffer(a, c) {
      if a.price == b.price == c.price {
        if a.model == b.model == c.model { LexTransitive(a.peerLabel, b.peerLabel, c.peerLabel); }
        else if a.model != b.model && b.model != c.model {
          LexTransitive(a.model, b.model, c.model);
          if a.model == c.model { LexAntisymmetric(a.model, b.model); }
        }
      }
    }
  }

  /** Everyone serving anything of a kind, cheapest first. */
  function ProviderOptions(peers: seq<Peer>, kind: Kind): seq<Offer> { SortBy(Offers(peers, kind), CheaperOffer) }

  /** The long list is by price, then by model, then by the provider's label. */
  lemma ProviderOptionsAreInOrder(peers: seq<Peer>, kind: Kind)
    ensures var all := ProviderOptions(peers, kind);
            forall i, j | 0 <= i < j < |all| ::
              || all[i].price < all[j].price
              || (all[i].price == all[j].price && ComesBefore(all[i].model, all[j].model))
              || (all[i].price == all[j].price && all[i].model == all[j].model
                  && (all[i].peerLabel == all[j].peerLabel || ComesBefore(all[i].peerLabel, all[j].peerLabel)))
  {
    OffersOrder();
    SortSorts(Offers(peers, kind), CheaperOffer);
    var all := ProviderOptions(peers, kind);
    forall i, j | 0 <= i < j < |all| ensures CheaperOffer(all[i], all[j]) {}
    forall a: string, b: string ensures LexLe(a, b) <==> a == b || ComesBefore(a, b) { LexLeExactly(a, b); }
  }

  lemma {:induction false} CountFromTheFront(offers: seq<Offer>, m: string)
    requires offers != []
    ensures CountOf(offers, m) == CountOf(offers[1..], m) + if offers[0].model == m then 1 else 0
  {
    var n := |offers| - 1;
    if n > 0 {
      CountFromTheFront(offers[..n], m);
      assert offers[..n][1..] == offers[1..][..n - 1];
    }
  }

  lemma {:induction false} SortKeepsCounts(offers: seq<Offer>, m: string)
    ensures CountOf(SortBy(offers, CheaperOffer), m) == CountOf(offers, m)
  {
    if offers != [] {
      SortKeepsCounts(offers[1..], m);
      CountFromTheFront(offers, m);
      InsertCounts(offers[0], SortBy(offers[1..], CheaperOffer), m);
    }
  }

  lemma {:induction false} InsertCounts(o: Offer, offers: seq<Offer>, m: string)
    ensures CountOf(Insert(o, offers, CheaperOffer), m) == CountOf(offers, m) + if o.model == m then 1 else 0
  {
    CountFromTheFront(Insert(o, offers, CheaperOffer), m);
    if offers == [] || CheaperOffer(o, offers[0]) {
      assert Insert(o, offers, CheaperOffer)[1..] == offers;
    } else {
      assert Insert(o, offers, CheaperOffer)[1..] == Insert(o, offers[1..], CheaperOffer);
      InsertCounts(o, offers[1..], m);
      CountFromTheFront(offers, m);
    }
  }

  /** The row names this online provider, by id and by name, for this model of its list, at its price. */
  predicate Supplies(peers: seq<Peer>, kind: Kind, i: nat, k: nat, m: string, row: ModelOption) {
    && i < |peers| && peers[i].online && peers[i].id == row.peerId && peers[i].name == row.peerLabel
    && k < |peers[i].models| && peers[i].models[k].kind == kind && peers[i].models[k].id == m == row.model
    && row.price == Amount(peers[i].models[k])
    && (row.unpriced <==> peers[i].models[k].price.None? || IsFree(peers[i].models[k].price.value))
  }

  /** The short view is the long one collapsed: a model's row counts its providers, names one that
      asks the least of them, and exists exactly when somebody online lists it, whatever was drawn. */
  lemma ModelOptionsRefineProviderOptions(peers: seq<Peer>, kind: Kind, draws: seq<nat>, m: string)
    requires |draws| == |Offers(peers, kind)|
    ensures var all := ProviderOptions(peers, kind);
            && multiset(all) == multiset(Offers(peers, kind))
            && (forall o :: o in all <==> Lists(peers, kind, o))
            && (Stand(Offers(peers, kind), m).Listed? <==> exists o :: o in all && o.model == m)
            && (Stand(Offers(peers, kind), m).Listed? ==>
                  var row := RowOf(Offers(peers, kind), draws, m);
                  && row.providers == CountOf(all, m) >= 1
                  && row.providers == |Serving(Offers(peers, kind), m)|
                  && (forall o | o in all && o.model == m :: row.price <= o.price)
                  && (exists i, k :: Supplies(peers, kind, i, k, m, row))
                  && Offer(row.peerId, row.peerLabel, m, row.price, row.unpriced) in all)
  {
    var offers, all := Offers(peers, kind), ProviderOptions(peers, kind);
    OffersOrder();
    SortSorts(offers, CheaperOffer);
    assert forall o :: o in all <==> o in multiset(all);
    assert forall o :: o in offers <==> o in multiset(offers);
    assert forall o :: o in all <==> o in offers;
    OffersAreListed(peers, kind);
    StandIsLeast(offers, m);
    SortKeepsCounts(offers, m);
    if Stand(offers, m).Listed? {
      HolderHolds(offers, draws, m);
      var o := offers[Holder(offers, draws, m)];
      assert o in offers;
      ListedCounts(offers, m);
      CountIsExact(offers, m);
      var i, k :| 0 <= i < |peers| && peers[i].online && 0 <= k < |peers[i].models|
                  && peers[i].models[k].kind == kind && o == OfferOf(peers[i], peers[i].models[k]);
      assert Supplies(peers, kind, i, k, m, RowOf(offers, draws, m));
    } else {
      forall o | o in all ensures o.model != m { assert o in offers; }
    }
  }

  lemma {:induction false} ListedCounts(offers: seq<Offer>, m: string)
    requires Stand(offers, m).Listed?
    ensures CountOf(offers, m) >= 1
  {
    var n := |offers| - 1;
    if offers[n].model != m { ListedCounts(offers[..n], m); }
  }
}
