/** Which of several equal offers wins, over every sequence of random draws (routing.rs). */
module Draws {
  /** One online provider's listing of one model; the price is in cents. */
  datatype Offer = Offer(peerId: string, peerLabel: string, model: string, price: nat, unpriced: bool)

  // --------------------------------------------------- the running selection

  /** Where a model stands after some offers: its best price, and how many have tied for it. */
  datatype Standing = Unlisted | Listed(price: nat, ties: nat)

  function Stand(offers: seq<Offer>, m: string): Standing {
    if offers == [] then Unlisted else
    var before, o := Stand(offers[..|offers| - 1], m), offers[|offers| - 1];
    if o.model != m then before
    else if before.Unlisted? || o.price < before.price then Listed(o.price, 1)
    else if o.price == before.price then Listed(o.price, before.ties + 1)
    else before
  }

  /** How many values the draw for the last of these offers is taken from; 1 when none is drawn. */
  function Spread(offers: seq<Offer>): nat
    requires offers != []
  {
    var before, o := Stand(offers[..|offers| - 1], offers[|offers| - 1].model), offers[|offers| - 1];
    if before.Listed? && o.price == before.price then before.ties + 1 else 1
  }

  /** The offer that holds the model's place, as an index. A tie replaces it when its draw is 0. */
  function Holder(offers: seq<Offer>, draws: seq<nat>, m: string): nat
    requires |draws| == |offers|
  {
    if offers == [] then 0 else
    var n := |offers| - 1;
    var before, o, held := Stand(offers[..n], m), offers[n], Holder(offers[..n], draws[..n], m);
    if o.model != m then held
    else if before.Unlisted? || o.price < before.price then n
    else if o.price == before.price && draws[n] == 0 then n
    else held
  }

  function Extend(vs: set<seq<nat>>, n: nat): set<seq<nat>> {
    set v, r | v in vs && 0 <= r < n :: v + [r]
  }

  /** Every sequence of draws the generator can produce, one value to an offer. */
  function Vectors(offers: seq<Offer>): set<seq<nat>> {
    if offers == [] then {[]} else Extend(Vectors(offers[..|offers| - 1]), Spread(offers))
  }

  lemma {:induction false} VectorsFit(offers: seq<Offer>)
    ensures forall v | v in Vectors(offers) :: |v| == |offers|
  {
    if offers != [] { VectorsFit(offers[..|offers| - 1]); }
  }

  /** The sequences that leave offer `j` holding the place. */
  function Choosing(offers: seq<Offer>, m: string, j: nat): set<seq<nat>> {
    set v | v in Vectors(offers) && |v| == |offers| && Holder(offers, v, m) == j
  }

  /** `j` offers the model at the price it stands at. */
  predicate Tied(offers: seq<Offer>, m: string, j: nat) {
    j < |offers| && offers[j].model == m && Stand(offers, m).Listed? && offers[j].price == Stand(offers, m).price
  }

  // ---------------------------------------------------------------- counting

  lemma AppendInjective(u: seq<nat>, w: seq<nat>, r: nat, q: nat)
    requires u + [r] == w + [q]
    ensures u == w && r == q
  {
    assert (u + [r])[..|u|] == u && (w + [q])[..|w|] == w && (u + [r])[|u|] == r && (w + [q])[|w|] == q;
  }

  function Append(vs: set<seq<nat>>, r: nat): set<seq<nat>> { set v | v in vs :: v + [r] }

  lemma {:induction false} AppendCounts(vs: set<seq<nat>>, r: nat)
    ensures |Append(vs, r)| == |vs|
  {
    if vs != {} {
      var x :| x in vs;
      AppendCounts(vs - {x}, r);
      assert Append(vs, r) == Append(vs - {x}, r) + {x + [r]};
      forall v | v in vs - {x} ensures v + [r] != x + [r] {
        if v + [r] == x + [r] { AppendInjective(v, x, r, r); }
      }
    }
  }

  lemma InExtend(vs: set<seq<nat>>, n: nat, u: seq<nat>, r: nat)
    ensures u + [r] in Extend(vs, n) <==> u in vs && r < n
  {
    forall w, q: nat | u + [r] == w + [q] { AppendInjective(u, w, r, q); }
  }

  lemma Regroup(a: nat, b: nat)
    ensures a * b + a == a * (b + 1)
  {}

  lemma LastDraw(vs: set<seq<nat>>, n: nat)
    requires n > 0
    ensures Extend(vs, n) == Extend(vs, n - 1) + Append(vs, n - 1) && Extend(vs, n - 1) !! Append(vs, n - 1)
  {
    var rest, last := Extend(vs, n - 1), Append(vs, n - 1);
    forall v | v in rest ensures v !in last {
      assert v[|v| - 1] < n - 1;
    }
  }

  lemma UnionCounts(a: set<seq<nat>>, b: set<seq<nat>>)
    requires a !! b
    ensures |a + b| == |a| + |b|
  {}

  lemma ExtendOnce(vs: set<seq<nat>>, n: nat)
    requires n > 0
    ensures |Extend(vs, n)| == |Extend(vs, n - 1)| + |vs|
  {
    LastDraw(vs, n);
    UnionCounts(Extend(vs, n - 1), Append(vs, n - 1));
    AppendCounts(vs, n - 1);
  }

  lemma ExtendByNone(vs: set<seq<nat>>)
    ensures |Extend(vs, 0)| == 0
  {
    assert Extend(vs, 0) == {};
  }

  lemma {:induction false} ExtendCounts(vs: set<seq<nat>>, n: nat)
    ensures |Extend(vs, n)| == |vs| * n
  {
    if n == 0 {
      ExtendByNone(vs);
    } else {
      ExtendCounts(vs, n - 1);
      ExtendOnce(vs, n);
      Regroup(|vs|, n - 1);
    }
  }

  lemma HolderStep(offers: seq<Offer>, u: seq<nat>, r: nat, m: string)
    requires offers != [] && |u| == |offers| - 1
    ensures var n := |offers| - 1; var was, o, held := Stand(offers[..n], m), offers[n], Holder(offers[..n], u, m);
            Holder(offers, u + [r], m)
            == if o.model != m then held
               else if was.Unlisted? || o.price < was.price then n
               else if o.price == was.price && r == 0 then n else held
    ensures |offers| > 1 ==> Holder(offers[..|offers| - 1], u, m) < |offers| - 1
  {
    assert (u + [r])[..|u|] == u;
    HolderInRange(offers[..|offers| - 1], u, m);
  }

  lemma {:induction false} HolderInRange(offers: seq<Offer>, draws: seq<nat>, m: string)
    requires |draws| == |offers|
    ensures offers == [] || Holder(offers, draws, m) < |offers|
  {
    if offers != [] { HolderInRange(offers[..|offers| - 1], draws[..|offers| - 1], m); }
  }

  /** What one more offer does to the sequences that choose `j`: all of them, one value of the draw
      each, all values but that one, or every value. */
  function Chosen(offers: seq<Offer>, m: string, j: nat): set<seq<nat>>
    requires offers != []
  {
    var n, before := |offers| - 1, offers[..|offers| - 1];
    var o, s, was := offers[n], Spread(offers), Stand(before, m);
    var tie := o.model == m && was.Listed? && o.price == was.price;
    if j == n then Extend(Vectors(before), if tie then 1 else s)
    else if tie then Extend(Choosing(before, m, j), s) - Extend(Choosing(before, m, j), 1)
    else Extend(Choosing(before, m, j), s)
  }

  lemma ChoosingExtends(offers: seq<Offer>, m: string, j: nat)
    requires Tied(offers, m, j)
    ensures Choosing(offers, m, j) == Chosen(offers, m, j)
  {
    var before := offers[..|offers| - 1];
    VectorsFit(before);
    forall u, r: nat | u in Vectors(before) && r < Spread(offers)
      ensures u + [r] in Choosing(offers, m, j) <==> u + [r] in Chosen(offers, m, j)
    {
      ChosenStep(offers, m, j, u, r);
    }
  }

  lemma ChosenStep(offers: seq<Offer>, m: string, j: nat, u: seq<nat>, r: nat)
    requires Tied(offers, m, j) && |u| == |offers| - 1
    requires u in Vectors(offers[..|offers| - 1]) && r < Spread(offers)
    ensures u + [r] in Choosing(offers, m, j) <==> u + [r] in Chosen(offers, m, j)
  {
    var before := offers[..|offers| - 1];
    StandIsLeast(before, m);
    assert j < |offers| - 1 ==> before[j] == offers[j];
    HolderStep(offers, u, r, m);
    InExtend(Vectors(before), Spread(offers), u, r);
    InExtend(Vectors(before), 1, u, r);
    InExtend(Choosing(before, m, j), Spread(offers), u, r);
    InExtend(Choosing(before, m, j), 1, u, r);
  }

  lemma {:induction false} StandIsLeast(offers: seq<Offer>, m: string)
    ensures Stand(offers, m).Unlisted? <==> forall i | 0 <= i < |offers| :: offers[i].model != m
    ensures Stand(offers, m).Listed? ==>
              forall i | 0 <= i < |offers| && offers[i].model == m :: Stand(offers, m).price <= offers[i].price
  {
    if offers != [] {
      var before := offers[..|offers| - 1];
      StandIsLeast(before, m);
      assert forall i | 0 <= i < |before| :: offers[i] == before[i];
    }
  }

  function AllTied(offers: seq<Offer>, m: string): set<nat> { set i: nat | i < |offers| && Tied(offers, m, i) }

  /** ... and it counts the offers that stand there, of which there is one at least. */
  lemma {:induction false} TiesAreCounted(offers: seq<Offer>, m: string)
    ensures Stand(offers, m).Listed? ==> Stand(offers, m).ties == |AllTied(offers, m)| >= 1
  {
    if Stand(offers, m).Listed? {
      TiesAreCounted(offers[..|offers| - 1], m);
      OneMoreTied(offers, m);
    }
  }

  lemma OneMoreTied(offers: seq<Offer>, m: string)
    requires Stand(offers, m).Listed?
    ensures var n := |offers| - 1; var o, was := offers[n], Stand(offers[..n], m);
            AllTied(offers, m) == if o.model != m || (was.Listed? && o.price > was.price) then AllTied(offers[..n], m)
                                  else if was.Listed? && o.price == was.price then AllTied(offers[..n], m) + {n}
                                  else {n}
  {
    var n := |offers| - 1;
    StandIsLeast(offers[..n], m);
    forall i: nat | i < n ensures Tied(offers, m, i) <==> Tied(offers[..n], m, i) && Stand(offers, m).price == Stand(offers[..n], m).price {
      assert offers[i] == offers[..n][i];
    }
    assert forall i: nat :: i in AllTied(offers, m) <==> Tied(offers, m, i);
    assert forall i: nat :: i in AllTied(offers[..n], m) <==> Tied(offers[..n], m, i);
  }

  /** The counting step: the share of an offer already tied, of a new tie, of any other offer. */
  lemma Shares(ties: nat, c: nat, w: nat, s: nat)
    requires ties * c == w
    ensures (ties + 1) * (c * (ties + 1) - c * 1) == w * (ties + 1)
    ensures ties * (c * s) == w * s
  {
    assert c * (ties + 1) - c * 1 == w;
  }

  /** Tie-breaking is exactly uniform: wherever dearer and cheaper offers, and offers of other
      models, fall among them, each of the k providers tied at a model's least price is chosen by
      exactly one in k of the sequences the generator can draw. */
  lemma {:induction false} TiesAreUniform(offers: seq<Offer>, m: string, j: nat)
    requires Tied(offers, m, j)
    ensures Stand(offers, m).ties * |Choosing(offers, m, j)| == |Vectors(offers)|
  {
    var n := |offers| - 1;
    ChoosingExtends(offers, m, j);
    ExtendCounts(Vectors(offers[..n]), Spread(offers));
    if j == n {
      ExtendCounts(Vectors(offers[..n]), 1);
    } else {
      StillTied(offers, m, j);
      TiesAreUniform(offers[..n], m, j);
      OneMoreOffer(offers, m, j, |Vectors(offers[..n])|);
    }
  }

  lemma StillTied(offers: seq<Offer>, m: string, j: nat)
    requires Tied(offers, m, j) && j < |offers| - 1
    ensures Tied(offers[..|offers| - 1], m, j)
  {
    StandIsLeast(offers[..|offers| - 1], m);
    assert offers[..|offers| - 1][j] == offers[j];
  }

  lemma OneMoreOffer(offers: seq<Offer>, m: string, j: nat, w: nat)
    requires Tied(offers, m, j) && j < |offers| - 1 && Tied(offers[..|offers| - 1], m, j)
    requires Stand(offers[..|offers| - 1], m).ties * |Choosing(offers[..|offers| - 1], m, j)| == w
    ensures Stand(offers, m).ties * |Chosen(offers, m, j)| == w * Spread(offers)
  {
    var before := offers[..|offers| - 1];
    var c, ties, s := Choosing(before, m, j), Stand(before, m).ties, Spread(offers);
    ExtendCounts(c, s);
    ExtendCounts(c, 1);
    SubExtend(c, s);
    Shares(ties, |c|, w, s);
  }

  lemma SubExtend(vs: set<seq<nat>>, n: nat)
    requires n >= 1
    ensures |Extend(vs, n) - Extend(vs, 1)| == |Extend(vs, n)| - |Extend(vs, 1)|
  {
    assert Extend(vs, 1) <= Extend(vs, n);
  }

  lemma {:induction false} SomethingIsDrawn(offers: seq<Offer>)
    ensures |Vectors(offers)| >= 1
  {
    if offers != [] {
      SomethingIsDrawn(offers[..|offers| - 1]);
      ExtendCounts(Vectors(offers[..|offers| - 1]), Spread(offers));
    }
  }

  /** Every tied offer is chosen by some sequence of draws. */
  lemma EveryTieIsChosen(offers: seq<Offer>, m: string, j: nat) returns (v: seq<nat>)
    requires Tied(offers, m, j)
    ensures v in Vectors(offers) && |v| == |offers| && Holder(offers, v, m) == j
  {
    TiesAreUniform(offers, m, j);
    SomethingIsDrawn(offers);
    assert Choosing(offers, m, j) != {};
    v :| v in Choosing(offers, m, j);
  }

  function Factorial(n: nat): nat { if n == 0 then 1 else n * Factorial(n - 1) }

  lemma {:induction false} AllTiedCounts(offers: seq<Offer>)
    requires forall i | 0 <= i < |offers| :: offers[i].model == offers[0].model && offers[i].price == offers[0].price
    ensures |Vectors(offers)| == Factorial(|offers|)
    ensures offers != [] ==> Stand(offers, offers[0].model) == Listed(offers[0].price, |offers|)
  {
    if offers != [] {
      var before := offers[..|offers| - 1];
      AllTiedCounts(before);
      ExtendCounts(Vectors(before), Spread(offers));
    }
  }

  /** k providers at one price: each is chosen by (k-1)! of the k! sequences of draws. */
  lemma EqualOffersShareTheLoad(offers: seq<Offer>, j: nat)
    requires j < |offers|
    requires forall i | 0 <= i < |offers| :: offers[i].model == offers[0].model && offers[i].price == offers[0].price
    ensures |Vectors(offers)| == Factorial(|offers|)
    ensures |Choosing(offers, offers[0].model, j)| == Factorial(|offers| - 1)
  {
    AllTiedCounts(offers);
    TiesAreUniform(offers, offers[0].model, j);
    Cancel(|offers|, |Choosing(offers, offers[0].model, j)|, Factorial(|offers| - 1));
  }

  lemma Cancel(k: nat, a: nat, b: nat)
    requires k > 0
    ensures k * a == k * b <==> a == b
  {
    if a < b { assert k * b == k * a + k * (b - a); }
    if b < a { assert k * a == k * b + k * (a - b); }
  }
}
