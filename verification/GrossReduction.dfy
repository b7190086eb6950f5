/** The realized-gross ceiling: reduction-only deltas, whose own cost is paid out of the
    equity the ceiling is measured against. It exists twice, for production and for the
    acceptance simulator. */
module GrossReduction {
  import opened Lots
  import opened LargestRemainder
  import opened MarginFit

  /** The positions a reduction can touch. */
  function Priced(lots: Lots, notionals: Weights): Lots {
    map s | s in lots && lots[s] != 0 && Weight(notionals, s) > 0.0 :: lots[s]
  }

  function Closing(lots: Lots): Lots {
    map s | s in lots :: -lots[s]
  }

  predicate NonNegativeOn(w: Weights, symbols: set<Symbol>) {
    forall s | s in symbols :: Weight(w, s) >= 0.0
  }

  function RequiredReduction(gross: real, limit: real, drag: real): real
    requires drag < 1.0
  {
    var r := (gross - limit) / (1.0 - drag);
    if r > 0.0 then r else 0.0
  }

  function RetainScale(required: real, gross: real): (scale: real)
    requires gross > 0.0 && required > 0.0
    ensures 0.0 <= scale < 1.0
  {
    Ratio(required, gross);
    var r := 1.0 - required / gross;
    if r > 0.0 then r else 0.0
  }

  lemma Ratio(x: real, y: real)
    requires x > 0.0 && y > 0.0
    ensures x / y > 0.0 && x / y * y == x
  {
  }

  lemma RequiredIsPositive(gross: real, limit: real, drag: real)
    requires gross > limit && drag < 1.0
    ensures RequiredReduction(gross, limit, drag) > 0.0
    ensures RequiredReduction(gross, limit, drag) * (1.0 - drag) == gross - limit
  {
    Ratio(gross - limit, 1.0 - drag);
  }

  /** The account is above the ceiling. */
  ghost predicate Breached(lots: Lots, notionals: Weights, equity: real, ratio: real) {
    equity > 0.0 && Total(lots, notionals) > ratio * equity + EPS
  }

  lemma BreachedGross(lots: Lots, notionals: Weights, equity: real, ratio: real)
    requires ratio > 0.0 && Breached(lots, notionals, equity, ratio)
    ensures Total(lots, notionals) > ratio * equity > 0.0
  {
    PositiveProduct(ratio, equity);
  }

  lemma PositiveProduct(x: real, y: real)
    requires x > 0.0 && y > 0.0
    ensures x * y > 0.0
  {
  }

  /** What the reduction decides. */
  ghost predicate Reduces(lots: Lots, notionals: Weights, equity: real, ratio: real, cost: real, deltas: Lots)
    requires ratio > 0.0
  {
    if !Breached(lots, notionals, equity, ratio) then
      deltas == map[]
    else if ratio * cost >= 1.0 then
      deltas == Closing(Normalized(lots))
    else
      exists awarded :: ReducesWith(lots, notionals, Required(lots, notionals, equity, ratio, cost), awarded, deltas)
  }

  ghost function Required(lots: Lots, notionals: Weights, equity: real, ratio: real, cost: real): (required: real)
    requires ratio > 0.0 && ratio * cost < 1.0 && Breached(lots, notionals, equity, ratio)
    ensures required > 0.0
  {
    RequiredIsPositive(Total(lots, notionals), ratio * equity, ratio * cost);
    RequiredReduction(Total(lots, notionals), ratio * equity, ratio * cost)
  }

  /** The priced lots keep their scaled floors plus the restored lots. */
  ghost predicate ReducesWith(lots: Lots, notionals: Weights, required: real, restored: set<Symbol>, deltas: Lots)
    requires required > 0.0
  {
    var priced := Priced(lots, notionals);
    var gross := Total(priced, notionals);
    && gross > 0.0
    && var scale := RetainScale(required, gross);
       && Awards(Remainders(priced, scale), notionals, Total(Floors(priced, scale), notionals) - gross,
                 EPS - required, restored)
       && deltas == DeltasTo(priced, Scaled(priced, scale, restored))
  }

  /** The trades that take `lots` to `targets`. */
  function DeltasTo(lots: Lots, targets: Lots): Lots
    requires targets.Keys == lots.Keys
  {
    map s | s in lots && targets[s] != lots[s] :: targets[s] - lots[s]
  }

  /** Positions after a batch of trades; nothing is kept at zero. */
  function AfterDeltas(lots: Lots, deltas: Lots): Lots {
    map s | s in lots.Keys + deltas.Keys && At(lots, s) + At(deltas, s) != 0 :: At(lots, s) + At(deltas, s)
  }

  /** Every trade reduces its position without turning it around. */
  predicate Shrinks(lots: Lots, deltas: Lots) {
    forall s | s in deltas ::
      && s in lots && deltas[s] != 0
      && (deltas[s] > 0) == (lots[s] < 0)
      && Abs(deltas[s]) <= Abs(lots[s])
  }

  /** A shrinking batch takes exactly its own turnover off the gross. */
  lemma ShrinkingTotal(lots: Lots, deltas: Lots, w: Weights)
    requires Shrinks(lots, deltas)
    ensures Within(AfterDeltas(lots, deltas), lots)
    ensures Total(AfterDeltas(lots, deltas), w) == Total(lots, w) - Total(deltas, w)
  {
    TotalIsAdditive(lots, AfterDeltas(lots, deltas), deltas, w);
  }

  lemma PricedTotal(lots: Lots, w: Weights)
    requires NonNegativeOn(w, lots.Keys)
    ensures Total(Priced(lots, w), w) == Total(lots, w)
  {
    var others := map s | s in lots && s !in Priced(lots, w) :: lots[s];
    TotalOfNothing(others, w);
    TotalIsAdditive(lots, Priced(lots, w), others, w);
  }

  lemma ScaledShrinks(lots: Lots, priced: Lots, scale: real, restored: set<Symbol>)
    requires 0.0 <= scale < 1.0 && NoZeros(priced)
    requires forall s | s in priced :: s in lots && lots[s] == priced[s]
    requires restored <= Remainders(priced, scale).Keys
    ensures Shrinks(lots, DeltasTo(priced, Scaled(priced, scale, restored)))
  {
    hide FloorLots;
    FloorsAreWithin(priced, scale);
    ScaledIsWithin(priced, scale, restored);
  }

  /** No trade grows a position or turns it around. */
  lemma {:induction false} ReductionOnlyShrinks(lots: Lots, notionals: Weights, equity: real, ratio: real,
                                                cost: real, deltas: Lots)
    requires ratio > 0.0 && Reduces(lots, notionals, equity, ratio, cost, deltas)
    ensures Shrinks(lots, deltas)
  {
    if Breached(lots, notionals, equity, ratio) && ratio * cost < 1.0 {
      var required := Required(lots, notionals, equity, ratio, cost);
      var restored :| ReducesWith(lots, notionals, required, restored, deltas);
      hide Required, Breached, Total;
      var priced := Priced(lots, notionals);
      ScaledShrinks(lots, priced, RetainScale(required, Total(priced, notionals)), restored);
    }
  }

  /** What is sold on the scaled path: the notional lost to the floors, less the restored lots. */
  lemma ReducedNotional(lots: Lots, notionals: Weights, required: real, restored: set<Symbol>, deltas: Lots)
    requires required > 0.0 && ReducesWith(lots, notionals, required, restored, deltas)
    ensures var priced := Priced(lots, notionals);
            var gross := Total(priced, notionals);
            var scale := RetainScale(required, gross);
            && Remainders(priced, scale).Keys == priced.Keys
            && Total(deltas, notionals)
               == gross - Total(Floors(priced, scale), notionals) - Total(Ones(restored), notionals)
            && (forall s | s in priced :: priced[s] + At(deltas, s) == ScaledVolume(priced, scale, restored, s))
  {
    hide FloorLots, RetainScale, Total, AwardRule, Weight;
    var priced := Priced(lots, notionals);
    var scale := RetainScale(required, Total(priced, notionals));
    var targets := Scaled(priced, scale, restored);
    FloorsAreWithin(priced, scale);
    ScaledIsWithin(priced, scale, restored);
    ScaledTotal(priced, scale, restored, notionals);
    TotalIsAdditive(priced, targets, deltas, notionals);
  }

  /** Unless everything priced is sold, the required notional is sold, up to the tolerance. */
  lemma RequiredIsReduced(lots: Lots, notionals: Weights, required: real, restored: set<Symbol>, deltas: Lots)
    requires required > 0.0 && ReducesWith(lots, notionals, required, restored, deltas)
    ensures var priced := Priced(lots, notionals);
            || Total(deltas, notionals) >= required - EPS
            || (forall s | s in priced :: At(deltas, s) == -priced[s])
  {
    hide RetainScale, Total, Floors, Remainders, Awards, DeltasTo, Scaled, Priced, FloorLots;
    var priced := Priced(lots, notionals);
    var gross := Total(priced, notionals);
    var scale := RetainScale(required, gross);
    PricedIsPositive(lots, notionals);
    ReducedNotional(lots, notionals, required, restored, deltas);
    AwardsStayBelow(Remainders(priced, scale), notionals, Total(Floors(priced, scale), notionals) - gross,
                    EPS - required, restored);
    if restored == {} {
      if scale > 0.0 {
        FloorsRetain(priced, notionals, required, gross);
      } else {
        NothingRetained(priced, scale);
      }
    }
  }

  lemma PricedIsPositive(lots: Lots, notionals: Weights)
    ensures NonNegativeOn(notionals, Priced(lots, notionals).Keys)
  {
  }

  /** Before any restoration, the floors already meet the reduction. */
  lemma FloorsRetain(priced: Lots, notionals: Weights, required: real, gross: real)
    requires gross > 0.0 && required > 0.0 && RetainScale(required, gross) > 0.0
    requires gross == Total(priced, notionals) && NonNegativeOn(notionals, priced.Keys)
    ensures Total(Floors(priced, RetainScale(required, gross)), notionals) <= gross - required
  {
    Ratio(required, gross);
    var scale := RetainScale(required, gross);
    assert scale * gross == gross - required;
    FloorsTotal(priced, scale, notionals);
  }

  lemma NothingRetained(priced: Lots, scale: real)
    requires scale == 0.0
    ensures forall s | s in priced :: ScaledVolume(priced, scale, {}, s) == 0
  {
  }

  /** The gross that the equity left after selling can carry. */
  function CeilingAfter(ratio: real, equity: real, cost: real, sold: real): real {
    ratio * (equity - cost * sold)
  }

  /** The ceiling holds for the equity that is left after paying for the reduction, or
      everything priced is gone. */
  lemma {:induction false} ReductionMeetsCeiling(lots: Lots, notionals: Weights, equity: real, ratio: real,
                                                 cost: real, deltas: Lots)
    requires ratio > 0.0 && cost >= 0.0 && equity > 0.0 && NonNegativeOn(notionals, lots.Keys)
    requires Reduces(lots, notionals, equity, ratio, cost, deltas)
    ensures var after := AfterDeltas(lots, deltas);
            || Priced(after, notionals) == map[]
            || Total(after, notionals) <= CeilingAfter(ratio, equity, cost, Total(deltas, notionals)) + EPS
  {
    ReductionOnlyShrinks(lots, notionals, equity, ratio, cost, deltas);
    ShrinkingTotal(lots, deltas, notionals);
    if Breached(lots, notionals, equity, ratio) && ratio * cost < 1.0 {
      hide Total, AfterDeltas, Shrinks;
      BreachedMeetsCeiling(lots, notionals, equity, ratio, cost, deltas);
    } else {
      hide Total, Shrinks;
      if !Breached(lots, notionals, equity, ratio) {
        NothingSold(notionals);
      }
    }
  }

  lemma NothingSold(notionals: Weights)
    ensures Total(map[], notionals) == 0.0
  {
  }

  lemma BreachedMeetsCeiling(lots: Lots, notionals: Weights, equity: real, ratio: real, cost: real, deltas: Lots)
    requires ratio > 0.0 && cost >= 0.0 && ratio * cost < 1.0 && NonNegativeOn(notionals, lots.Keys)
    requires Breached(lots, notionals, equity, ratio)
    requires Reduces(lots, notionals, equity, ratio, cost, deltas)
    ensures || Priced(AfterDeltas(lots, deltas), notionals) == map[]
            || Total(lots, notionals) - Total(deltas, notionals)
               <= CeilingAfter(ratio, equity, cost, Total(deltas, notionals)) + EPS
  {
    hide Total, ReducesWith, Required, RequiredReduction, Breached, RetainScale;
    var sold := Total(deltas, notionals);
    var required := Required(lots, notionals, equity, ratio, cost);
    var restored :| ReducesWith(lots, notionals, required, restored, deltas);
    RequiredIsReduced(lots, notionals, required, restored, deltas);
    if sold >= required - EPS {
      SoldMeetsCeiling(lots, notionals, equity, ratio, cost, sold);
    } else {
      ReductionOnlyShrinks(lots, notionals, equity, ratio, cost, deltas);
      AllSold(lots, deltas, notionals);
    }
  }

  lemma AllSold(lots: Lots, deltas: Lots, notionals: Weights)
    requires Shrinks(lots, deltas)
    requires forall s | s in Priced(lots, notionals) :: At(deltas, s) == -lots[s]
    ensures Priced(AfterDeltas(lots, deltas), notionals) == map[]
  {
    assert forall s | s in lots && lots[s] != 0 && Weight(notionals, s) > 0.0 :: s in Priced(lots, notionals);
  }

  lemma SoldMeetsCeiling(lots: Lots, notionals: Weights, equity: real, ratio: real, cost: real, sold: real)
    requires ratio > 0.0 && cost >= 0.0 && ratio * cost < 1.0 && Breached(lots, notionals, equity, ratio)
    requires sold >= Required(lots, notionals, equity, ratio, cost) - EPS
    ensures Total(lots, notionals) - sold <= CeilingAfter(ratio, equity, cost, sold) + EPS
  {
    CostInclusive(Total(lots, notionals), equity, ratio, cost, sold);
  }

  lemma CostInclusive(gross: real, equity: real, ratio: real, cost: real, sold: real)
    requires ratio > 0.0 && cost >= 0.0 && ratio * cost < 1.0 && gross > ratio * equity
    requires sold >= RequiredReduction(gross, ratio * equity, ratio * cost) - EPS
    ensures gross - sold <= CeilingAfter(ratio, equity, cost, sold) + EPS
  {
    var drag := ratio * cost;
    var required := RequiredReduction(gross, ratio * equity, drag);
    RequiredIsPositive(gross, ratio * equity, drag);
    SoldShare(sold, required, drag);
    assert ratio * (cost * sold) == drag * sold;
    assert ratio * (equity - cost * sold) == ratio * equity - ratio * (cost * sold);
  }

  lemma SoldShare(sold: real, required: real, drag: real)
    requires 0.0 <= drag < 1.0 && sold >= required - EPS
    ensures sold - drag * sold >= required * (1.0 - drag) - EPS
  {
    var rest, excess := 1.0 - drag, sold - required + EPS;
    NonNegativeProduct(excess, rest);
    NonNegativeProduct(EPS, drag);
    assert excess * rest == sold * rest - required * rest + EPS * rest;
    assert sold * rest == sold - drag * sold;
    assert EPS * rest == EPS - EPS * drag;
  }

  lemma NonNegativeProduct(x: real, y: real)
    requires x >= 0.0 && y >= 0.0
    ensures x * y >= 0.0
  {
  }

  /** Something is sold exactly when the ceiling is breached. */
  lemma {:induction false} BreachIsReduced(lots: Lots, notionals: Weights, equity: real, ratio: real, cost: real,
                                           deltas: Lots)
    requires ratio > 0.0 && cost >= 0.0 && Reduces(lots, notionals, equity, ratio, cost, deltas)
    ensures deltas != map[] <==> Breached(lots, notionals, equity, ratio)
  {
    hide *;
    ReductionCases(lots, notionals, equity, ratio, cost, deltas);
    if Breached(lots, notionals, equity, ratio) {
      if ratio * cost >= 1.0 {
        BreachedHolds(lots, notionals, equity, ratio);
        ClosingSells(lots);
      } else {
        SomethingIsRequired(lots, notionals, equity, ratio, cost, deltas);
      }
    }
  }

  /** The branches of the reduction. */
  lemma ReductionCases(lots: Lots, notionals: Weights, equity: real, ratio: real, cost: real, deltas: Lots)
    requires ratio > 0.0 && Reduces(lots, notionals, equity, ratio, cost, deltas)
    ensures !Breached(lots, notionals, equity, ratio) ==> deltas == map[]
    ensures Breached(lots, notionals, equity, ratio) && ratio * cost >= 1.0 ==> deltas == Closing(Normalized(lots))
  {
    hide Breached, Closing, Normalized, ReducesWith, Required;
  }

  lemma BreachedHolds(lots: Lots, notionals: Weights, equity: real, ratio: real)
    requires ratio > 0.0 && Breached(lots, notionals, equity, ratio)
    ensures exists s :: s in lots && lots[s] != 0
  {
    BreachedGross(lots, notionals, equity, ratio);
    hide Total, Breached;
    if forall s | s in lots :: lots[s] == 0 {
      TotalOfNothing(lots, notionals);
    }
  }

  lemma ClosingSells(lots: Lots)
    requires exists s :: s in lots && lots[s] != 0
    ensures Closing(Normalized(lots)) != map[]
  {
    var s :| s in lots && lots[s] != 0;
    assert s in Closing(Normalized(lots));
  }

  lemma SomethingIsRequired(lots: Lots, notionals: Weights, equity: real, ratio: real, cost: real, deltas: Lots)
    requires ratio > 0.0 && cost >= 0.0 && ratio * cost < 1.0 && Breached(lots, notionals, equity, ratio)
    requires Reduces(lots, notionals, equity, ratio, cost, deltas)
    ensures deltas != map[]
  {
    RequiredExceedsTolerance(lots, notionals, equity, ratio, cost);
    hide Total, Required, Breached, Priced;
    var required := Required(lots, notionals, equity, ratio, cost);
    var restored :| ReducesWith(lots, notionals, required, restored, deltas);
    RequiredIsReduced(lots, notionals, required, restored, deltas);
    PricedHolds(lots, notionals, required, restored, deltas);
    NothingSold(notionals);
    var s :| s in Priced(lots, notionals) && Priced(lots, notionals)[s] != 0;
    assert Total(deltas, notionals) > 0.0 || At(deltas, s) != 0;
  }

  lemma PricedHolds(lots: Lots, notionals: Weights, required: real, restored: set<Symbol>, deltas: Lots)
    requires required > 0.0 && ReducesWith(lots, notionals, required, restored, deltas)
    ensures exists s :: s in Priced(lots, notionals) && Priced(lots, notionals)[s] != 0
  {
    var priced := Priced(lots, notionals);
    assert Total(priced, notionals) > 0.0;
    if priced == map[] {
      NothingSold(notionals);
    } else {
      var s := Pick(priced);
      assert priced[s] != 0;
    }
  }

  lemma RequiredExceedsTolerance(lots: Lots, notionals: Weights, equity: real, ratio: real, cost: real)
    requires ratio > 0.0 && cost >= 0.0 && ratio * cost < 1.0 && Breached(lots, notionals, equity, ratio)
    ensures Required(lots, notionals, equity, ratio, cost) > EPS
  {
    NonNegativeProduct(ratio, cost);
    BreachedGross(lots, notionals, equity, ratio);
    RequiredIsExcess(Total(lots, notionals), ratio * equity, ratio * cost);
    hide Total, RequiredReduction;
  }

  /** Paying for the sale never makes it smaller. */
  lemma RequiredIsExcess(gross: real, limit: real, drag: real)
    requires gross > limit && 0.0 <= drag < 1.0
    ensures RequiredReduction(gross, limit, drag) >= gross - limit
  {
    RequiredIsPositive(gross, limit, drag);
    NonNegativeProduct(RequiredReduction(gross, limit, drag), drag);
  }

  /** A shrunk position that got no lot back could not have got one: restoring it would leave
      less sold than the ceiling requires. */
  lemma {:induction false} ReductionIsMaximal(lots: Lots, notionals: Weights, equity: real, ratio: real, cost: real,
                                              deltas: Lots, s: Symbol)
    requires ratio > 0.0 && ratio * cost < 1.0 && Breached(lots, notionals, equity, ratio)
    requires Reduces(lots, notionals, equity, ratio, cost, deltas)
    requires s in Priced(lots, notionals)
    ensures Total(Priced(lots, notionals), notionals) > 0.0
    ensures
            var gross := Total(Priced(lots, notionals), notionals);
            var required := (Total(lots, notionals) - ratio * equity) / (1.0 - ratio * cost);
            var share := if required < gross then 1.0 - required / gross else 0.0;
            var floor := ((Abs(lots[s]) as real) * share).Floor;
            var kept := Abs(lots[s] + At(deltas, s));
            && floor <= kept <= floor + 1
            && (kept == floor ==> Total(deltas, notionals) - notionals[s] + EPS < required)
  {
    hide *;
    var required := Required(lots, notionals, equity, ratio, cost);
    var restored := Reducing(lots, notionals, equity, ratio, cost, deltas);
    PricedVolume(lots, notionals, s);
    RetainedIdeal(lots, notionals, equity, ratio, cost, s);
    MaximalWith(lots, notionals, required, restored, deltas, s);
  }

  /** Lots were scaled, with these restored. */
  lemma Reducing(lots: Lots, notionals: Weights, equity: real, ratio: real, cost: real, deltas: Lots)
    returns (restored: set<Symbol>)
    requires ratio > 0.0 && ratio * cost < 1.0 && Breached(lots, notionals, equity, ratio)
    requires Reduces(lots, notionals, equity, ratio, cost, deltas)
    ensures ReducesWith(lots, notionals, Required(lots, notionals, equity, ratio, cost), restored, deltas)
    ensures Total(Priced(lots, notionals), notionals) > 0.0
  {
    var required := Required(lots, notionals, equity, ratio, cost);
    restored :| ReducesWith(lots, notionals, required, restored, deltas);
    hide Total, Required, Priced, RetainScale;
  }

  /** What the requirement is, and the proportional ideal of a position with its floor and fraction. */
  lemma RetainedIdeal(lots: Lots, notionals: Weights, equity: real, ratio: real, cost: real, s: Symbol)
    requires ratio > 0.0 && ratio * cost < 1.0 && Breached(lots, notionals, equity, ratio)
    requires s in lots && Total(Priced(lots, notionals), notionals) > 0.0
    ensures
            var gross := Total(Priced(lots, notionals), notionals);
            var required := (Total(lots, notionals) - ratio * equity) / (1.0 - ratio * cost);
            var share := if required < gross then 1.0 - required / gross else 0.0;
            var ideal := (Abs(lots[s]) as real) * share;
            && Required(lots, notionals, equity, ratio, cost) == required
            && RetainScale(required, gross) == share
            && FloorLots(lots[s], RetainScale(required, gross)) == ideal.Floor
            && Remainder(lots[s], RetainScale(required, gross)) == ideal - (ideal.Floor as real)
  {
    BreachedGross(lots, notionals, equity, ratio);
    RequiredIsPositive(Total(lots, notionals), ratio * equity, ratio * cost);
    hide Total, Priced;
    var gross, required := Total(Priced(lots, notionals), notionals), Required(lots, notionals, equity, ratio, cost);
    RetainedShare(required, gross);
  }

  lemma RetainedShare(required: real, gross: real)
    requires gross > 0.0 && required > 0.0
    ensures RetainScale(required, gross) == if required < gross then 1.0 - required / gross else 0.0
  {
    Ratio(required, gross);
    AgainstOne(required / gross, gross);
  }

  lemma AgainstOne(q: real, y: real)
    requires y > 0.0
    ensures q < 1.0 <==> q * y < y
  {
    if q < 1.0 {
      PositiveProduct(1.0 - q, y);
    } else {
      NonNegativeProduct(q - 1.0, y);
    }
  }

  /** Of two positions, the one worth no more per lot that gets no lot back while the other does has
      the smaller fraction, or an equal one and the larger name. */
  lemma {:induction false} ReductionPrefersLargerFractions(lots: Lots, notionals: Weights, equity: real, ratio: real,
                                                           cost: real, deltas: Lots, s: Symbol, t: Symbol)
    requires ratio > 0.0 && ratio * cost < 1.0 && Breached(lots, notionals, equity, ratio)
    requires Reduces(lots, notionals, equity, ratio, cost, deltas)
    requires s in Priced(lots, notionals) && t in Priced(lots, notionals) && notionals[s] <= notionals[t]
    ensures Total(Priced(lots, notionals), notionals) > 0.0
    ensures
            var gross := Total(Priced(lots, notionals), notionals);
            var required := (Total(lots, notionals) - ratio * equity) / (1.0 - ratio * cost);
            var share := if required < gross then 1.0 - required / gross else 0.0;
            var less, more := (Abs(lots[s]) as real) * share, (Abs(lots[t]) as real) * share;
            Abs(lots[s] + At(deltas, s)) == less.Floor && Abs(lots[t] + At(deltas, t)) == more.Floor + 1 ==>
              || more - (more.Floor as real) > less - (less.Floor as real)
              || (more - (more.Floor as real) == less - (less.Floor as real) && t < s)
  {
    hide *;
    var required := Required(lots, notionals, equity, ratio, cost);
    var restored := Reducing(lots, notionals, equity, ratio, cost, deltas);
    PricedVolume(lots, notionals, s);
    PricedVolume(lots, notionals, t);
    RetainedIdeal(lots, notionals, equity, ratio, cost, s);
    RetainedIdeal(lots, notionals, equity, ratio, cost, t);
    RestoredFractions(lots, notionals, required, restored, deltas, s, t);
  }

  lemma RestoredFractions(lots: Lots, notionals: Weights, required: real, restored: set<Symbol>, deltas: Lots,
                          s: Symbol, t: Symbol)
    requires required > 0.0 && ReducesWith(lots, notionals, required, restored, deltas)
    requires s in Priced(lots, notionals) && t in Priced(lots, notionals) && notionals[s] <= notionals[t]
    ensures Total(Priced(lots, notionals), notionals) > 0.0
    ensures var scale := RetainScale(required, Total(Priced(lots, notionals), notionals));
            var less, more := Remainder(lots[s], scale), Remainder(lots[t], scale);
            && Abs(lots[s] + At(deltas, s)) == FloorLots(lots[s], scale)
            && Abs(lots[t] + At(deltas, t)) == FloorLots(lots[t], scale) + 1 ==>
              more > less || (more == less && t < s)
  {
    hide *;
    var priced := Priced(lots, notionals);
    RestoredArePriced(lots, notionals, required, restored, deltas);
    var gross := Total(priced, notionals);
    var scale := RetainScale(required, gross);
    ShrunkVolume(lots, notionals, required, restored, deltas, s);
    ShrunkVolume(lots, notionals, required, restored, deltas, t);
    RemainderOf(lots, notionals, scale, s);
    RemainderOf(lots, notionals, scale, t);
    if s !in restored && t in restored {
      LargerRemainderGoesFirst(Remainders(priced, scale), notionals, Total(Floors(priced, scale), notionals) - gross,
                               EPS - required, restored, s, t);
    }
  }

  lemma RemainderOf(lots: Lots, notionals: Weights, scale: real, s: Symbol)
    requires scale >= 0.0 && s in Priced(lots, notionals) && s in Remainders(Priced(lots, notionals), scale)
    ensures Remainders(Priced(lots, notionals), scale)[s] == Remainder(lots[s], scale)
  {
    hide FloorLots, Remainder;
  }

  lemma MaximalWith(lots: Lots, notionals: Weights, required: real, restored: set<Symbol>, deltas: Lots, s: Symbol)
    requires required > 0.0 && ReducesWith(lots, notionals, required, restored, deltas)
    requires s in Priced(lots, notionals)
    ensures var scale := RetainScale(required, Total(Priced(lots, notionals), notionals));
            var kept := Abs(lots[s] + At(deltas, s));
            && FloorLots(lots[s], scale) <= kept <= FloorLots(lots[s], scale) + 1
            && (kept == FloorLots(lots[s], scale) ==> Total(deltas, notionals) - notionals[s] + EPS < required)
  {
    var priced := Priced(lots, notionals);
    var gross := Total(priced, notionals);
    var scale := RetainScale(required, gross);
    hide *;
    RestoredArePriced(lots, notionals, required, restored, deltas);
    ShrunkVolume(lots, notionals, required, restored, deltas, s);
    if s !in restored {
      NoRoomForTheOthers(Remainders(priced, scale), notionals, Total(Floors(priced, scale), notionals) - gross,
                         EPS - required, restored, s);
    }
  }

  lemma PricedVolume(lots: Lots, notionals: Weights, s: Symbol)
    requires s in Priced(lots, notionals)
    ensures s in lots && Priced(lots, notionals)[s] == lots[s]
    ensures s in notionals && Weight(notionals, s) == notionals[s]
  {
  }

  lemma RestoredArePriced(lots: Lots, notionals: Weights, required: real, restored: set<Symbol>, deltas: Lots)
    requires required > 0.0 && ReducesWith(lots, notionals, required, restored, deltas)
    ensures var priced := Priced(lots, notionals);
            && Total(priced, notionals) > 0.0
            && var scale := RetainScale(required, Total(priced, notionals));
            && scale >= 0.0
            && Awards(Remainders(priced, scale), notionals,
                      Total(Floors(priced, scale), notionals) - Total(priced, notionals), EPS - required, restored)
    ensures forall t | t in restored :: Weight(notionals, t) >= 0.0
  {
    hide FloorLots, RetainScale, Total, AwardRule, Floors, Scaled;
  }

  /** What is left of a priced position, and what is sold in all. */
  lemma ShrunkVolume(lots: Lots, notionals: Weights, required: real, restored: set<Symbol>, deltas: Lots, s: Symbol)
    requires required > 0.0 && ReducesWith(lots, notionals, required, restored, deltas)
    requires s in Priced(lots, notionals)
    ensures var priced := Priced(lots, notionals);
            var gross := Total(priced, notionals);
            var scale := RetainScale(required, gross);
            && scale >= 0.0 && s in Remainders(priced, scale)
            && s in lots && s in notionals && Weight(notionals, s) == notionals[s]
            && Abs(lots[s] + At(deltas, s)) == FloorLots(lots[s], scale) + (if s in restored then 1 else 0)
            && Total(deltas, notionals)
               == gross - Total(Floors(priced, scale), notionals) - Total(Ones(restored), notionals)
  {
    hide *;
    var priced := Priced(lots, notionals);
    RestoredArePriced(lots, notionals, required, restored, deltas);
    ReducedNotional(lots, notionals, required, restored, deltas);
    PricedVolume(lots, notionals, s);
    KeptLots(priced, RetainScale(required, Total(priced, notionals)), restored, s);
  }

  lemma KeptLots(priced: Lots, scale: real, restored: set<Symbol>, s: Symbol)
    requires scale >= 0.0 && s in priced
    ensures Abs(ScaledVolume(priced, scale, restored, s))
         == FloorLots(priced[s], scale) + if s in restored then 1 else 0
  {
    hide FloorLots;
  }

  /** The reduction is a function of its inputs, so the two implementations agree. */
  lemma {:induction false} ReductionIsDetermined(lots: Lots, notionals: Weights, equity: real, ratio: real,
                                                 cost: real, a: Lots, b: Lots)
    requires ratio > 0.0
    requires Reduces(lots, notionals, equity, ratio, cost, a) && Reduces(lots, notionals, equity, ratio, cost, b)
    ensures a == b
  {
    if Breached(lots, notionals, equity, ratio) && ratio * cost < 1.0 {
      var required := Required(lots, notionals, equity, ratio, cost);
      var x :| ReducesWith(lots, notionals, required, x, a);
      var y :| ReducesWith(lots, notionals, required, y, b);
      var priced := Priced(lots, notionals);
      var gross := Total(priced, notionals);
      var scale := RetainScale(required, gross);
      hide Required, Breached, RetainScale, Total, Awards, Floors, Remainders, Scaled;
      AwardsAreDetermined(Remainders(priced, scale), notionals, Total(Floors(priced, scale), notionals) - gross,
                          EPS - required, x, y);
    }
  }

  // ---- The production guard ----

  /** `build_realized_gross_reductions`: refuses a held contract without a positive notional. */
  method BuildRealizedGrossReductions(lots: Lots, notionals: Weights, equity: real, ratio: real, cost: real)
    returns (r: Checked<Lots>)
    ensures r.ValueError? <==>
            || ratio <= 0.0 || cost < 0.0
            || (equity > 0.0 && exists s | s in lots :: lots[s] != 0 && Weight(notionals, s) <= 0.0)
    ensures r.Value? ==> Reduces(lots, notionals, equity, ratio, cost, r.value)
  {
    if ratio <= 0.0 || cost < 0.0 {
      return ValueError;
    }
    if equity <= 0.0 || lots == map[] {
      return Value(map[]);
    }
    var held := CollectRequested(lots, notionals);
    if held.ValueError? {
      return ValueError;
    }
    assert held.value == Priced(lots, notionals);
    TotalIgnoresZeros(lots, notionals);
    var deltas := ReduceHeld(lots, held.value, notionals, equity, ratio, cost);
    r := Value(deltas);
  }

  /** Its second half: scale, floor, restore by largest remainder. */
  method ReduceHeld(lots: Lots, priced: Lots, notionals: Weights, equity: real, ratio: real, cost: real)
    returns (deltas: Lots)
    requires ratio > 0.0 && equity > 0.0 && priced == Priced(lots, notionals)
    requires Total(priced, notionals) == Total(lots, notionals)
    ensures Reduces(lots, notionals, equity, ratio, cost, deltas)
  {
    hide *;
    NothingToReduce(lots, notionals, equity, ratio, cost);
    var gross := Measure(priced, notionals);
    var limit := ratio * equity;
    if gross <= limit + EPS {
      return map[];
    }
    var denominator := 1.0 - ratio * cost;
    if denominator <= 0.0 {
      ClosesAll(lots, notionals, equity, ratio, cost);
      return Closing(Normalized(lots));
    }
    Proportional(lots, notionals, equity, ratio, cost);
    var required := RequiredReduction(gross, limit, ratio * cost);
    var scale := RetainScale(required, gross);
    var kept := Measure(Floors(priced, scale), notionals);
    var restored, _ := AwardLots(Remainders(priced, scale), notionals, kept - gross, EPS - required);
    LostIs(lots, notionals, scale, restored);
    deltas := DeltasTo(priced, Scaled(priced, scale, restored));
    ReducedTo(lots, notionals, required, scale, restored, deltas);
    ReducesBy(lots, notionals, equity, ratio, cost, restored, deltas);
  }

  lemma LostIs(lots: Lots, notionals: Weights, scale: real, restored: set<Symbol>)
    requires scale >= 0.0
    ensures Scaled(Priced(lots, notionals), scale, restored).Keys == Priced(lots, notionals).Keys
    ensures var priced := Priced(lots, notionals);
            Lost(lots, notionals, scale) == Total(priced, notionals) - Total(Floors(priced, scale), notionals)
  {
    hide Total, Priced, Floors, ScaledVolume;
  }

  // ---- The guard of the acceptance simulator ----

  /** Floors for the priced positions; the others stay as they are. */
  function FlooredTargets(lots: Lots, notionals: Weights, scale: real, restored: set<Symbol>): Lots
    requires scale >= 0.0
  {
    map s | s in lots ::
      if lots[s] != 0 && Weight(notionals, s) > 0.0 then ScaledVolume(lots, scale, restored, s) else lots[s]
  }

  /** One position more in the floor pass. */
  lemma FloorPassGrows(done: Lots, notionals: Weights, scale: real, s: Symbol, v: int)
    requires scale >= 0.0 && s !in done
    ensures var priced := v != 0 && Weight(notionals, s) > 0.0;
            var floor := FloorLots(v, scale);
            && FlooredTargets(done[s := v], notionals, scale, {})
               == FlooredTargets(done, notionals, scale, {})[s := if priced then Signed(v, floor) else v]
            && Remainders(Priced(done[s := v], notionals), scale)
               == (if priced && floor < Abs(v)
                   then Remainders(Priced(done, notionals), scale)[s := Remainder(v, scale)]
                   else Remainders(Priced(done, notionals), scale))
            && Lost(done[s := v], notionals, scale)
               == Lost(done, notionals, scale)
                   + (if priced then ((Abs(v) - floor) as real) * Weight(notionals, s) else 0.0)
  {
    hide *;
    PricedGrows(done, notionals, s, v);
    TargetsGrow(done, notionals, scale, s, v);
    if v != 0 && Weight(notionals, s) > 0.0 {
      RemaindersGrow(Priced(done, notionals), scale, s, v);
      LostGrows(done, notionals, scale, s, v);
    } else {
      SameLost(done, done[s := v], notionals, scale);
    }
  }

  lemma PricedGrows(done: Lots, notionals: Weights, s: Symbol, v: int)
    requires s !in done
    ensures Priced(done[s := v], notionals)
         == if v != 0 && Weight(notionals, s) > 0.0 then Priced(done, notionals)[s := v] else Priced(done, notionals)
    ensures s !in Priced(done, notionals)
  {
  }

  lemma TargetsGrow(done: Lots, notionals: Weights, scale: real, s: Symbol, v: int)
    requires scale >= 0.0 && s !in done
    ensures FlooredTargets(done[s := v], notionals, scale, {})
         == FlooredTargets(done, notionals, scale, {})
            [s := if v != 0 && Weight(notionals, s) > 0.0 then Signed(v, FloorLots(v, scale)) else v]
  {
    hide FloorLots, Weight;
  }

  lemma RemaindersGrow(lots: Lots, scale: real, s: Symbol, v: int)
    requires scale >= 0.0 && s !in lots
    ensures Remainders(lots[s := v], scale)
         == if FloorLots(v, scale) < Abs(v)
            then Remainders(lots, scale)[s := Remainder(v, scale)]
            else Remainders(lots, scale)
  {
    hide FloorLots, Remainder;
  }

  lemma LostGrows(done: Lots, notionals: Weights, scale: real, s: Symbol, v: int)
    requires scale >= 0.0 && s !in Priced(done, notionals)
    requires Priced(done[s := v], notionals) == Priced(done, notionals)[s := v]
    ensures Lost(done[s := v], notionals, scale)
         == Lost(done, notionals, scale) + ((Abs(v) - FloorLots(v, scale)) as real) * Weight(notionals, s)
  {
    hide FloorLots, Total, Priced, Weight;
    var before := Priced(done, notionals);
    assert Floors(before[s := v], scale) == Floors(before, scale)[s := FloorLots(v, scale)];
    PutTotal(before, notionals, s, v);
    PutTotal(Floors(before, scale), notionals, s, FloorLots(v, scale));
    LotsTimesWeight(Abs(v), FloorLots(v, scale), Weight(notionals, s));
  }

  lemma SameLost(lots: Lots, more: Lots, notionals: Weights, scale: real)
    requires scale >= 0.0 && Priced(lots, notionals) == Priced(more, notionals)
    ensures Lost(lots, notionals, scale) == Lost(more, notionals, scale)
  {
    hide Total, Priced, Floors;
  }

  lemma LotsTimesWeight(whole: int, part: int, w: real)
    ensures ((whole - part) as real) * w == (whole as real) * w - (part as real) * w
  {
  }

  /** The notional that the floors take off. */
  ghost function Lost(lots: Lots, notionals: Weights, scale: real): real
    requires scale >= 0.0
  {
    Total(Priced(lots, notionals), notionals) - Total(Floors(Priced(lots, notionals), scale), notionals)
  }

  lemma NothingLost(notionals: Weights, scale: real)
    requires scale >= 0.0
    ensures Lost(map[], notionals, scale) == 0.0 && FlooredTargets(map[], notionals, scale, {}) == map[]
    ensures Remainders(Priced(map[], notionals), scale) == map[]
  {
    assert Priced(map[], notionals) == map[] && Floors(map[], scale) == map[];
  }

  /** The floor pass over the positions. */
  method FloorPositions(lots: Lots, notionals: Weights, scale: real)
    returns (targets: Lots, remainders: Weights, reduction: real)
    requires scale >= 0.0
    ensures targets == FlooredTargets(lots, notionals, scale, {})
    ensures remainders == Remainders(Priced(lots, notionals), scale)
    ensures reduction == Lost(lots, notionals, scale)
  {
    hide *;
    targets, remainders, reduction := map[], map[], 0.0;
    var order := SortSymbols(lots.Keys);
    ghost var done: Lots := map[];
    NonePassed(order);
    NothingLost(notionals, scale);
    for i := 0 to |order|
      invariant done.Keys == Passed(order, i)
      invariant forall s | s in done :: s in lots && done[s] == lots[s]
      invariant targets == FlooredTargets(done, notionals, scale, {})
      invariant remainders == Remainders(Priced(done, notionals), scale)
      invariant reduction == Lost(done, notionals, scale)
    {
      var s := order[i];
      OneMorePassed(order, i);
      var volume := lots[s];
      FloorPassGrows(done, notionals, scale, s, volume);
      done := done[s := volume];
      if volume == 0 || Weight(notionals, s) <= 0.0 {
        targets := targets[s := volume];
      } else {
        var target := FloorLots(volume, scale);
        targets := targets[s := Signed(volume, target)];
        reduction := reduction + ((Abs(volume) - target) as real) * Weight(notionals, s);
        if target < Abs(volume) {
          remainders := remainders[s := Remainder(volume, scale)];
        }
      }
    }
    AllPassed(order, lots.Keys);
    assert done == lots;
  }

  /** The restoration pass: a lot goes back while what is still sold covers the requirement. */
  method RestoreLots(lots: Lots, notionals: Weights, scale: real, required: real, targets: Lots, remainders: Weights,
                     reduction: real)
    returns (final: Lots, ghost restored: set<Symbol>)
    requires scale >= 0.0 && targets == FlooredTargets(lots, notionals, scale, {})
    requires remainders == Remainders(Priced(lots, notionals), scale)
    ensures final == FlooredTargets(lots, notionals, scale, restored)
    ensures Awards(remainders, notionals, -reduction, EPS - required, restored)
  {
    hide *;
    var order := SortByRemainder(remainders);
    final, restored := targets, {};
    var left := reduction;
    NoAwards(remainders, notionals, -reduction, EPS - required, order);
    for i := 0 to |order|
      invariant forall s | s in restored :: s in order[..i]
      invariant -left == -reduction + Total(Ones(restored), notionals)
      invariant AwardsUpTo(remainders, notionals, -reduction, EPS - required, restored, order, i)
      invariant final == FlooredTargets(lots, notionals, scale, restored)
    {
      var s := order[i];
      AwardStep(remainders, notionals, -reduction, EPS - required, restored, order, i);
      assert order[..i + 1] == order[..i] + [s];
      AwardsBeforeAreEarlier(remainders, order, restored, i);
      if left - Weight(notionals, s) + EPS >= required {
        RestoredOne(lots, notionals, scale, restored, s);
        final := final[s := final[s] + (if lots[s] > 0 then 1 else -1)];
        restored := restored + {s};
        left := left - Weight(notionals, s);
      }
    }
    assert order[..|order|] == order;
    AwardsComplete(remainders, notionals, -reduction, EPS - required, restored, order);
  }

  lemma RestoredOne(lots: Lots, notionals: Weights, scale: real, restored: set<Symbol>, s: Symbol)
    requires scale >= 0.0 && s in Remainders(Priced(lots, notionals), scale) && s !in restored
    ensures s in lots && s in FlooredTargets(lots, notionals, scale, restored)
    ensures FlooredTargets(lots, notionals, scale, restored + {s})
         == FlooredTargets(lots, notionals, scale, restored)
            [s := FlooredTargets(lots, notionals, scale, restored)[s] + (if lots[s] > 0 then 1 else -1)]
  {
    hide FloorLots;
  }

  lemma TargetsAreScaled(lots: Lots, notionals: Weights, scale: real, restored: set<Symbol>)
    requires scale >= 0.0
    ensures DeltasTo(lots, FlooredTargets(lots, notionals, scale, restored))
         == DeltasTo(Priced(lots, notionals), Scaled(Priced(lots, notionals), scale, restored))
  {
    hide FloorLots;
  }

  /** `realized_gross_reductions`: positions without a positive notional stay as they are. Only
      closing everything can list a position of zero lots, with nothing to trade. */
  method RealizedGrossReductions(lots: Lots, notionals: Weights, equity: real, ratio: real, cost: real)
    returns (deltas: Lots)
    requires ratio > 0.0 && NonNegativeOn(notionals, lots.Keys)
    ensures Reduces(lots, notionals, equity, ratio, cost, Normalized(deltas))
    ensures NoZeros(deltas) || deltas == Closing(lots)
  {
    hide *;
    NothingToReduce(lots, notionals, equity, ratio, cost);
    if equity <= 0.0 || lots == map[] {
      return map[];
    }
    var gross := Measure(lots, notionals);
    var limit := ratio * equity;
    if gross <= limit + EPS {
      return map[];
    }
    var denominator := 1.0 - ratio * cost;
    if denominator <= 0.0 {
      ClosesAll(lots, notionals, equity, ratio, cost);
      return Closing(lots);
    }
    Proportional(lots, notionals, equity, ratio, cost);
    var required := RequiredReduction(gross, limit, ratio * cost);
    var scale := RetainScale(required, gross);
    var targets, remainders, reduction := FloorPositions(lots, notionals, scale);
    ghost var restored;
    targets, restored := RestoreLots(lots, notionals, scale, required, targets, remainders, reduction);
    deltas := Changed(lots, targets);
    Restored(lots, notionals, equity, ratio, cost, scale, targets, restored, deltas);
  }

  /** The positions that change, and by how much. */
  function Changed(lots: Lots, targets: Lots): Lots {
    map s | s in lots && At(targets, s) != lots[s] :: At(targets, s) - lots[s]
  }

  lemma NothingToReduce(lots: Lots, notionals: Weights, equity: real, ratio: real, cost: real)
    requires ratio > 0.0
    ensures equity <= 0.0 || lots == map[] || Total(lots, notionals) <= ratio * equity + EPS ==>
              Reduces(lots, notionals, equity, ratio, cost, Normalized(map[]))
    ensures NoZeros(map[]) && Normalized(map[]) == map[]
  {
    if equity > 0.0 {
      PositiveProduct(ratio, equity);
    }
  }

  lemma ClosesAll(lots: Lots, notionals: Weights, equity: real, ratio: real, cost: real)
    requires ratio > 0.0 && equity > 0.0 && Total(lots, notionals) > ratio * equity + EPS && ratio * cost >= 1.0
    ensures Reduces(lots, notionals, equity, ratio, cost, Normalized(Closing(lots)))
    ensures Normalized(Closing(lots)) == Closing(Normalized(lots))
  {
    hide Total;
    assert Normalized(Closing(lots)) == Closing(Normalized(lots));
  }

  lemma Proportional(lots: Lots, notionals: Weights, equity: real, ratio: real, cost: real)
    requires ratio > 0.0 && equity > 0.0 && ratio * cost < 1.0
    requires Total(lots, notionals) > ratio * equity + EPS
    ensures Breached(lots, notionals, equity, ratio) && Total(lots, notionals) > 0.0
    ensures Required(lots, notionals, equity, ratio, cost)
         == RequiredReduction(Total(lots, notionals), ratio * equity, ratio * cost) > 0.0
  {
    BreachedGross(lots, notionals, equity, ratio);
    RequiredIsPositive(Total(lots, notionals), ratio * equity, ratio * cost);
    hide Total, RequiredReduction;
  }

  lemma Restored(lots: Lots, notionals: Weights, equity: real, ratio: real, cost: real, scale: real, targets: Lots,
                 restored: set<Symbol>, deltas: Lots)
    requires ratio > 0.0 && ratio * cost < 1.0 && Breached(lots, notionals, equity, ratio)
    requires NonNegativeOn(notionals, lots.Keys) && Total(lots, notionals) > 0.0
    requires scale == RetainScale(Required(lots, notionals, equity, ratio, cost), Total(lots, notionals))
    requires targets == FlooredTargets(lots, notionals, scale, restored) && deltas == Changed(lots, targets)
    requires Awards(Remainders(Priced(lots, notionals), scale), notionals, -Lost(lots, notionals, scale),
                    EPS - Required(lots, notionals, equity, ratio, cost), restored)
    ensures Reduces(lots, notionals, equity, ratio, cost, Normalized(deltas)) && NoZeros(deltas)
  {
    hide *;
    PricedTotal(lots, notionals);
    TargetsAreScaled(lots, notionals, scale, restored);
    ChangedIsDeltas(lots, notionals, scale, restored);
    ReducedTo(lots, notionals, Required(lots, notionals, equity, ratio, cost), scale, restored, deltas);
    ReducesBy(lots, notionals, equity, ratio, cost, restored, deltas);
  }

  lemma ChangedIsDeltas(lots: Lots, notionals: Weights, scale: real, restored: set<Symbol>)
    requires scale >= 0.0
    ensures var deltas := Changed(lots, FlooredTargets(lots, notionals, scale, restored));
            && deltas == DeltasTo(lots, FlooredTargets(lots, notionals, scale, restored))
            && NoZeros(deltas) && Normalized(deltas) == deltas
  {
    hide FloorLots, ScaledVolume, Weight;
  }

  lemma ReducedTo(lots: Lots, notionals: Weights, required: real, scale: real, restored: set<Symbol>, deltas: Lots)
    requires required > 0.0 && Total(Priced(lots, notionals), notionals) == Total(lots, notionals) > 0.0
    requires scale == RetainScale(required, Total(lots, notionals))
    requires deltas == DeltasTo(Priced(lots, notionals), Scaled(Priced(lots, notionals), scale, restored))
    requires Awards(Remainders(Priced(lots, notionals), scale), notionals, -Lost(lots, notionals, scale),
                    EPS - required, restored)
    ensures ReducesWith(lots, notionals, required, restored, deltas)
  {
    hide Total, RetainScale, Awards, Scaled, Remainders, Floors, Priced, DeltasTo;
  }

  lemma ReducesBy(lots: Lots, notionals: Weights, equity: real, ratio: real, cost: real, restored: set<Symbol>,
                  deltas: Lots)
    requires ratio > 0.0 && ratio * cost < 1.0 && Breached(lots, notionals, equity, ratio)
    requires ReducesWith(lots, notionals, Required(lots, notionals, equity, ratio, cost), restored, deltas)
    ensures Reduces(lots, notionals, equity, ratio, cost, deltas)
  {
    hide Breached, ReducesWith, Required;
  }
}
