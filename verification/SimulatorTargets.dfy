/** What a day wants, in terms of what the day brings: the governor's scale folds into the weights,
    and every target volume follows from one weight, one price and one multiplier. */
module SimulatorTargets {
  import opened Lots
  import opened LargestRemainder
  import opened GrossReduction
  import opened TargetLots
  import opened Market
  import opened AuditLedger
  import opened DayTargets
  import opened DaySession
  import opened DayTrades
  import opened Simulator

  // ---- One volume ----

  /** What a day's target holds of one contract: nothing for a negligible weight; the position it
      has when its product has no contract to trade; and otherwise, for the selected contract only
      and in the direction of the weight, the most lots up to the cap that the scaled weight of the
      equity pays for at the open. */
  lemma {:induction false} TargetIsExact(c: Contracts, config: Config, equity: real, lots: Lots, d: Day, s: Symbol)
    requires c.Valid() && ValidDay(c, d) && c.Holdable(lots) && config.maxVolume > 0 && equity > 0.0
    requires s in c.products
    ensures var p, v := c.products[s], At(DayTarget(c, config, equity, lots, d), s);
            var weight := if p in d.weights then d.weights[p] * d.scale else 0.0;
            var size := if weight < 0.0 then -weight else weight;
            if size <= NEGLIGIBLE then v == 0
            else if p !in d.selected || d.selected[p] !in d.bars then v == At(lots, s)
            else if d.selected[p] != s || p !in c.multipliers then v == 0
            else
              var lot := d.bars[s].open * c.multipliers[p];
              && Abs(v) <= config.maxVolume && (v != 0 ==> (v > 0) == (weight > 0.0))
              && (Abs(v) as real) * lot <= equity * size
              && (Abs(v) < config.maxVolume ==> equity * size < ((Abs(v) + 1) as real) * lot)
  {
    hide *;
    var p := c.products[s];
    var weight := if p in d.weights then d.weights[p] * d.scale else 0.0;
    TargetAt(c, config, equity, lots, d, s);
    Magnitude(weight);
    ScaledAt(d, p);
    TradingAt(d, p);
    if p in d.weights && AbsReal(weight) > NEGLIGIBLE && p in Trading(d) && d.selected[p] == s && p in c.multipliers {
      var lot := d.bars[s].open * c.multipliers[p];
      StagedAt(c, config, equity, d, s, lot);
      MostLots(equity, weight, lot, config.maxVolume);
    } else if p !in d.weights || AbsReal(weight) <= NEGLIGIBLE || p in Trading(d) {
      UnstagedAt(c, config, equity, d, s);
    }
  }

  lemma ScaledAt(d: Day, p: Product)
    ensures p in ScaledWeights(d) <==> p in d.weights
    ensures p in d.weights ==> ScaledWeights(d)[p] == d.weights[p] * d.scale
  {
  }

  lemma TradingAt(d: Day, p: Product)
    ensures p in Trading(d) <==> p in d.selected && d.selected[p] in d.bars
    ensures p in Trading(d) ==> Trading(d)[p] == d.selected[p]
  {
  }

  /** A product without a contract keeps its position, any other symbol has what was staged. */
  lemma TargetAt(c: Contracts, config: Config, equity: real, lots: Lots, d: Day, s: Symbol)
    requires c.Valid() && c.Holdable(lots) && ValidDay(c, d) && s in c.products
    ensures var p := c.products[s];
            At(DayTarget(c, config, equity, lots, d), s) ==
            if p in ScaledWeights(d) && AbsReal(ScaledWeights(d)[p]) > NEGLIGIBLE && p !in Trading(d)
            then At(lots, s)
            else At(Staged(c, config, equity, ScaledWeights(d), Trading(d), ProductOpens(d)), s)
  {
    hide ScaledWeights, Trading, ProductOpens, StagedVolume, AbsReal, ValidDay, Staged;
    if c.products[s] !in Trading(d) {
      UnstagedAt(c, config, equity, d, s);
    }
  }

  lemma StagedIs(c: Contracts, config: Config, equity: real, weights: ProductWeights, selected: Selection,
                 opens: map<Product, real>, s: Symbol)
    requires c.Valid() && s in c.products
    ensures var p, v := c.products[s], At(Staged(c, config, equity, weights, selected, opens), s);
            if p in weights && AbsReal(weights[p]) > NEGLIGIBLE && Available(c, selected, opens, p) && selected[p] == s
            then
              && LotValue(c, opens, p) > 0.0
              && v == LotsFor(equity, weights[p], LotValue(c, opens, p), config.maxVolume)
            else v == 0
  {
    hide LotsFor, AbsReal, LotValue;
    var p := c.products[s];
    if Available(c, selected, opens, p) {
      LotValueIsPositive(c, selected, opens, p);
    }
  }

  /** What was staged for the selected contract of a product that trades. */
  lemma StagedAt(c: Contracts, config: Config, equity: real, d: Day, s: Symbol, lot: real)
    requires c.Valid() && ValidDay(c, d) && s in c.products && s in d.bars
    requires c.products[s] in c.multipliers && lot == d.bars[s].open * c.multipliers[c.products[s]]
    requires c.products[s] in Trading(d) && Trading(d)[c.products[s]] == s
    ensures lot > 0.0
    ensures var p, weights := c.products[s], ScaledWeights(d);
            At(Staged(c, config, equity, weights, Trading(d), ProductOpens(d)), s)
            == if p in weights && AbsReal(weights[p]) > NEGLIGIBLE
               then LotsFor(equity, weights[p], lot, config.maxVolume) else 0
  {
    var p := c.products[s];
    OpenAt(c, d, p);
    hide ScaledWeights, Trading, ProductOpens, LotsFor, AbsReal, ValidDay, Staged;
    StagedIs(c, config, equity, ScaledWeights(d), Trading(d), ProductOpens(d), s);
    PositiveProduct(ProductOpens(d)[p], c.multipliers[p]);
    assert LotValue(c, ProductOpens(d), p) == lot;
  }

  /** Nothing is staged for another contract, a negligible weight or an unknown multiplier. */
  lemma UnstagedAt(c: Contracts, config: Config, equity: real, d: Day, s: Symbol)
    requires c.Valid() && ValidDay(c, d) && s in c.products
    requires var p, weights := c.products[s], ScaledWeights(d);
             || p !in weights || AbsReal(weights[p]) <= NEGLIGIBLE
             || p !in c.multipliers || p !in Trading(d) || Trading(d)[p] != s
    ensures At(Staged(c, config, equity, ScaledWeights(d), Trading(d), ProductOpens(d)), s) == 0
  {
    hide ScaledWeights, Trading, ProductOpens, LotsFor, AbsReal, ValidDay, Staged;
    StagedIs(c, config, equity, ScaledWeights(d), Trading(d), ProductOpens(d), s);
  }

  lemma OpenAt(c: Contracts, d: Day, p: Product)
    requires ValidDay(c, d)
    ensures p in ProductOpens(d) <==> p in Trading(d)
    ensures p in Trading(d) ==>
              Trading(d)[p] in d.bars && ProductOpens(d)[p] == d.bars[Trading(d)[p]].open > 0.0
  {
  }

  // ---- The scale ----

  /** The same day with the governor's scale multiplied into the weights. */
  function Folded(d: Day): Day {
    d.(weights := map p | p in d.weights :: d.weights[p] * d.scale, scale := 1.0)
  }

  /** A day runs exactly like the day whose weights carry the scale themselves. */
  lemma {:induction false} ScaleFoldsIntoWeights(c: Contracts, config: Config, costRate: real, d: Day, a: Account,
                                                 gap: seq<Event>, t: Session, reason: Reason, reject: Reason,
                                                 guarded: bool)
    requires c.Valid() && c.Holdable(a.lots)
    ensures DayRuns(c, config, costRate, d, a, gap, t, reason, reject, guarded)
            <==> DayRuns(c, config, costRate, Folded(d), a, gap, t, reason, reject, guarded)
  {
    hide *;
    var opens := OpensOf(d.bars, a.lots.Keys);
    var moves := Moves(c, a.previousClose, opens);
    var s := Opened(a, d, a.equity + Drift(a.lots, moves), gap);
    FoldedTarget(c, config, s.equity, a.lots, d);
    FoldedQuotes(a, d, a.equity + Drift(a.lots, moves), gap);
    RunsAlike(c, config, costRate, d, Folded(d), a, gap, t, reason, reject, guarded);
  }

  lemma RunsAlike(c: Contracts, config: Config, costRate: real, d: Day, e: Day, a: Account, gap: seq<Event>,
                  t: Session, reason: Reason, reject: Reason, guarded: bool)
    requires c.Valid() && c.Holdable(a.lots) && d.bars == e.bars
    requires var marked := a.equity + Drift(a.lots, Moves(c, a.previousClose, OpensOf(d.bars, a.lots.Keys)));
             var s := Opened(a, d, marked, gap);
             && Opened(a, e, marked, gap) == s && Quoted(s, e) == Quoted(s, d)
             && DayTarget(c, config, s.equity, a.lots, e) == DayTarget(c, config, s.equity, a.lots, d)
    ensures DayRuns(c, config, costRate, d, a, gap, t, reason, reject, guarded)
            <==> DayRuns(c, config, costRate, e, a, gap, t, reason, reject, guarded)
  {
    hide ReasonAtOpen, Liquidates, Trades, Marked, DayTarget, Drift, Moves, OpensOf, Opened, Quoted;
  }

  lemma FoldedQuotes(a: Account, d: Day, marked: real, gap: seq<Event>)
    ensures Folded(d).bars == d.bars && Opened(a, Folded(d), marked, gap) == Opened(a, d, marked, gap)
    ensures var s := Opened(a, d, marked, gap); Quoted(s, Folded(d)) == Quoted(s, d)
  {
    FoldedSelection(d);
    hide Chosen, OpensOf, ClosesOf;
  }

  lemma FoldedWeights(d: Day)
    ensures ScaledWeights(Folded(d)) == ScaledWeights(d)
  {
  }

  lemma FoldedSelection(d: Day)
    ensures Trading(Folded(d)) == Trading(d) && ProductOpens(Folded(d)) == ProductOpens(d)
    ensures Chosen(Folded(d)) == Chosen(d)
  {
  }

  lemma FoldedTarget(c: Contracts, config: Config, equity: real, lots: Lots, d: Day)
    requires c.Valid() && c.Holdable(lots)
    ensures DayTarget(c, config, equity, lots, Folded(d)) == DayTarget(c, config, equity, lots, d)
  {
    FoldedWeights(d);
    FoldedSelection(d);
    hide ScaledWeights, Trading, ProductOpens, Staged, TargetOf, Folded;
  }

  // ---- The gross ----

  /** The staged lots cost no more than the equity times the weights. */
  lemma {:induction false} StagedGross(c: Contracts, config: Config, equity: real, weights: ProductWeights,
                                       selected: Selection, opens: map<Product, real>)
    requires c.Valid() && Consistent(c, selected) && equity > 0.0
    ensures Total(Staged(c, config, equity, weights, selected, opens), StageNotionals(c, opens))
            <= equity * GrossWeight(weights)
    decreases |weights|
  {
    hide *;
    if weights == map[] {
      NothingStaged(c, config, equity, selected, opens);
      NoGross(equity);
    } else {
      var p :| p in weights;
      var rest := weights - {p};
      StagedGross(c, config, equity, rest, selected, opens);
      GrossWithout(weights, p);
      assert rest[p := weights[p]] == weights;
      ProductStaged(c, config, equity, rest, selected, opens, p, weights[p]);
      Distribute(equity, AbsReal(weights[p]), GrossWeight(rest));
    }
  }

  lemma NoGross(equity: real)
    ensures equity * GrossWeight(map[]) == 0.0
  {
    assert GrossWeight(map[]) == 0.0;
  }

  lemma ProductStaged(c: Contracts, config: Config, equity: real, weights: ProductWeights, selected: Selection,
                      opens: map<Product, real>, p: Product, w: real)
    requires c.Valid() && Consistent(c, selected) && equity > 0.0 && p !in weights
    ensures Total(Staged(c, config, equity, weights[p := w], selected, opens), StageNotionals(c, opens))
         <= Total(Staged(c, config, equity, weights, selected, opens), StageNotionals(c, opens)) + equity * AbsReal(w)
  {
    hide *;
    StagedGrows(c, config, equity, weights, selected, opens, p, w);
    Magnitude(w);
    NonNegativeProduct(equity, AbsReal(w));
    if AbsReal(w) > NEGLIGIBLE && Available(c, selected, opens, p) {
      ValueOfOne(c, selected, opens, p);
      MaxOfNonNegative(equity);
      var before, notionals := Staged(c, config, equity, weights, selected, opens), StageNotionals(c, opens);
      var v := LotsFor(equity, w, LotValue(c, opens, p), config.maxVolume);
      StageTotal(before, notionals, selected[p], v, LotValue(c, opens, p));
      LotsStayBelow(equity, w, LotValue(c, opens, p), config.maxVolume);
    }
  }

  lemma ValueOfOne(c: Contracts, selected: Selection, opens: map<Product, real>, p: Product)
    requires c.Valid() && Consistent(c, selected) && Available(c, selected, opens, p)
    ensures p in selected && p in c.multipliers && p in opens
    ensures Weight(StageNotionals(c, opens), selected[p]) == LotValue(c, opens, p)
  {
    hide LotValue;
  }

  lemma ScaledGross(d: Day)
    requires d.scale >= 0.0
    ensures GrossWeight(ScaledWeights(d)) == d.scale * GrossWeight(d.weights)
  {
    hide *;
    var ones := Ones(d.weights.Keys);
    forall p | p in ones
      ensures Weight(AbsWeights(ScaledWeights(d)), p) == d.scale * Weight(AbsWeights(d.weights), p)
    {
      ScaledAbs(d, p);
    }
    TotalScales(ones, AbsWeights(d.weights), AbsWeights(ScaledWeights(d)), d.scale);
    GrossAsTotal(d);
  }

  lemma GrossAsTotal(d: Day)
    ensures GrossWeight(d.weights) == Total(Ones(d.weights.Keys), AbsWeights(d.weights))
    ensures GrossWeight(ScaledWeights(d)) == Total(Ones(d.weights.Keys), AbsWeights(ScaledWeights(d)))
  {
    assert ScaledWeights(d).Keys == d.weights.Keys;
    hide Total, AbsWeights, Ones, ScaledWeights;
  }

  lemma ScaledAbs(d: Day, p: Product)
    requires d.scale >= 0.0 && p in Ones(d.weights.Keys)
    ensures Weight(AbsWeights(ScaledWeights(d)), p) == d.scale * Weight(AbsWeights(d.weights), p)
  {
    ScaledMagnitude(d.weights[p], d.scale);
    hide AbsReal;
  }

  lemma ScaledMagnitude(x: real, k: real)
    requires k >= 0.0
    ensures AbsReal(x * k) == k * AbsReal(x)
  {
    NonNegativeProduct(AbsReal(x), k);
  }

  /** The gross of the staged lots at the day's opening prices is covered by the equity times the
      governor's scale times the sum of the raw weights' magnitudes. */
  lemma {:induction false} StagedGrossIsCovered(c: Contracts, config: Config, equity: real, d: Day)
    requires c.Valid() && ValidDay(c, d) && equity > 0.0 && d.scale >= 0.0
    ensures var staged := Staged(c, config, equity, ScaledWeights(d), Trading(d), ProductOpens(d));
            Total(staged, c.Notionals(OpensOf(d.bars, d.bars.Keys))) <= equity * (d.scale * GrossWeight(d.weights))
  {
    hide *;
    var weights, selected, opens := ScaledWeights(d), Trading(d), ProductOpens(d);
    TradingIsConsistent(c, d);
    StagedGross(c, config, equity, weights, selected, opens);
    ScaledGross(d);
    var staged := Staged(c, config, equity, weights, selected, opens);
    forall s | s in staged
      ensures Weight(StageNotionals(c, opens), s) == Weight(c.Notionals(OpensOf(d.bars, d.bars.Keys)), s)
    {
      StagedIsHoldable(c, config, equity, weights, selected, opens);
      HoldsKnown(c, staged, s);
      StagedNotional(c, d, s);
    }
    TotalDependsOnWeights(staged, StageNotionals(c, opens), c.Notionals(OpensOf(d.bars, d.bars.Keys)));
  }

  lemma HoldsKnown(c: Contracts, lots: Lots, s: Symbol)
    requires c.Holdable(lots) && s in lots
    ensures c.Knows(s)
  {
  }

  lemma StagedNotional(c: Contracts, d: Day, s: Symbol)
    requires ValidDay(c, d) && c.Knows(s) && c.products[s] in Trading(d) && Trading(d)[c.products[s]] == s
    ensures Weight(StageNotionals(c, ProductOpens(d)), s) == Weight(c.Notionals(OpensOf(d.bars, d.bars.Keys)), s)
  {
    OpenAt(c, d, c.products[s]);
    hide Trading, ProductOpens, ValidDay;
  }
}
