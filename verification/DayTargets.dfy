/** What the simulator wants to hold on a day, and the gate in front of its openings. */
module DayTargets {
  import opened Lots
  import opened LargestRemainder
  import opened GrossReduction
  import opened TargetLots
  import opened Market

  type Selection = map<Product, Symbol>

  /** Every selected symbol is a contract of its product. */
  predicate Consistent(c: Contracts, selected: Selection) {
    forall p | p in selected :: selected[p] in c.products && c.products[selected[p]] == p
  }

  // ---- target_lot_stages ----

  datatype Stages = Stages(
    lots: Lots,
    desired: real,
    rounding: real,
    clipping: real,
    unavailable: real,
    integerNotional: real
  )

  /** A product has a contract, a multiplier and an opening price. */
  predicate Available(c: Contracts, selected: Selection, opens: map<Product, real>, p: Product) {
    p in selected && p in c.multipliers && p in opens && opens[p] > 0.0
  }

  /** Value of one lot of a product at its opening price. */
  function LotValue(c: Contracts, opens: map<Product, real>, p: Product): real
    requires p in c.multipliers && p in opens
  {
    opens[p] * c.multipliers[p]
  }

  lemma LotValueIsPositive(c: Contracts, selected: Selection, opens: map<Product, real>, p: Product)
    requires c.Valid() && Available(c, selected, opens, p)
    ensures LotValue(c, opens, p) > 0.0
  {
    PositiveProduct(opens[p], c.multipliers[p]);
  }

  /** Value of one lot of the selected contracts at their opening prices. */
  function StageNotionals(c: Contracts, opens: map<Product, real>): Weights {
    map s | s in c.products && c.Knows(s) && c.products[s] in opens :: LotValue(c, opens, c.products[s])
  }

  function StagedVolume(c: Contracts, config: Config, equity: real, weights: ProductWeights, selected: Selection,
                        opens: map<Product, real>, s: Symbol): int
    requires c.Valid() && s in c.products
  {
    var p := c.products[s];
    if p in weights && AbsReal(weights[p]) > NEGLIGIBLE && Available(c, selected, opens, p) && selected[p] == s then
      LotValueIsPositive(c, selected, opens, p);
      LotsFor(equity, weights[p], LotValue(c, opens, p), config.maxVolume)
    else 0
  }

  function Staged(c: Contracts, config: Config, equity: real, weights: ProductWeights, selected: Selection,
                  opens: map<Product, real>): Lots
    requires c.Valid()
  {
    map s | s in c.products && StagedVolume(c, config, equity, weights, selected, opens, s) != 0 ::
      StagedVolume(c, config, equity, weights, selected, opens, s)
  }

  /** The staged book is holdable: known contracts, at most one per product, within the cap. */
  lemma {:induction false} StagedIsHoldable(c: Contracts, config: Config, equity: real, weights: ProductWeights,
                                            selected: Selection, opens: map<Product, real>)
    requires c.Valid() && Consistent(c, selected)
    ensures var staged := Staged(c, config, equity, weights, selected, opens);
            && c.Holdable(staged)
            && forall s | s in staged ::
                 && c.products[s] in selected && selected[c.products[s]] == s
                 && Abs(staged[s]) <= config.maxVolume
                 && c.products[s] in weights && (staged[s] > 0) == (weights[c.products[s]] > 0.0)
  {
    hide LotsFor, LotValue;
    forall s | s in Staged(c, config, equity, weights, selected, opens)
      ensures var v := StagedVolume(c, config, equity, weights, selected, opens, s);
              Abs(v) <= config.maxVolume && (v > 0) == (weights[c.products[s]] > 0.0)
    {
      var p := c.products[s];
      LotValueIsPositive(c, selected, opens, p);
      LotsStayBelow(equity, weights[p], LotValue(c, opens, p), config.maxVolume);
    }
  }

  /** One product more adds its own contract, or nothing. */
  lemma StagedGrows(c: Contracts, config: Config, equity: real, weights: ProductWeights, selected: Selection,
                    opens: map<Product, real>, p: Product, w: real)
    requires c.Valid() && Consistent(c, selected) && p !in weights
    ensures var before := Staged(c, config, equity, weights, selected, opens);
            var after := Staged(c, config, equity, weights[p := w], selected, opens);
            if AbsReal(w) > NEGLIGIBLE && Available(c, selected, opens, p) then
              && LotValue(c, opens, p) > 0.0
              && selected[p] !in before
              && (var v := LotsFor(equity, w, LotValue(c, opens, p), config.maxVolume);
                  after == if v == 0 then before else before[selected[p] := v])
            else after == before
  {
    hide LotsFor, LotValue;
    var before := Staged(c, config, equity, weights, selected, opens);
    var after := Staged(c, config, equity, weights[p := w], selected, opens);
    forall s | s in c.products && c.products[s] != p
      ensures StagedVolume(c, config, equity, weights[p := w], selected, opens, s)
           == StagedVolume(c, config, equity, weights, selected, opens, s)
    {
    }
    if AbsReal(w) > NEGLIGIBLE && Available(c, selected, opens, p) {
      LotValueIsPositive(c, selected, opens, p);
    }
  }

  // ---- What staging loses ----

  /** Where the weighted equity of a product goes when it is not held: to a missing contract, to the
      fraction of a lot, or to the lots above the cap. */
  datatype Loss = Asked | Unavailable | Rounding | Clipping

  ghost function LossOf(loss: Loss, c: Contracts, config: Config, equity: real, selected: Selection,
                        opens: map<Product, real>, p: Product, weight: real): real
    requires c.Valid()
  {
    if AbsReal(weight) <= NEGLIGIBLE then 0.0
    else if !Available(c, selected, opens, p) then
      if loss.Asked? || loss.Unavailable? then equity * AbsReal(weight) else 0.0
    else
      LotValueIsPositive(c, selected, opens, p);
      var asked, lot := equity * AbsReal(weight), LotValue(c, opens, p);
      var whole := (asked / lot).Floor;
      match loss
      case Asked => asked
      case Unavailable => 0.0
      case Rounding => asked - (whole as real) * lot
      case Clipping => ((if whole > config.maxVolume then whole - config.maxVolume else 0) as real) * lot
  }

  ghost function LossMap(loss: Loss, c: Contracts, config: Config, equity: real, weights: ProductWeights,
                         selected: Selection, opens: map<Product, real>): Weights
    requires c.Valid()
  {
    map p | p in weights :: LossOf(loss, c, config, equity, selected, opens, p, weights[p])
  }

  /** The sum over all products. */
  ghost function LossSum(loss: Loss, c: Contracts, config: Config, equity: real, weights: ProductWeights,
                         selected: Selection, opens: map<Product, real>): real
    requires c.Valid()
  {
    SumOf(LossMap(loss, c, config, equity, weights, selected, opens))
  }

  ghost function SumOf(amounts: Weights): real {
    Total(Ones(amounts.Keys), amounts)
  }

  lemma SumGrows(amounts: Weights, p: Product, x: real)
    requires p !in amounts
    ensures SumOf(amounts[p := x]) == SumOf(amounts) + x
  {
    var more := amounts[p := x];
    assert more.Keys == amounts.Keys + {p};
    hide Total;
    AwardOneMore(amounts.Keys, more, p);
    TotalDependsOnWeights(Ones(amounts.Keys), more, amounts);
  }

  lemma NothingLostYet(loss: Loss, c: Contracts, config: Config, equity: real, selected: Selection,
                       opens: map<Product, real>)
    requires c.Valid()
    ensures LossSum(loss, c, config, equity, map[], selected, opens) == 0.0
  {
    hide LossOf;
    assert LossMap(loss, c, config, equity, map[], selected, opens).Keys == {};
  }

  lemma LossGrows(loss: Loss, c: Contracts, config: Config, equity: real, weights: ProductWeights,
                  selected: Selection, opens: map<Product, real>, p: Product, w: real)
    requires c.Valid() && p !in weights
    ensures LossSum(loss, c, config, equity, weights[p := w], selected, opens)
         == LossSum(loss, c, config, equity, weights, selected, opens)
            + LossOf(loss, c, config, equity, selected, opens, p, w)
  {
    hide LossOf, SumOf;
    var before := LossMap(loss, c, config, equity, weights, selected, opens);
    SumGrows(before, p, LossOf(loss, c, config, equity, selected, opens, p, w));
    assert LossMap(loss, c, config, equity, weights[p := w], selected, opens)
        == before[p := LossOf(loss, c, config, equity, selected, opens, p, w)];
  }

  /** The four sums of the products staged so far. */
  ghost predicate LossesAre(c: Contracts, config: Config, equity: real, weights: ProductWeights, selected: Selection,
                            opens: map<Product, real>, asked: real, unavailable: real, rounding: real, clipping: real)
    requires c.Valid()
  {
    && asked == LossSum(Asked, c, config, equity, weights, selected, opens)
    && unavailable == LossSum(Unavailable, c, config, equity, weights, selected, opens)
    && rounding == LossSum(Rounding, c, config, equity, weights, selected, opens)
    && clipping == LossSum(Clipping, c, config, equity, weights, selected, opens)
  }

  lemma NoLossesYet(c: Contracts, config: Config, equity: real, selected: Selection, opens: map<Product, real>)
    requires c.Valid()
    ensures LossesAre(c, config, equity, map[], selected, opens, 0.0, 0.0, 0.0, 0.0)
  {
    hide LossSum;
    NothingLostYet(Asked, c, config, equity, selected, opens);
    NothingLostYet(Unavailable, c, config, equity, selected, opens);
    NothingLostYet(Rounding, c, config, equity, selected, opens);
    NothingLostYet(Clipping, c, config, equity, selected, opens);
  }

  lemma LossesGrow(c: Contracts, config: Config, equity: real, weights: ProductWeights, selected: Selection,
                   opens: map<Product, real>, asked: real, unavailable: real, rounding: real, clipping: real,
                   p: Product, w: real)
    requires c.Valid() && p !in weights
    requires LossesAre(c, config, equity, weights, selected, opens, asked, unavailable, rounding, clipping)
    ensures LossesAre(c, config, equity, weights[p := w], selected, opens,
                      asked + LossOf(Asked, c, config, equity, selected, opens, p, w),
                      unavailable + LossOf(Unavailable, c, config, equity, selected, opens, p, w),
                      rounding + LossOf(Rounding, c, config, equity, selected, opens, p, w),
                      clipping + LossOf(Clipping, c, config, equity, selected, opens, p, w))
  {
    hide LossSum, LossOf;
    LossGrows(Asked, c, config, equity, weights, selected, opens, p, w);
    LossGrows(Unavailable, c, config, equity, weights, selected, opens, p, w);
    LossGrows(Rounding, c, config, equity, weights, selected, opens, p, w);
    LossGrows(Clipping, c, config, equity, weights, selected, opens, p, w);
  }

  /** Equity asked for, less what rounding, the volume cap and missing contracts take, is exactly the
      notional of the lots; each of the three takes what it takes of each product. */
  method TargetLotStages(c: Contracts, config: Config, equity: real, weights: ProductWeights, selected: Selection,
                         opens: map<Product, real>)
    returns (stages: Stages)
    requires c.Valid() && Consistent(c, selected) && config.maxVolume > 0
    ensures equity > 0.0 ==> stages.lots == Staged(c, config, equity, weights, selected, opens)
    ensures equity <= 0.0 ==> stages.lots == map[]
    ensures stages.integerNotional == Total(stages.lots, StageNotionals(c, opens))
    ensures stages.desired == stages.integerNotional + stages.rounding + stages.clipping + stages.unavailable
    ensures equity > 0.0 ==>
              LossesAre(c, config, equity, weights, selected, opens, stages.desired, stages.unavailable,
                        stages.rounding, stages.clipping)
    ensures equity <= 0.0 ==> stages == Stages(map[], 0.0, 0.0, 0.0, 0.0, 0.0)
  {
    hide *;
    NothingStaged(c, config, equity, selected, opens);
    NoLossesYet(c, config, equity, selected, opens);
    if equity <= 0.0 {
      return Stages(map[], 0.0, 0.0, 0.0, 0.0, 0.0);
    }
    var notionals := StageNotionals(c, opens);
    var lots: Lots := map[];
    var desired, rounding, clipping, unavailable := 0.0, 0.0, 0.0, 0.0;
    var order := SortSymbols(weights.Keys);
    NonePassed(order);
    AmongAll(weights);
    for i := 0 to |order|
      invariant lots == Staged(c, config, equity, Among(weights, Passed(order, i)), selected, opens)
      invariant desired == Total(lots, notionals) + rounding + clipping + unavailable
      invariant LossesAre(c, config, equity, Among(weights, Passed(order, i)), selected, opens, desired, unavailable,
                          rounding, clipping)
    {
      var p := order[i];
      OneMorePassed(order, i);
      AmongGrows(weights, Passed(order, i), p);
      ghost var done := Among(weights, Passed(order, i));
      var next, want, lost, clipped, absent := StageNext(c, config, equity, done, selected, opens, p, weights[p], lots);
      LossesGrow(c, config, equity, done, selected, opens, desired, unavailable, rounding, clipping, p, weights[p]);
      lots := next;
      desired := desired + want;
      rounding := rounding + lost;
      clipping := clipping + clipped;
      unavailable := unavailable + absent;
    }
    AllPassed(order, weights.Keys);
    TotalIsNonNegativeHere(c, config, equity, weights, selected, opens);
    var integer := desired - rounding - clipping - unavailable;
    MaxOfNonNegative(integer);
    stages := Stages(lots, desired, rounding, clipping, unavailable, Max(0.0, integer));
  }

  /** The loop body for one product. */
  method StageNext(c: Contracts, config: Config, equity: real, ghost done: ProductWeights, selected: Selection,
                   opens: map<Product, real>, p: Product, weight: real, lots: Lots)
    returns (next: Lots, want: real, lost: real, clipped: real, absent: real)
    requires c.Valid() && Consistent(c, selected) && config.maxVolume > 0 && equity > 0.0
    requires p !in done && lots == Staged(c, config, equity, done, selected, opens)
    ensures next == Staged(c, config, equity, done[p := weight], selected, opens)
    ensures want == LossOf(Asked, c, config, equity, selected, opens, p, weight)
    ensures absent == LossOf(Unavailable, c, config, equity, selected, opens, p, weight)
    ensures lost == LossOf(Rounding, c, config, equity, selected, opens, p, weight)
    ensures clipped == LossOf(Clipping, c, config, equity, selected, opens, p, weight)
    ensures Total(next, StageNotionals(c, opens)) + lost + clipped + absent
         == Total(lots, StageNotionals(c, opens)) + want
  {
    hide Total, LotsFor, StagedVolume, Staged, AbsReal, LotValue, Carried;
    StagedGrows(c, config, equity, done, selected, opens, p, weight);
    next, want, lost, clipped, absent := lots, 0.0, 0.0, 0.0, 0.0;
    if AbsReal(weight) <= NEGLIGIBLE {
      return;
    }
    want := Carried(equity, weight);
    CarriedIs(equity, weight);
    if !Available(c, selected, opens, p) {
      absent := want;
      return;
    }
    var v;
    v, lost, clipped := StageProduct(config, equity, weight, LotValue(c, opens, p));
    StageTotal(lots, StageNotionals(c, opens), selected[p], v, LotValue(c, opens, p));
    if v != 0 {
      next := lots[selected[p] := v];
    }
  }

  lemma CarriedIs(equity: real, weight: real)
    ensures Carried(equity, weight) == equity * AbsReal(weight)
  {
  }

  /** The weights of these products. */
  ghost function Among(weights: ProductWeights, products: set<Product>): ProductWeights {
    map p | p in weights && p in products :: weights[p]
  }

  lemma AmongGrows(weights: ProductWeights, products: set<Product>, p: Product)
    requires p in weights && p !in products
    ensures p !in Among(weights, products)
    ensures Among(weights, products + {p}) == Among(weights, products)[p := weights[p]]
  {
  }

  lemma AmongAll(weights: ProductWeights)
    ensures Among(weights, weights.Keys) == weights && Among(weights, {}) == map[]
  {
  }

  lemma MaxOfNonNegative(x: real)
    ensures x >= 0.0 ==> Max(0.0, x) == x
  {
  }

  lemma NothingStaged(c: Contracts, config: Config, equity: real, selected: Selection, opens: map<Product, real>)
    requires c.Valid()
    ensures Staged(c, config, equity, map[], selected, opens) == map[]
    ensures Total(map[], StageNotionals(c, opens)) == 0.0
  {
  }

  lemma StageTotal(lots: Lots, notionals: Weights, s: Symbol, v: int, notional: real)
    requires s !in lots && Weight(notionals, s) == notional
    ensures Total(if v == 0 then lots else lots[s := v], notionals)
            == Total(lots, notionals) + (Abs(v) as real) * notional
  {
    TotalUpdated(lots, notionals, s, v);
  }

  lemma TotalIsNonNegativeHere(c: Contracts, config: Config, equity: real, weights: ProductWeights,
                               selected: Selection, opens: map<Product, real>)
    requires c.Valid() && Consistent(c, selected)
    ensures Total(Staged(c, config, equity, weights, selected, opens), StageNotionals(c, opens)) >= 0.0
  {
    var staged := Staged(c, config, equity, weights, selected, opens);
    forall s | s in staged
      ensures Weight(StageNotionals(c, opens), s) >= 0.0
    {
      LotValueIsPositive(c, selected, opens, c.products[s]);
    }
    TotalIsNonNegative(staged, StageNotionals(c, opens));
  }

  /** One product: whole lots, what rounding loses, and what the cap cuts off. */
  method StageProduct(config: Config, equity: real, weight: real, lotNotional: real) returns (v: int, lost: real,
                      clipped: real)
    requires equity > 0.0 && lotNotional > 0.0 && config.maxVolume > 0 && AbsReal(weight) > NEGLIGIBLE
    ensures v == LotsFor(equity, weight, lotNotional, config.maxVolume)
    ensures Carried(equity, weight) == (Abs(v) as real) * lotNotional + lost + clipped
    ensures 0.0 <= lost < lotNotional && clipped >= 0.0
    ensures var whole := (Carried(equity, weight) / lotNotional).Floor;
            && lost == Carried(equity, weight) - (whole as real) * lotNotional
            && clipped == ((if whole > config.maxVolume then whole - config.maxVolume else 0) as real) * lotNotional
  {
    var want := Carried(equity, weight);
    NonNegativeProduct(equity, AbsReal(weight));
    Whole(want, lotNotional);
    var unconstrained := WholeLots(want, lotNotional);
    var capped := if unconstrained < config.maxVolume then unconstrained else config.maxVolume;
    v := 0;
    if capped > 0 {
      v := if weight > 0.0 then capped else -capped;
    }
    hide WholeLots;
    lost := want - (unconstrained as real) * lotNotional;
    clipped := 0.0;
    if unconstrained > capped {
      clipped := ((unconstrained - capped) as real) * lotNotional;
      NonNegativeProduct((unconstrained - capped) as real, lotNotional);
      Split(unconstrained, capped, lotNotional);
    }
  }

  lemma Split(whole: int, part: int, y: real)
    ensures (whole as real) * y == (part as real) * y + ((whole - part) as real) * y
  {
  }

  // ---- Holding on to products without a usable contract ----

  /** The target, with positions in unavailable products kept as they are. */
  function TargetOf(c: Contracts, staged: Lots, lots: Lots, missing: set<Product>): Lots
    requires c.Holdable(lots)
  {
    staged + map s | s in lots && c.products[s] in missing :: lots[s]
  }

  method KeepUnavailable(c: Contracts, staged: Lots, lots: Lots, missing: set<Product>) returns (target: Lots)
    requires c.Holdable(lots)
    ensures target == TargetOf(c, staged, lots, missing)
  {
    target := staged;
    var left := lots.Keys;
    while left != {}
      invariant left <= lots.Keys
      invariant forall s | s in target :: s in staged || (s in lots && s !in left && c.products[s] in missing)
      invariant forall s | s in staged :: s in target
      invariant forall s | s in lots && s !in left && c.products[s] in missing :: s in target && target[s] == lots[s]
      invariant forall s | s in staged && !(s in lots && s !in left && c.products[s] in missing) ::
                  target[s] == staged[s]
      decreases left
    {
      var s :| s in left;
      left := left - {s};
      if c.products[s] in missing {
        target := target[s := lots[s]];
      }
    }
  }

  /** Selected products never overlap the kept ones, so the target still holds one contract
      per product. */
  lemma {:induction false} TargetIsHoldable(c: Contracts, config: Config, equity: real, weights: ProductWeights,
                                            selected: Selection, opens: map<Product, real>, lots: Lots,
                                            missing: set<Product>)
    requires c.Valid() && Consistent(c, selected) && c.Holdable(lots) && missing !! selected.Keys
    ensures c.Holdable(TargetOf(c, Staged(c, config, equity, weights, selected, opens), lots, missing))
  {
    StagedIsHoldable(c, config, equity, weights, selected, opens);
    hide Staged;
  }

  // ---- check_opening_batch ----

  ghost predicate VolumesFit(config: Config, lots: Lots, openings: Lots) {
    forall s | s in openings :: Abs(At(lots, s)) + Abs(openings[s]) <= config.maxVolume
  }

  /** Equity carries this margin inside the margin and reserve gates. */
  predicate Carries(config: Config, equity: real, margin: real) {
    margin <= config.maxMargin * equity && equity - margin >= config.minAvailable * equity
  }

  lemma CarriesAsRatios(config: Config, equity: real, margin: real)
    requires equity > 0.0
    ensures margin / equity > config.maxMargin <==> margin > config.maxMargin * equity
    ensures (equity - margin) / equity < config.minAvailable <==> equity - margin < config.minAvailable * equity
  {
    RatioBounds(margin, equity, config.maxMargin);
    RatioBounds(equity - margin, equity, config.minAvailable);
  }

  /** The batch may go out: the account can carry it after paying its margin. */
  ghost predicate Admissible(c: Contracts, config: Config, equity: real, margin: real, lots: Lots, openings: Lots,
                             opens: Weights) {
    && equity > 0.0
    && VolumesFit(config, lots, openings)
    && (forall s | s in openings :: Weight(opens, s) > 0.0)
    && Carries(config, equity, margin + c.Margin(config, openings, opens))
  }

  /** Why a batch is turned away: the first of the checks that fails. */
  ghost predicate Judged(c: Contracts, config: Config, equity: real, margin: real, lots: Lots, openings: Lots,
                         opens: Weights, reason: Reason)
  {
    var post := margin + c.Margin(config, openings, opens);
    var sized := VolumesFit(config, lots, openings) && forall s | s in openings :: Weight(opens, s) > 0.0;
    match reason
    case Clear => Admissible(c, config, equity, margin, lots, openings, opens)
    case EquityNotPositive => equity <= 0.0
    case VolumeLimit => equity > 0.0 && !VolumesFit(config, lots, openings)
    case MissingOpeningPrice(s) => equity > 0.0 && s in openings && Weight(opens, s) <= 0.0
    case CombinedMargin => equity > 0.0 && sized && post > config.maxMargin * equity
    case CombinedReserve =>
      equity > 0.0 && sized && post <= config.maxMargin * equity && equity - post < config.minAvailable * equity
    case _ => false
  }

  method CheckOpeningBatch(c: Contracts, config: Config, equity: real, margin: real, lots: Lots, openings: Lots,
                           opens: Weights)
    returns (reason: Reason, estimated: real)
    requires c.Valid() && NoZeros(openings) && forall s | s in openings :: c.Knows(s)
    ensures reason == Clear <==> Admissible(c, config, equity, margin, lots, openings, opens)
    ensures Judged(c, config, equity, margin, lots, openings, opens, reason)
    ensures reason == Clear ==> estimated == c.Margin(config, openings, opens)
  {
    if equity <= 0.0 {
      return EquityNotPositive, 0.0;
    }
    reason, estimated := EstimateOpenings(c, config, lots, openings, opens);
    if reason != Clear {
      return;
    }
    var post := margin + estimated;
    JudgedByRatios(c, config, equity, margin, lots, openings, opens, post);
    hide *;
    if post / equity > config.maxMargin {
      return CombinedMargin, estimated;
    }
    if (equity - post) / equity < config.minAvailable {
      return CombinedReserve, estimated;
    }
  }

  /** The last two checks. */
  lemma JudgedByRatios(c: Contracts, config: Config, equity: real, margin: real, lots: Lots, openings: Lots,
                       opens: Weights, post: real)
    requires equity > 0.0 && VolumesFit(config, lots, openings)
    requires forall s | s in openings :: Weight(opens, s) > 0.0
    requires post == margin + c.Margin(config, openings, opens)
    ensures var reason := if post / equity > config.maxMargin then CombinedMargin
                          else if (equity - post) / equity < config.minAvailable then CombinedReserve
                          else Clear;
            && Judged(c, config, equity, margin, lots, openings, opens, reason)
            && (reason == Clear <==> Admissible(c, config, equity, margin, lots, openings, opens))
  {
    hide Total, VolumesFit, Weight;
    CarriesAsRatios(config, equity, post);
    var high, low := post > config.maxMargin * equity, equity - post < config.minAvailable * equity;
    assert Carries(config, equity, post) <==> !high && !low;
    hide Carries;
  }

  /** The loop over the openings. */
  method EstimateOpenings(c: Contracts, config: Config, lots: Lots, openings: Lots, opens: Weights)
    returns (reason: Reason, estimated: real)
    requires c.Valid() && forall s | s in openings :: c.Knows(s)
    ensures reason == Clear <==>
              VolumesFit(config, lots, openings) && forall s | s in openings :: Weight(opens, s) > 0.0
    ensures reason == Clear ==> estimated == c.Margin(config, openings, opens)
    ensures reason == VolumeLimit ==> !VolumesFit(config, lots, openings)
    ensures reason in {Clear, VolumeLimit} || reason.MissingOpeningPrice?
    ensures reason.MissingOpeningPrice? ==> reason.opening in openings && Weight(opens, reason.opening) <= 0.0
  {
    hide Total;
    var weights := c.MarginWeights(config, opens);
    estimated := 0.0;
    var left := openings.Keys;
    ghost var done: Lots := map[];
    NoEstimate(weights);
    while left != {}
      invariant left <= openings.Keys && done == openings - left
      invariant estimated == Total(done, weights)
      invariant forall s | s in openings && s !in left ::
                  Abs(At(lots, s)) + Abs(openings[s]) <= config.maxVolume && Weight(opens, s) > 0.0
      decreases left
    {
      var s :| s in left;
      var requested := Abs(openings[s]);
      if Abs(At(lots, s)) + requested > config.maxVolume {
        return VolumeLimit, estimated;
      }
      if Weight(opens, s) <= 0.0 {
        return MissingOpeningPrice(s), estimated;
      }
      left := left - {s};
      PutTotal(done, weights, s, openings[s]);
      done := done[s := openings[s]];
      assert done == openings - left;
      estimated := estimated + (requested as real) * Weight(weights, s);
    }
    assert done == openings;
    reason := Clear;
  }

  lemma NoEstimate(weights: Weights)
    ensures Total(map[], weights) == 0.0
  {
  }

  /** An admitted batch leaves every position within the cap and the whole book, at opening
      prices, inside the margin and reserve gates. */
  lemma {:induction false} AdmittedBookIsInside(c: Contracts, config: Config, equity: real, lots: Lots,
                                                openings: Lots, opens: Weights)
    requires NoZeros(lots) && NoZeros(openings)
    requires forall s | s in openings && s in lots :: (openings[s] > 0) == (lots[s] > 0)
    requires Admissible(c, config, equity, c.Margin(config, lots, opens), lots, openings, opens)
    ensures var after := AfterDeltas(lots, openings);
            && (forall s | s in openings :: Abs(At(after, s)) <= config.maxVolume)
            && Carries(config, equity, c.Margin(config, after, opens))
  {
    hide Total, Carries;
    var after := AfterDeltas(lots, openings);
    assert after.Keys == lots.Keys + openings.Keys;
    TotalIsAdditive(after, lots, openings, c.MarginWeights(config, opens));
  }
}
