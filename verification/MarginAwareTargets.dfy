/** The whole sizing pipeline: requested lots, margin evidence, soft envelope, fit, and the
    suppression of one-lot increases. */
module MarginAwareTargets {
  import opened Lots
  import opened MarginFit
  import opened GrossReduction
  import opened TargetLots

  const VOLATILITY_TRIGGER: real := 0.03

  // ---- stabilize_one_lot_increases ----

  predicate OneLotIncrease(current: int, target: int) {
    current != 0 && target != 0 && (current > 0) == (target > 0) && Abs(target) == Abs(current) + 1
  }

  /** The incumbent book is priced and itself inside the envelope and the gross ceiling. */
  ghost predicate IncumbentIsInside(current: Lots, notionals: Weights, margins: Weights, equity: real, share: real,
                                    ratio: real) {
    && equity > 0.0 && 0.0 <= share <= 1.0 && ratio > 0.0
    && (forall s | s in current && current[s] != 0 :: Weight(margins, s) > 0.0 && Weight(notionals, s) > 0.0)
    && Total(current, margins) <= equity * share + EPS
    && Total(current, notionals) <= equity * ratio + EPS
  }

  function Stabilized(current: Lots, target: Lots): Lots {
    map s | s in target && target[s] != 0 ::
      if OneLotIncrease(At(current, s), target[s]) then current[s] else target[s]
  }

  /** Suppression only takes single lots away, and only from increases of a held direction. */
  lemma {:induction false} StabilizedOnlyHolds(current: Lots, target: Lots, s: Symbol)
    ensures Within(Stabilized(current, target), target) && NoZeros(Stabilized(current, target))
    ensures At(Stabilized(current, target), s) != At(target, s) ==>
              && At(Stabilized(current, target), s) == At(current, s)
              && Abs(At(current, s)) == Abs(At(target, s)) - 1
    ensures Abs(At(target, s)) <= Abs(At(current, s)) ==> At(Stabilized(current, target), s) == At(target, s)
    ensures var had, wants := At(current, s), At(target, s);
            At(Stabilized(current, target), s)
            == if (had > 0 && wants == had + 1) || (had < 0 && wants == had - 1) then had else wants
  {
  }

  method StabilizeOneLotIncreases(current: Lots, target: Lots, notionals: Weights, margins: Weights,
                                  equity: real, share: real, ratio: real)
    returns (result: Lots)
    ensures result == if IncumbentIsInside(current, notionals, margins, equity, share, ratio)
                      then Stabilized(current, target) else Normalized(target)
  {
    result := Normalized(target);
    if equity <= 0.0 || !(0.0 <= share <= 1.0) || ratio <= 0.0 {
      return;
    }
    var priced := IncumbentIsPriced(current, notionals, margins);
    if !priced {
      return;
    }
    var currentMargin := Measure(current, margins);
    var currentGross := Measure(current, notionals);
    if currentMargin > equity * share + EPS {
      return;
    }
    if currentGross > equity * ratio + EPS {
      return;
    }
    hide Total;
    var left := result.Keys;
    while left != {}
      invariant left <= result.Keys && result.Keys == Normalized(target).Keys
      invariant forall s | s in result :: result[s] == if s in left then target[s] else Stabilized(current, target)[s]
      decreases left
    {
      var s :| s in left;
      left := left - {s};
      if OneLotIncrease(At(current, s), result[s]) {
        result := result[s := current[s]];
      }
    }
    assert NoZeros(result);
    result := Normalized(result);
  }

  method IncumbentIsPriced(current: Lots, notionals: Weights, margins: Weights) returns (priced: bool)
    ensures priced <==>
              forall s | s in current && current[s] != 0 :: Weight(margins, s) > 0.0 && Weight(notionals, s) > 0.0
  {
    var left := current.Keys;
    while left != {}
      invariant left <= current.Keys
      invariant forall s | s in current && s !in left && current[s] != 0 ::
                  Weight(margins, s) > 0.0 && Weight(notionals, s) > 0.0
      decreases left
    {
      var s :| s in left;
      left := left - {s};
      if current[s] != 0 && (Weight(margins, s) <= 0.0 || Weight(notionals, s) <= 0.0) {
        return false;
      }
    }
    priced := true;
  }

  // ---- build_margin_aware_target_lots ----

  /** Buffered margin of one lot, at the rate of its direction. */
  function UnitMargin(tick: Tick, spec: ContractSpec, long: bool, buffer: real): real {
    tick.midPrice * spec.multiplier * (if long then spec.marginRateLong else spec.marginRateShort) * buffer
  }

  /** Buffered margin per lot of a book, each contract at the rate of its own direction. */
  ghost function DirectionalMargins(lots: Lots, ticks: Ticks, specs: Specs, buffer: real): Weights {
    map s | s in lots && s in Symbols(ticks) && s in specs ::
      UnitMargin(ticks[ProductOf(ticks, s)], specs[s], lots[s] > 0, buffer)
  }

  /** Shrinking a book within its directions does not change any margin rate. */
  lemma MarginsKeepTheirRates(less: Lots, more: Lots, ticks: Ticks, specs: Specs, buffer: real)
    requires Within(less, more) && NoZeros(less)
    ensures Total(less, DirectionalMargins(less, ticks, specs, buffer))
            == Total(less, DirectionalMargins(more, ticks, specs, buffer))
  {
    hide UnitMargin;
    TotalDependsOnWeights(less, DirectionalMargins(less, ticks, specs, buffer),
                          DirectionalMargins(more, ticks, specs, buffer));
  }

  /** `{tick.symbol: tick for tick in product_ticks.values()}` */
  method TicksBySymbol(ticks: Ticks) returns (bySymbol: map<Symbol, Tick>)
    requires OneSymbolPerProduct(ticks)
    ensures bySymbol.Keys == Symbols(ticks)
    ensures forall s | s in bySymbol :: bySymbol[s] == ticks[ProductOf(ticks, s)]
  {
    bySymbol := map[];
    var left := ticks.Keys;
    while left != {}
      invariant left <= ticks.Keys
      invariant bySymbol.Keys <= Symbols(ticks)
      invariant forall p | p in ticks && p !in left :: ticks[p].symbol in bySymbol
      invariant forall s | s in bySymbol :: bySymbol[s] == ticks[ProductOf(ticks, s)]
      decreases left
    {
      var p :| p in left;
      left := left - {p};
      assert ticks[p].symbol in Symbols(ticks);
      bySymbol := bySymbol[ticks[p].symbol := ticks[p]];
    }
  }

  method MarginEvidence(requested: Lots, ticks: Ticks, specs: Specs, buffer: real) returns (r: Checked<Weights>)
    requires OneSymbolPerProduct(ticks)
    requires forall s | s in requested :: s in Symbols(ticks) && s in specs
    ensures r.Value? ==>
              r.value == DirectionalMargins(requested, ticks, specs, buffer) && PositiveOn(r.value, requested.Keys)
    ensures r.ValueError? <==>
              exists s | s in requested :: DirectionalMargins(requested, ticks, specs, buffer)[s] <= 0.0
  {
    hide *;
    var bySymbol := TicksBySymbol(ticks);
    ghost var all := DirectionalMargins(requested, ticks, specs, buffer);
    EveryMargin(requested, ticks, specs, buffer);
    var margins: Weights := map[];
    var left := requested.Keys;
    while left != {}
      invariant left <= requested.Keys && margins.Keys == requested.Keys - left
      invariant forall s | s in margins :: margins[s] == all[s] && margins[s] > 0.0
      decreases left
    {
      var s :| s in left;
      left := left - {s};
      var unit := UnitMargin(bySymbol[s], specs[s], requested[s] > 0, buffer);
      assert unit == all[s];
      if unit <= 0.0 {
        return ValueError;
      }
      margins := margins[s := unit];
    }
    assert margins == all;
    AllPositive(margins);
    r := Value(margins);
  }

  lemma EveryMargin(lots: Lots, ticks: Ticks, specs: Specs, buffer: real)
    requires forall s | s in lots :: s in Symbols(ticks) && s in specs
    ensures var all := DirectionalMargins(lots, ticks, specs, buffer);
            && all.Keys == lots.Keys
            && forall s | s in lots ::
                 all[s] == UnitMargin(ticks[ProductOf(ticks, s)], specs[s], lots[s] > 0, buffer)
  {
    hide UnitMargin;
  }

  lemma AllPositive(margins: Weights)
    requires forall s | s in margins :: margins[s] > 0.0
    ensures PositiveOn(margins, margins.Keys)
  {
  }

  /** The inputs the pipeline refuses: too much weight, and, once anything is requested, a
      buffer below one, a contract without positive margin, or limits out of range. */
  ghost predicate Refuses(equity: real, weights: ProductWeights, ticks: Ticks, specs: Specs, cap: int,
                          limits: Limits, buffer: real) {
    var requested := Requested(equity, weights, ticks, specs, cap);
    || GrossWeight(weights) > MAX_GROSS_LEVERAGE + EPS
    || (requested != map[] &&
        (|| buffer < 1.0
         || !limits.Valid()
         || exists s | s in requested :: Weight(DirectionalMargins(requested, ticks, specs, buffer), s) <= 0.0))
  }

  /** The result is the fit; one-lot increases are held back when the whole current book is
      among the requested contracts and itself inside the limits. */
  ghost predicate Sized(requested: Lots, ticks: Ticks, specs: Specs, buffer: real, equity: real, share: real,
                        current: Lots, fitted: Lots, lots: Lots)
    requires equity * share >= 0.0 && NoZeros(requested)
    requires PositiveOn(DirectionalMargins(requested, ticks, specs, buffer), requested.Keys)
  {
    var margins := DirectionalMargins(requested, ticks, specs, buffer);
    && Fits(requested, margins, equity * share, fitted)
    && lots == (if && current != map[] && current.Keys <= requested.Keys
                   && IncumbentIsInside(current, Notionals(ticks, specs), margins, equity, share, MAX_GROSS_LEVERAGE)
                then Stabilized(current, fitted) else fitted)
  }

  ghost predicate IsSized(equity: real, weights: ProductWeights, ticks: Ticks, specs: Specs, cap: int,
                          limits: Limits, buffer: real, completed: seq<real>, deviation: real, current: Lots,
                          lots: Lots)
  {
    var requested := Requested(equity, weights, ticks, specs, cap);
    var share := AdaptiveMarginSizingShare(limits, completed, deviation, 0.03);
    && share.Value? && equity * share.value >= 0.0 && NoZeros(requested)
    && PositiveOn(DirectionalMargins(requested, ticks, specs, buffer), requested.Keys)
    && exists fitted :: Sized(requested, ticks, specs, buffer, equity, share.value, current, fitted, lots)
  }

  /** Gross, cap and margin bounds of everything the pipeline returns. */
  lemma {:induction false} SizedIsSafe(equity: real, weights: ProductWeights, ticks: Ticks, specs: Specs, cap: int,
                                       buffer: real,
                                       share: real, current: Lots, fitted: Lots, lots: Lots)
    requires OneSymbolPerProduct(ticks) && GrossWeight(weights) <= MAX_GROSS_LEVERAGE + EPS
    requires equity * share >= 0.0 && equity > 0.0
    requires var requested := Requested(equity, weights, ticks, specs, cap);
             && NoZeros(requested)
             && PositiveOn(DirectionalMargins(requested, ticks, specs, buffer), requested.Keys)
             && Sized(requested, ticks, specs, buffer, equity, share, current, fitted, lots)
    ensures Within(lots, Requested(equity, weights, ticks, specs, cap)) && NoZeros(lots)
    ensures Total(lots, Notionals(ticks, specs)) <= equity * (MAX_GROSS_LEVERAGE + EPS)
    ensures Total(lots, DirectionalMargins(lots, ticks, specs, buffer)) <= equity * share + EPS
    ensures forall s | s in lots :: 0 < Abs(lots[s]) <= cap
  {
    var requested := Requested(equity, weights, ticks, specs, cap);
    CapOfPart(equity, weights, ticks, specs, cap, lots);
    hide *;
    SizedShrinks(requested, ticks, specs, buffer, equity, share, current, fitted, lots);
    GrossOfPart(equity, weights, ticks, specs, cap, lots);
  }

  /** The same bounds in money: at the mid prices, every lot counts its multiplier, and its buffered
      margin is at the long rate for a long position and at the short rate for a short one. */
  lemma {:induction false} SizedIsSafeInMoney(equity: real, weights: ProductWeights, ticks: Ticks, specs: Specs,
                                              cap: int, buffer: real, share: real, current: Lots, fitted: Lots,
                                              lots: Lots, values: Weights, charges: Weights)
    requires OneSymbolPerProduct(ticks) && GrossWeight(weights) <= MAX_GROSS_LEVERAGE + EPS
    requires equity * share >= 0.0 && equity > 0.0
    requires var requested := Requested(equity, weights, ticks, specs, cap);
             && NoZeros(requested)
             && PositiveOn(DirectionalMargins(requested, ticks, specs, buffer), requested.Keys)
             && Sized(requested, ticks, specs, buffer, equity, share, current, fitted, lots)
    requires forall p | p in ticks && ticks[p].symbol in lots && ticks[p].symbol in specs ::
               var s := ticks[p].symbol;
               && s in values && values[s] == ticks[p].midPrice * specs[s].multiplier
               && s in charges
               && charges[s] == values[s] * (if lots[s] > 0 then specs[s].marginRateLong else specs[s].marginRateShort)
                                * buffer
    ensures Total(lots, values) <= equity * (2.0 + EPS)
    ensures Total(lots, charges) <= equity * share + EPS
  {
    hide *;
    SizedIsSafe(equity, weights, ticks, specs, cap, buffer, share, current, fitted, lots);
    RequestedSymbols(equity, weights, ticks, specs, cap);
    TwiceGross();
    forall s | s in lots
      ensures Weight(Notionals(ticks, specs), s) == Weight(values, s)
      ensures Weight(DirectionalMargins(lots, ticks, specs, buffer), s) == Weight(charges, s)
    {
      OnlyRequested(lots, Requested(equity, weights, ticks, specs, cap), s);
      PricedInMoney(lots, ticks, specs, buffer, s, values, charges);
    }
    TotalDependsOnWeights(lots, Notionals(ticks, specs), values);
    TotalDependsOnWeights(lots, DirectionalMargins(lots, ticks, specs, buffer), charges);
  }

  lemma TwiceGross()
    ensures MAX_GROSS_LEVERAGE == 2.0
  {
  }

  lemma OnlyRequested(lots: Lots, requested: Lots, s: Symbol)
    requires Within(lots, requested) && s in lots
    ensures s in requested
  {
  }

  lemma PricedInMoney(lots: Lots, ticks: Ticks, specs: Specs, buffer: real, s: Symbol, values: Weights,
                      charges: Weights)
    requires s in lots && s in Symbols(ticks) && s in specs
    requires forall p | p in ticks && ticks[p].symbol == s ::
               && s in values && values[s] == ticks[p].midPrice * specs[s].multiplier
               && s in charges
               && charges[s] == values[s] * (if lots[s] > 0 then specs[s].marginRateLong else specs[s].marginRateShort)
                                * buffer
    ensures Weight(Notionals(ticks, specs), s) == Weight(values, s)
    ensures Weight(DirectionalMargins(lots, ticks, specs, buffer), s) == Weight(charges, s)
  {
    var p := ProductOf(ticks, s);
    assert ticks[p].symbol == s;
  }

  lemma SizedShrinks(requested: Lots, ticks: Ticks, specs: Specs, buffer: real, equity: real, share: real,
                     current: Lots, fitted: Lots, lots: Lots)
    requires equity * share >= 0.0 && NoZeros(requested)
    requires PositiveOn(DirectionalMargins(requested, ticks, specs, buffer), requested.Keys)
    requires Sized(requested, ticks, specs, buffer, equity, share, current, fitted, lots)
    ensures Within(lots, requested) && NoZeros(lots)
    ensures Total(lots, DirectionalMargins(lots, ticks, specs, buffer)) <= equity * share + EPS
  {
    var margins := DirectionalMargins(requested, ticks, specs, buffer);
    SizedIsOneOf(requested, ticks, specs, buffer, equity, share, current, fitted, lots);
    hide *;
    FitMeetsBudget(requested, margins, equity * share, fitted);
    StabilizedOnlyHolds(current, fitted, 0);
    Narrower(lots, fitted, requested, margins);
    MarginsKeepTheirRates(lots, requested, ticks, specs, buffer);
  }

  lemma SizedIsOneOf(requested: Lots, ticks: Ticks, specs: Specs, buffer: real, equity: real, share: real,
                     current: Lots, fitted: Lots, lots: Lots)
    requires equity * share >= 0.0 && NoZeros(requested)
    requires PositiveOn(DirectionalMargins(requested, ticks, specs, buffer), requested.Keys)
    requires Sized(requested, ticks, specs, buffer, equity, share, current, fitted, lots)
    ensures Fits(requested, DirectionalMargins(requested, ticks, specs, buffer), equity * share, fitted)
    ensures lots == fitted || lots == Stabilized(current, fitted)
  {
    hide Stabilized, IncumbentIsInside, Fits, Total, DirectionalMargins, Notionals;
  }

  /** Within is transitive for the totals' sake. */
  lemma Narrower(lots: Lots, fitted: Lots, requested: Lots, w: Weights)
    requires NoZeros(lots) && PositiveOn(w, requested.Keys)
    requires lots == fitted || Within(lots, fitted)
    requires Within(fitted, requested)
    ensures Within(lots, requested) && Total(lots, w) <= Total(fitted, w)
  {
    if lots != fitted {
      TotalIsMonotone(lots, fitted, w);
    }
  }

  lemma CapOfPart(equity: real, weights: ProductWeights, ticks: Ticks, specs: Specs, cap: int, lots: Lots)
    requires OneSymbolPerProduct(ticks)
    ensures Within(lots, Requested(equity, weights, ticks, specs, cap)) && NoZeros(lots) ==>
              forall s | s in lots :: 0 < Abs(lots[s]) <= cap
  {
    RequestedLots(equity, weights, ticks, specs, cap);
    hide Requested;
  }

  lemma GrossOfPart(equity: real, weights: ProductWeights, ticks: Ticks, specs: Specs, cap: int, lots: Lots)
    requires OneSymbolPerProduct(ticks) && GrossWeight(weights) <= MAX_GROSS_LEVERAGE + EPS && equity > 0.0
    requires Within(lots, Requested(equity, weights, ticks, specs, cap))
    ensures Total(lots, Notionals(ticks, specs)) <= equity * (MAX_GROSS_LEVERAGE + EPS)
  {
    RequestedIsPriced(equity, weights, ticks, specs, cap);
    RequestedIsCovered(equity, weights, ticks, specs, cap);
    hide Requested, Notionals, Total, GrossWeight;
    WithinTotal(lots, Requested(equity, weights, ticks, specs, cap), Notionals(ticks, specs));
  }

  lemma RequestedIsCovered(equity: real, weights: ProductWeights, ticks: Ticks, specs: Specs, cap: int)
    requires OneSymbolPerProduct(ticks) && GrossWeight(weights) <= MAX_GROSS_LEVERAGE + EPS && equity > 0.0
    ensures Total(Requested(equity, weights, ticks, specs, cap), Notionals(ticks, specs))
            <= equity * (MAX_GROSS_LEVERAGE + EPS)
  {
    RequestedGross(equity, weights, ticks, specs, cap);
    var gross, carried := GrossWeight(weights), Max(0.0, equity);
    hide Requested, Notionals, Total, GrossWeight;
    Larger(carried, gross, MAX_GROSS_LEVERAGE + EPS);
  }

  lemma RequestedIsPriced(equity: real, weights: ProductWeights, ticks: Ticks, specs: Specs, cap: int)
    requires OneSymbolPerProduct(ticks)
    ensures forall s | s in Requested(equity, weights, ticks, specs, cap) :: Weight(Notionals(ticks, specs), s) >= 0.0
  {
    RequestedLots(equity, weights, ticks, specs, cap);
    hide Requested, Notionals;
  }

  lemma Larger(factor: real, less: real, more: real)
    requires factor >= 0.0 && less <= more
    ensures factor * less <= factor * more
  {
    NonNegativeProduct(factor, more - less);
  }

  lemma LimitsDecide(limits: Limits, completed: seq<real>, deviation: real)
    ensures AdaptiveMarginSizingShare(limits, completed, deviation, VOLATILITY_TRIGGER).Value? <==> limits.Valid()
  {
    hide Shock, Excess, Discounted;
  }

  /** The budget of a soft share is one the hard share covers. */
  lemma BudgetIsCovered(equity: real, limits: Limits, completed: seq<real>, deviation: real, share: real)
    requires equity > 0.0 && AdaptiveMarginSizingShare(limits, completed, deviation, VOLATILITY_TRIGGER) == Value(share)
    ensures 0.0 <= equity * share <= equity * limits.HardShare()
  {
    ShareStaysBelowHardGates(limits, completed, deviation, VOLATILITY_TRIGGER);
    NonNegativeProduct(equity, share);
    Larger(equity, share, limits.HardShare());
  }

  /** For a book of requested contracts the collected notionals are the real ones. */
  lemma IncumbentNotionals(current: Lots, notionals: Weights, all: Weights, margins: Weights, equity: real,
                           share: real)
    requires forall s | s in current :: Weight(notionals, s) == Weight(all, s)
    ensures IncumbentIsInside(current, notionals, margins, equity, share, MAX_GROSS_LEVERAGE)
        <==> IncumbentIsInside(current, all, margins, equity, share, MAX_GROSS_LEVERAGE)
  {
    TotalDependsOnWeights(current, notionals, all);
    hide Total;
  }

  method BuildMarginAwareTargetLots(equity: real, weights: ProductWeights, ticks: Ticks, specs: Specs, cap: int,
                                    limits: Limits, buffer: real, completed: seq<real>, deviation: real,
                                    currentLots: Lots)
    returns (r: Checked<Lots>)
    requires OneSymbolPerProduct(ticks)
    ensures r.ValueError? <==> Refuses(equity, weights, ticks, specs, cap, limits, buffer)
    ensures r.Value? && Requested(equity, weights, ticks, specs, cap) == map[] ==> r.value == map[]
    ensures r.Value? && Requested(equity, weights, ticks, specs, cap) != map[] ==>
              IsSized(equity, weights, ticks, specs, cap, limits, buffer, completed, deviation, Normalized(currentLots),
                      r.value)
    ensures r.Value? && r.value != map[] ==>
              && equity > 0.0
              && Total(r.value, Notionals(ticks, specs)) <= equity * (MAX_GROSS_LEVERAGE + EPS)
              && Total(r.value, DirectionalMargins(r.value, ticks, specs, buffer)) <= equity * limits.HardShare() + EPS
              && forall s | s in r.value :: 0 < Abs(r.value[s]) <= cap
  {
    hide *;
    Refusals(equity, weights, ticks, specs, cap, limits, buffer);
    var built := BuildTargetLots(equity, weights, ticks, specs, cap);
    if built.ValueError? {
      return ValueError;
    }
    var requested := built.value;
    if requested == map[] {
      return Value(map[]);
    }
    RequestedSymbols(equity, weights, ticks, specs, cap);
    if equity <= 0.0 {
      return Value(map[]);
    }
    if buffer < 1.0 {
      return ValueError;
    }
    MarginsInPlace(requested, ticks, specs, buffer);
    var evidence := MarginEvidence(requested, ticks, specs, buffer);
    if evidence.ValueError? {
      return ValueError;
    }
    var margins := evidence.value;
    var sizing := AdaptiveMarginSizingShare(limits, completed, deviation, VOLATILITY_TRIGGER);
    LimitsDecide(limits, completed, deviation);
    if sizing.ValueError? {
      return ValueError;
    }
    var share := sizing.value;
    BudgetIsCovered(equity, limits, completed, deviation, share);
    var lots, fitted := Fit(requested, ticks, specs, buffer, equity, share, Normalized(currentLots), margins);
    SizedIsSafe(equity, weights, ticks, specs, cap, buffer, share, Normalized(currentLots), fitted, lots);
    SizedOnce(equity, weights, ticks, specs, cap, limits, buffer, completed, deviation, share, Normalized(currentLots),
              fitted, lots);
    r := Value(lots);
  }

  /** When the inputs are refused, check by check. */
  lemma Refusals(equity: real, weights: ProductWeights, ticks: Ticks, specs: Specs, cap: int, limits: Limits,
                 buffer: real)
    ensures var requested := Requested(equity, weights, ticks, specs, cap);
            Refuses(equity, weights, ticks, specs, cap, limits, buffer)
            <==> (|| GrossWeight(weights) > MAX_GROSS_LEVERAGE + EPS
                  || (requested != map[] && buffer < 1.0)
                  || (requested != map[] && !limits.Valid())
                  || (requested != map[] && !MarginsPositive(requested, ticks, specs, buffer)))
  {
    hide Requested, GrossWeight, DirectionalMargins, Weight;
  }

  /** Every requested lot needs margin. */
  ghost predicate MarginsPositive(requested: Lots, ticks: Ticks, specs: Specs, buffer: real) {
    forall s | s in requested :: Weight(DirectionalMargins(requested, ticks, specs, buffer), s) > 0.0
  }

  lemma MarginsInPlace(requested: Lots, ticks: Ticks, specs: Specs, buffer: real)
    requires forall s | s in requested :: s in Symbols(ticks) && s in specs
    ensures var margins := DirectionalMargins(requested, ticks, specs, buffer);
            && requested.Keys <= margins.Keys
            && (MarginsPositive(requested, ticks, specs, buffer) <==> forall s | s in requested :: margins[s] > 0.0)
  {
    EveryMargin(requested, ticks, specs, buffer);
    hide DirectionalMargins;
  }

  lemma RequestedSymbols(equity: real, weights: ProductWeights, ticks: Ticks, specs: Specs, cap: int)
    requires OneSymbolPerProduct(ticks)
    ensures var requested := Requested(equity, weights, ticks, specs, cap);
            && NoZeros(requested) && (requested != map[] ==> equity > 0.0)
            && forall s | s in requested :: s in Symbols(ticks) && s in specs
  {
    RequestedLots(equity, weights, ticks, specs, cap);
    hide Requested;
  }

  lemma SizedOnce(equity: real, weights: ProductWeights, ticks: Ticks, specs: Specs, cap: int, limits: Limits,
                  buffer: real, completed: seq<real>, deviation: real, share: real, current: Lots, fitted: Lots,
                  lots: Lots)
    requires AdaptiveMarginSizingShare(limits, completed, deviation, VOLATILITY_TRIGGER) == Value(share)
    requires equity * share >= 0.0
    requires var requested := Requested(equity, weights, ticks, specs, cap);
             && NoZeros(requested)
             && PositiveOn(DirectionalMargins(requested, ticks, specs, buffer), requested.Keys)
             && Sized(requested, ticks, specs, buffer, equity, share, current, fitted, lots)
    ensures IsSized(equity, weights, ticks, specs, cap, limits, buffer, completed, deviation, current, lots)
  {
    hide Requested, AdaptiveMarginSizingShare, Sized, DirectionalMargins, PositiveOn, NoZeros;
  }

  /** The fitted book, stabilized when the whole current book is among the requested contracts. */
  method Fit(requested: Lots, ticks: Ticks, specs: Specs, buffer: real, equity: real, share: real,
             current: Lots, margins: Weights)
    returns (lots: Lots, ghost fitted: Lots)
    requires OneSymbolPerProduct(ticks) && equity * share >= 0.0 && NoZeros(requested)
    requires forall s | s in requested :: s in Symbols(ticks) && s in specs
    requires margins == DirectionalMargins(requested, ticks, specs, buffer) && PositiveOn(margins, requested.Keys)
    ensures Sized(requested, ticks, specs, buffer, equity, share, current, fitted, lots)
  {
    hide Total, Notionals, DirectionalMargins, IncumbentIsInside, Stabilized, Fits;
    assert Normalized(requested) == requested;
    var fit := FitTargetLotsToMarginBudget(requested, margins, equity * share);
    lots := fit.value;
    fitted := lots;
    FitMeetsBudget(requested, margins, equity * share, fitted);
    if current != map[] {
      if current.Keys <= requested.Keys {
        var notionals := LotNotionals(requested, ticks, specs);
        IncumbentNotionals(current, notionals, Notionals(ticks, specs), margins, equity, share);
        lots := StabilizeOneLotIncreases(current, lots, notionals, margins, equity, share, MAX_GROSS_LEVERAGE);
        assert Normalized(fitted) == fitted;
      }
    }
  }

  method LotNotionals(requested: Lots, ticks: Ticks, specs: Specs) returns (notionals: Weights)
    requires OneSymbolPerProduct(ticks)
    requires forall s | s in requested :: s in Symbols(ticks) && s in specs
    ensures forall s | s in requested :: Weight(notionals, s) == Weight(Notionals(ticks, specs), s)
  {
    var bySymbol := TicksBySymbol(ticks);
    notionals := map s | s in requested :: LotNotional(bySymbol[s], specs);
  }
}
