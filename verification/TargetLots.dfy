/** From product weights to signed integer lots: request whole lots, fit them into a soft
    margin envelope, and drop increases of a single lot. */
module TargetLots {
  import opened Lots
  import opened LargestRemainder
  import opened GrossReduction

  type Product = nat
  type ProductWeights = map<Product, real>

  const MAX_GROSS_LEVERAGE: real := 2.0
  const NEGLIGIBLE: real := 0.000000000000001

  datatype Tick = Tick(symbol: Symbol, midPrice: real)
  datatype ContractSpec = ContractSpec(multiplier: real, marginRateLong: real, marginRateShort: real)

  type Ticks = map<Product, Tick>
  type Specs = map<Symbol, ContractSpec>

  function AbsReal(x: real): real {
    if x < 0.0 then -x else x
  }

  function Min(x: real, y: real): real {
    if x < y then x else y
  }

  function Max(x: real, y: real): real {
    if x < y then y else x
  }

  // ---- adaptive_margin_sizing_share ----

  datatype Limits = Limits(maxMargin: real, minAvailable: real, maxDailyLoss: real) {
    predicate Valid() {
      0.0 < maxMargin < 1.0 && 0.0 <= minAvailable < 1.0 && 0.0 < maxDailyLoss < 1.0
    }

    /** The hard account gates, as a share of equity. */
    function HardShare(): real {
      Min(maxMargin, 1.0 - minAvailable)
    }

    function Conservative(): real {
      Max(0.0, HardShare() - maxDailyLoss)
    }
  }

  /** `deviation` stands for the sample deviation of the last two returns. */
  function Shock(limits: Limits, completed: seq<real>, deviation: real, trigger: real): real
    requires completed != []
  {
    var observed := Max(Max(trigger, AbsReal(completed[|completed| - 1])), if |completed| >= 2 then deviation else 0.0);
    Min(Max(observed, trigger), limits.maxDailyLoss)
  }

  function Excess(limits: Limits, completed: seq<real>, deviation: real, trigger: real): real
    requires completed != []
  {
    Max(0.0, Shock(limits, completed, deviation, trigger) - trigger)
  }

  function Discounted(amount: real, excess: real): real {
    amount * (1.0 - excess)
  }

  function AdaptiveMarginSizingShare(limits: Limits, completed: seq<real>, deviation: real,
                                     trigger: real): Checked<real> {
    if !limits.Valid() || trigger <= 0.0 then
      ValueError
    else if completed == [] then
      Value(Min(limits.HardShare(), limits.Conservative()))
    else
      var adaptive := Discounted(limits.Conservative(), Excess(limits, completed, deviation, trigger));
      Value(Min(limits.HardShare(), Max(0.0, Min(limits.Conservative(), adaptive))))
  }

  lemma Discount(amount: real, less: real, more: real)
    requires amount >= 0.0 && 0.0 <= less <= more < 1.0
    ensures 0.0 <= Discounted(amount, more) <= Discounted(amount, less) <= amount
  {
    NonNegativeProduct(amount, 1.0 - more);
    NonNegativeProduct(amount, more - less);
    NonNegativeProduct(amount, less);
  }

  /** The share is the conservative one, discounted by the excess of the shock. */
  lemma ShareExactly(limits: Limits, completed: seq<real>, deviation: real, trigger: real)
    requires limits.Valid() && trigger > 0.0 && completed != []
    ensures var excess := Excess(limits, completed, deviation, trigger);
            && 0.0 <= excess < 1.0
            && AdaptiveMarginSizingShare(limits, completed, deviation, trigger)
               == Value(Discounted(limits.Conservative(), excess))
  {
    var excess := Excess(limits, completed, deviation, trigger);
    assert 0.0 <= excess < 1.0;
    hide Shock, Excess, Discounted;
    Discount(limits.Conservative(), 0.0, excess);
  }

  lemma NoEvidence(limits: Limits, trigger: real)
    requires limits.Valid() && trigger > 0.0
    ensures AdaptiveMarginSizingShare(limits, [], 0.0, trigger) == Value(limits.Conservative())
  {
  }

  /** The soft share never reaches past the hard gates, and keeps the daily-loss reserve free
      whenever the gates leave room for one. */
  lemma {:induction false} ShareStaysBelowHardGates(limits: Limits, completed: seq<real>, deviation: real,
                                                    trigger: real)
    requires AdaptiveMarginSizingShare(limits, completed, deviation, trigger).Value?
    ensures var share := AdaptiveMarginSizingShare(limits, completed, deviation, trigger).value;
            && 0.0 <= share <= limits.maxMargin
            && share <= 1.0 - limits.minAvailable
            && (limits.HardShare() >= limits.maxDailyLoss ==> share + limits.maxDailyLoss <= limits.HardShare())
  {
    if completed != [] {
      ShareExactly(limits, completed, deviation, trigger);
      var excess := Excess(limits, completed, deviation, trigger);
      Discount(limits.Conservative(), 0.0, excess);
      hide Shock, Excess, Discounted;
    }
  }

  /** Completed shocks only ever contract the share: calm evidence leaves it where no evidence
      would, and a larger shock never gives more than a smaller one. */
  lemma {:induction false} ShocksOnlyContract(limits: Limits, calm: seq<real>, calmDeviation: real, wild: seq<real>,
                                              wildDeviation: real, trigger: real)
    requires limits.Valid() && trigger > 0.0 && calm != [] && wild != []
    requires Shock(limits, calm, calmDeviation, trigger) <= Shock(limits, wild, wildDeviation, trigger)
    ensures AdaptiveMarginSizingShare(limits, wild, wildDeviation, trigger).value
         <= AdaptiveMarginSizingShare(limits, calm, calmDeviation, trigger).value
         <= AdaptiveMarginSizingShare(limits, [], 0.0, trigger).value
    ensures Shock(limits, calm, calmDeviation, trigger) <= trigger ==>
              AdaptiveMarginSizingShare(limits, calm, calmDeviation, trigger)
                  == AdaptiveMarginSizingShare(limits, [], 0.0, trigger)
  {
    var less, more := Excess(limits, calm, calmDeviation, trigger), Excess(limits, wild, wildDeviation, trigger);
    assert less <= more && (Shock(limits, calm, calmDeviation, trigger) <= trigger ==> less == 0.0);
    NoEvidence(limits, trigger);
    ShareExactly(limits, calm, calmDeviation, trigger);
    ShareExactly(limits, wild, wildDeviation, trigger);
    assert Discounted(limits.Conservative(), 0.0) == limits.Conservative();
    hide *;
    Discount(limits.Conservative(), less, more);
  }

  /** The share outright. It looks at the latest return, and with two or more returns at the deviation
      of the last two: the worse of them, counted up to the daily-loss limit, cuts the share that keeps
      the daily-loss reserve by what exceeds the trigger. */
  lemma {:induction false} ShareIsExact(limits: Limits, completed: seq<real>, deviation: real, trigger: real,
                                        reserved: real, size: real, counted: real)
    requires limits.Valid() && trigger > 0.0
    requires var gate := if limits.maxMargin < 1.0 - limits.minAvailable then limits.maxMargin
                         else 1.0 - limits.minAvailable;
             reserved == if gate > limits.maxDailyLoss then gate - limits.maxDailyLoss else 0.0
    requires completed != [] ==>
               var last := completed[|completed| - 1];
               var worst := if |completed| >= 2 && deviation > size then deviation else size;
               && size == (if last < 0.0 then -last else last)
               && counted == (if worst > limits.maxDailyLoss then limits.maxDailyLoss else worst)
    ensures AdaptiveMarginSizingShare(limits, completed, deviation, trigger)
         == Value(if completed == [] || counted <= trigger then reserved else reserved * (1.0 - (counted - trigger)))
  {
    hide *;
    ReservedIs(limits);
    if completed == [] {
      NoEvidence(limits, trigger);
      NoneLikeNone(limits, deviation, trigger);
    } else {
      ShareExactly(limits, completed, deviation, trigger);
      ShockIsWorst(limits, completed, deviation, trigger);
      DiscountIs(reserved, counted, trigger);
    }
  }

  lemma NoneLikeNone(limits: Limits, deviation: real, trigger: real)
    ensures AdaptiveMarginSizingShare(limits, [], deviation, trigger)
         == AdaptiveMarginSizingShare(limits, [], 0.0, trigger)
  {
  }

  lemma ReservedIs(limits: Limits)
    ensures var gate := if limits.maxMargin < 1.0 - limits.minAvailable then limits.maxMargin
                        else 1.0 - limits.minAvailable;
            limits.Conservative() == if gate > limits.maxDailyLoss then gate - limits.maxDailyLoss else 0.0
  {
  }

  lemma DiscountIs(amount: real, counted: real, trigger: real)
    ensures Discounted(amount, if counted <= trigger then 0.0 else counted - trigger)
         == if counted <= trigger then amount else amount * (1.0 - (counted - trigger))
  {
    NothingCut(amount);
  }

  lemma ShockIsWorst(limits: Limits, completed: seq<real>, deviation: real, trigger: real)
    requires limits.Valid() && trigger > 0.0 && completed != []
    ensures var last := completed[|completed| - 1];
            var size := if last < 0.0 then -last else last;
            var worst := if |completed| >= 2 && deviation > size then deviation else size;
            var counted := if worst > limits.maxDailyLoss then limits.maxDailyLoss else worst;
            Excess(limits, completed, deviation, trigger) == if counted <= trigger then 0.0 else counted - trigger
  {
  }

  /** Only the latest return and the deviation count; calm ones leave the share where no evidence
      would; a latest return beyond the trigger cuts it, down to a floor at the daily-loss limit. */
  lemma {:induction false} LatestReturnDecides(limits: Limits, completed: seq<real>, other: seq<real>,
                                               deviation: real, trigger: real)
    requires limits.Valid() && trigger > 0.0 && |completed| >= 2
    ensures |other| >= 2 && other[|other| - 1] == completed[|completed| - 1] ==>
              AdaptiveMarginSizingShare(limits, other, deviation, trigger)
              == AdaptiveMarginSizingShare(limits, completed, deviation, trigger)
    ensures var last := completed[|completed| - 1];
            var share := AdaptiveMarginSizingShare(limits, completed, deviation, trigger);
            var calm := AdaptiveMarginSizingShare(limits, [], 0.0, trigger);
            && share.Value? && calm.Value?
            && (-trigger <= last <= trigger && deviation <= trigger ==> share == calm)
            && (calm.value > 0.0 && trigger < limits.maxDailyLoss && !(-trigger <= last <= trigger) ==>
                  share.value < calm.value)
            && (trigger <= limits.maxDailyLoss && !(-limits.maxDailyLoss < last < limits.maxDailyLoss) ==>
                  share.value == calm.value * (1.0 - (limits.maxDailyLoss - trigger)))
  {
    hide *;
    DailyLossBounds(limits);
    NoEvidence(limits, trigger);
    ShareExactly(limits, completed, deviation, trigger);
    ShockIsWorst(limits, completed, deviation, trigger);
    if |other| >= 2 {
      ShareExactly(limits, other, deviation, trigger);
      ShockIsWorst(limits, other, deviation, trigger);
    }
    var last := completed[|completed| - 1];
    var size := if last < 0.0 then -last else last;
    LatestCut(limits.Conservative(), size, deviation, limits.maxDailyLoss, trigger);
  }

  lemma DailyLossBounds(limits: Limits)
    requires limits.Valid()
    ensures 0.0 < limits.maxDailyLoss < 1.0
  {
  }

  /** What a worst return does to the reserve-keeping share. */
  lemma LatestCut(calm: real, size: real, deviation: real, daily: real, trigger: real)
    requires 0.0 < daily && 0.0 < trigger
    ensures var worst := if deviation > size then deviation else size;
            var counted := if worst > daily then daily else worst;
            var share := Discounted(calm, if counted <= trigger then 0.0 else counted - trigger);
            && (size <= trigger && deviation <= trigger ==> share == calm)
            && (calm > 0.0 && trigger < daily && size > trigger ==> share < calm)
            && (trigger <= daily && size >= daily ==> share == calm * (1.0 - (daily - trigger)))
  {
    var worst := if deviation > size then deviation else size;
    var counted := if worst > daily then daily else worst;
    DiscountIs(calm, counted, trigger);
    hide Discounted;
    if counted > trigger && calm > 0.0 {
      Cut(calm, counted - trigger);
    }
    NothingCut(calm);
  }

  lemma Cut(amount: real, part: real)
    requires amount > 0.0 && part > 0.0
    ensures amount * (1.0 - part) < amount
  {
    PositiveProduct(amount, part);
    assert amount * (1.0 - part) == amount - amount * part;
  }

  lemma NothingCut(amount: real)
    ensures amount * (1.0 - 0.0) == amount
  {
  }

  // ---- build_target_lots ----

  predicate OneSymbolPerProduct(ticks: Ticks) {
    forall p, q | p in ticks && q in ticks && ticks[p].symbol == ticks[q].symbol :: p == q
  }

  function LotNotional(tick: Tick, specs: Specs): real
    requires tick.symbol in specs
  {
    tick.midPrice * specs[tick.symbol].multiplier
  }

  predicate Tradable(weight: real, p: Product, ticks: Ticks, specs: Specs) {
    && AbsReal(weight) > NEGLIGIBLE
    && p in ticks && ticks[p].symbol in specs
    && ticks[p].midPrice > 0.0 && LotNotional(ticks[p], specs) > 0.0
  }

  /** The notional a weight asks for. */
  function Carried(equity: real, weight: real): real {
    equity * AbsReal(weight)
  }

  function WholeLots(amount: real, notional: real): int
    requires notional > 0.0
  {
    (amount / notional).Floor
  }

  /** Whole lots of at most the weighted equity, capped, in the direction of the weight. */
  function LotsFor(equity: real, weight: real, notional: real, cap: int): int
    requires notional > 0.0
  {
    var whole := WholeLots(Carried(equity, weight), notional);
    var lots := if whole < cap then whole else cap;
    if lots <= 0 then 0 else if weight > 0.0 then lots else -lots
  }

  function Wanted(equity: real, weight: real, p: Product, ticks: Ticks, specs: Specs, cap: int): int {
    if Tradable(weight, p, ticks, specs) then LotsFor(equity, weight, LotNotional(ticks[p], specs), cap) else 0
  }

  function Symbols(ticks: Ticks): set<Symbol> {
    set p | p in ticks :: ticks[p].symbol
  }

  /** The product a contract stands for. */
  ghost function ProductOf(ticks: Ticks, s: Symbol): (p: Product)
    requires s in Symbols(ticks)
    ensures p in ticks && ticks[p].symbol == s
  {
    var p :| p in ticks && ticks[p].symbol == s;
    p
  }

  ghost function VolumeAt(volumes: map<Product, int>, ticks: Ticks, s: Symbol): int
    requires s in Symbols(ticks)
  {
    if ProductOf(ticks, s) in volumes then volumes[ProductOf(ticks, s)] else 0
  }

  /** Volumes per product, filed under the contract that stands for it. */
  ghost function Filed(volumes: map<Product, int>, ticks: Ticks): Lots {
    map s | s in Symbols(ticks) && VolumeAt(volumes, ticks, s) != 0 :: VolumeAt(volumes, ticks, s)
  }

  ghost function Volumes(equity: real, weights: ProductWeights, ticks: Ticks, specs: Specs,
                         cap: int): map<Product, int> {
    map p | p in weights :: Wanted(equity, weights[p], p, ticks, specs, cap)
  }

  /** The requested lots per contract. */
  ghost function Requested(equity: real, weights: ProductWeights, ticks: Ticks, specs: Specs, cap: int): Lots {
    Filed(Volumes(equity, weights, ticks, specs, cap), ticks)
  }

  ghost function Notionals(ticks: Ticks, specs: Specs): Weights {
    map s | s in Symbols(ticks) && s in specs :: LotNotional(ticks[ProductOf(ticks, s)], specs)
  }

  function AbsWeights(weights: ProductWeights): Weights {
    map p | p in weights :: AbsReal(weights[p])
  }

  /** `sum(abs(value) for value in product_weights.values())` */
  ghost function GrossWeight(weights: ProductWeights): real {
    Total(Ones(weights.Keys), AbsWeights(weights))
  }

  lemma GrossWithout(weights: ProductWeights, p: Product)
    requires p in weights
    ensures GrossWeight(weights) == AbsReal(weights[p]) + GrossWeight(weights - {p})
  {
    var ones := Ones(weights.Keys);
    TotalWithout(ones, AbsWeights(weights), p);
    assert ones - {p} == Ones((weights - {p}).Keys);
    TotalDependsOnWeights(ones - {p}, AbsWeights(weights), AbsWeights(weights - {p}));
  }

  /** One product more or less changes only its own contract. */
  lemma RequestedWithout(equity: real, weights: ProductWeights, ticks: Ticks, specs: Specs, cap: int, p: Product)
    requires OneSymbolPerProduct(ticks) && p in weights
    ensures var rest := Requested(equity, weights - {p}, ticks, specs, cap);
            var v := Wanted(equity, weights[p], p, ticks, specs, cap);
            && (v == 0 ==> Requested(equity, weights, ticks, specs, cap) == rest)
            && (v != 0 ==> p in ticks && ticks[p].symbol !in rest
                           && Requested(equity, weights, ticks, specs, cap) == rest[ticks[p].symbol := v])
  {
    var volumes: map<Product, int> := Volumes(equity, weights, ticks, specs, cap);
    assert Volumes(equity, weights - {p}, ticks, specs, cap) == volumes - {p};
    if volumes[p] != 0 {
      assert p in ticks;
    }
    hide Wanted, Volumes;
    FiledWithout(volumes, ticks, p);
  }

  lemma FiledWithout(volumes: map<Product, int>, ticks: Ticks, p: Product)
    requires OneSymbolPerProduct(ticks) && p in volumes
    ensures volumes[p] == 0 || p !in ticks ==> Filed(volumes, ticks) == Filed(volumes - {p}, ticks)
    ensures volumes[p] != 0 && p in ticks ==>
              && ticks[p].symbol !in Filed(volumes - {p}, ticks)
              && Filed(volumes, ticks) == Filed(volumes - {p}, ticks)[ticks[p].symbol := volumes[p]]
  {
    if p in ticks {
      assert ticks[p].symbol in Symbols(ticks);
    }
    forall s | s in Symbols(ticks) && !(p in ticks && s == ticks[p].symbol)
      ensures VolumeAt(volumes, ticks, s) == VolumeAt(volumes - {p}, ticks, s)
    {
    }
  }

  /** A whole-lot position never exceeds the equity it was asked to carry. */
  lemma LotsStayBelow(equity: real, weight: real, notional: real, cap: int)
    requires notional > 0.0
    ensures var v := LotsFor(equity, weight, notional, cap);
            && (v != 0 ==> Abs(v) <= cap && (v > 0) == (weight > 0.0) && equity > 0.0)
            && (Abs(v) as real) * notional <= Max(0.0, equity) * AbsReal(weight)
  {
    var v, want := LotsFor(equity, weight, notional, cap), equity * AbsReal(weight);
    NonNegativeProduct(Max(0.0, equity), AbsReal(weight));
    if v != 0 {
      Quotient(want, notional);
      NonNegativeProduct(want / notional - (Abs(v) as real), notional);
      if equity <= 0.0 {
        NonNegativeProduct(-equity, AbsReal(weight));
      }
    }
  }

  lemma Quotient(x: real, y: real)
    requires y > 0.0
    ensures x / y * y == x
    ensures x <= 0.0 ==> x / y <= 0.0
  {
  }

  /** The requested gross is covered by the weighted equity. */
  lemma {:induction false} RequestedGross(equity: real, weights: ProductWeights, ticks: Ticks, specs: Specs, cap: int)
    requires OneSymbolPerProduct(ticks)
    ensures Total(Requested(equity, weights, ticks, specs, cap), Notionals(ticks, specs))
            <= Max(0.0, equity) * GrossWeight(weights)
    decreases |weights|
  {
    hide *;
    if weights == map[] {
      NoWeights(equity, weights, ticks, specs, cap);
    } else {
      var p :| p in weights;
      RequestedGross(equity, weights - {p}, ticks, specs, cap);
      GrossWithout(weights, p);
      ProductGross(equity, weights, ticks, specs, cap, p);
      Distribute(Max(0.0, equity), AbsReal(weights[p]), GrossWeight(weights - {p}));
    }
  }

  lemma NoWeights(equity: real, weights: ProductWeights, ticks: Ticks, specs: Specs, cap: int)
    requires OneSymbolPerProduct(ticks) && weights == map[]
    ensures Total(Requested(equity, weights, ticks, specs, cap), Notionals(ticks, specs)) == 0.0
    ensures Max(0.0, equity) * GrossWeight(weights) == 0.0
  {
    assert Volumes(equity, weights, ticks, specs, cap) == map[];
    assert Requested(equity, weights, ticks, specs, cap) == map[];
    assert GrossWeight(weights) == 0.0;
  }

  /** What one product adds to the gross. */
  lemma ProductGross(equity: real, weights: ProductWeights, ticks: Ticks, specs: Specs, cap: int, p: Product)
    requires OneSymbolPerProduct(ticks) && p in weights
    ensures Total(Requested(equity, weights, ticks, specs, cap), Notionals(ticks, specs))
         <= Total(Requested(equity, weights - {p}, ticks, specs, cap), Notionals(ticks, specs))
            + Max(0.0, equity) * AbsReal(weights[p])
  {
    hide *;
    var v := Wanted(equity, weights[p], p, ticks, specs, cap);
    RequestedWithout(equity, weights, ticks, specs, cap, p);
    CarriesNothing(equity, weights[p]);
    if v != 0 {
      var rest, notionals := Requested(equity, weights - {p}, ticks, specs, cap), Notionals(ticks, specs);
      WantedStaysBelow(equity, weights[p], p, ticks, specs, cap);
      PutTotal(rest, notionals, ticks[p].symbol, v);
    }
  }

  /** The lots of one product, at the notional of its contract. */
  lemma WantedStaysBelow(equity: real, weight: real, p: Product, ticks: Ticks, specs: Specs, cap: int)
    requires OneSymbolPerProduct(ticks) && Wanted(equity, weight, p, ticks, specs, cap) != 0
    ensures p in ticks
    ensures (Abs(Wanted(equity, weight, p, ticks, specs, cap)) as real)
            * Weight(Notionals(ticks, specs), ticks[p].symbol)
            <= Max(0.0, equity) * AbsReal(weight)
  {
    hide LotsFor, Max;
    ContractNotional(p, ticks, specs);
    LotsStayBelow(equity, weight, LotNotional(ticks[p], specs), cap);
    hide *;
  }

  lemma ContractNotional(p: Product, ticks: Ticks, specs: Specs)
    requires OneSymbolPerProduct(ticks) && p in ticks && ticks[p].symbol in specs
    ensures Weight(Notionals(ticks, specs), ticks[p].symbol) == LotNotional(ticks[p], specs)
  {
    hide LotNotional;
    assert ticks[p].symbol in Symbols(ticks) && ProductOf(ticks, ticks[p].symbol) == p;
  }

  lemma CarriesNothing(equity: real, weight: real)
    ensures Max(0.0, equity) * AbsReal(weight) >= 0.0
  {
    NonNegativeProduct(Max(0.0, equity), AbsReal(weight));
  }

  /** Every requested position has a product behind it, its direction, and at most the cap. */
  lemma {:induction false} RequestedLots(equity: real, weights: ProductWeights, ticks: Ticks, specs: Specs, cap: int)
    requires OneSymbolPerProduct(ticks)
    ensures var requested := Requested(equity, weights, ticks, specs, cap);
            && NoZeros(requested)
            && (requested != map[] ==> equity > 0.0)
            && forall s | s in requested ::
                 && Abs(requested[s]) <= cap
                 && s in specs && s in Notionals(ticks, specs) && Notionals(ticks, specs)[s] > 0.0
                 && exists p :: Backs(weights, ticks, p, s, requested[s])
  {
    hide LotsFor;
    var requested := Requested(equity, weights, ticks, specs, cap);
    forall s | s in requested
      ensures Backs(weights, ticks, ProductOf(ticks, s), s, requested[s])
      ensures Abs(requested[s]) <= cap && equity > 0.0
    {
      var p := ProductOf(ticks, s);
      LotsStayBelow(equity, weights[p], LotNotional(ticks[p], specs), cap);
    }
  }

  // ---- Exact volumes ----

  lemma Compare(q: real, bound: real, y: real)
    requires y > 0.0
    ensures q <= bound <==> q * y <= bound * y
    ensures q < bound <==> q * y < bound * y
  {
    if q < bound {
      PositiveProduct(bound - q, y);
      assert (bound - q) * y == bound * y - q * y;
    } else if q > bound {
      PositiveProduct(q - bound, y);
      assert (q - bound) * y == q * y - bound * y;
    }
  }

  lemma Whole(x: real, y: real)
    requires x >= 0.0 && y > 0.0
    ensures WholeLots(x, y) >= 0
    ensures 0.0 <= x - (WholeLots(x, y) as real) * y < y
  {
    var q := x / y;
    Quotient(x, y);
    WholePart(x, y, q, WholeLots(x, y));
  }

  lemma Share(x: real, y: real, q: real, n: int)
    requires y > 0.0 && q * y == x
    ensures q >= n as real ==> (n as real) * y <= x
    ensures q < n as real ==> x < (n as real) * y
  {
    Compare(q, n as real, y);
    Compare(n as real, q, y);
  }

  /** The whole part of a quotient, multiplied out. */
  lemma WholePart(x: real, y: real, q: real, n: int)
    requires x >= 0.0 && y > 0.0 && q * y == x && n as real <= q < n as real + 1.0
    ensures n >= 0 && 0.0 <= x - (n as real) * y < y
  {
    hide *;
    Share(x, y, q, n);
    Share(x, y, q, n + 1);
    OneMoreLot(n, y);
    if n < 0 {
      Share(x, y, q, 0);
    }
  }

  lemma OneMoreLot(n: int, y: real)
    ensures ((n + 1) as real) * y == (n as real) * y + y
    ensures (0 as real) * y == 0.0
  {
  }

  /** The most lots up to the cap that an amount pays for. */
  lemma MostLots(equity: real, weight: real, lot: real, cap: int)
    requires lot > 0.0 && cap > 0 && equity > 0.0
    ensures var v, want := LotsFor(equity, weight, lot, cap), equity * AbsReal(weight);
            && Abs(v) <= cap && (v != 0 ==> (v > 0) == (weight > 0.0))
            && (Abs(v) as real) * lot <= want
            && (Abs(v) < cap ==> want < ((Abs(v) + 1) as real) * lot)
  {
    var want := Carried(equity, weight);
    NonNegativeProduct(equity, AbsReal(weight));
    Whole(want, lot);
    var n := WholeLots(want, lot);
    OneMoreLot(n, lot);
    if n > cap {
      FewerLots(cap, n, lot);
    }
  }

  lemma FewerLots(few: int, many: int, lot: real)
    requires few <= many && lot > 0.0
    ensures (few as real) * lot <= (many as real) * lot
  {
    NonNegativeProduct((many - few) as real, lot);
  }

  lemma Magnitude(x: real)
    ensures AbsReal(x) == if x < 0.0 then -x else x
    ensures NEGLIGIBLE > 0.0
  {
  }

  /** What is requested of the contract a product is quoted by: nothing for a negligible weight, without
      a specification or a positive price and lot value, or without equity or room; and otherwise, in
      the direction of the weight, the most lots up to the cap that the weighted equity pays for. */
  lemma {:induction false} RequestedIsExact(equity: real, weights: ProductWeights, ticks: Ticks, specs: Specs, cap: int,
                                            p: Product)
    requires OneSymbolPerProduct(ticks) && p in ticks
    ensures Requested(equity, weights, ticks, specs, cap).Keys <= Symbols(ticks)
    ensures var s, v := ticks[p].symbol, At(Requested(equity, weights, ticks, specs, cap), ticks[p].symbol);
            var weight := if p in weights then weights[p] else 0.0;
            var size := if weight < 0.0 then -weight else weight;
            if size <= NEGLIGIBLE || s !in specs || ticks[p].midPrice <= 0.0 || equity <= 0.0 || cap <= 0 then v == 0
            else
              var lot := ticks[p].midPrice * specs[s].multiplier;
              if lot <= 0.0 then v == 0
              else
                && Abs(v) <= cap && (v != 0 ==> (v > 0) == (weight > 0.0))
                && (Abs(v) as real) * lot <= equity * size
                && (Abs(v) < cap ==> equity * size < ((Abs(v) + 1) as real) * lot)
  {
    hide *;
    var s := ticks[p].symbol;
    var weight := if p in weights then weights[p] else 0.0;
    Magnitude(weight);
    RequestedAt(equity, weights, ticks, specs, cap, p);
    if p in weights && s in specs {
      var lot := ticks[p].midPrice * specs[s].multiplier;
      WantedCases(equity, weight, p, ticks, specs, cap, lot);
      if Tradable(weight, p, ticks, specs) && equity > 0.0 && cap > 0 {
        MostLots(equity, weight, lot, cap);
      }
    } else if p in weights {
      UnknownIsNotWanted(equity, weight, p, ticks, specs, cap);
    }
  }

  lemma UnknownIsNotWanted(equity: real, weight: real, p: Product, ticks: Ticks, specs: Specs, cap: int)
    requires p in ticks && ticks[p].symbol !in specs
    ensures Wanted(equity, weight, p, ticks, specs, cap) == 0
  {
  }

  lemma RequestedAt(equity: real, weights: ProductWeights, ticks: Ticks, specs: Specs, cap: int, p: Product)
    requires OneSymbolPerProduct(ticks) && p in ticks
    ensures Requested(equity, weights, ticks, specs, cap).Keys <= Symbols(ticks)
    ensures At(Requested(equity, weights, ticks, specs, cap), ticks[p].symbol)
         == if p in weights then Wanted(equity, weights[p], p, ticks, specs, cap) else 0
  {
    hide Wanted;
    assert ticks[p].symbol in Symbols(ticks) && ProductOf(ticks, ticks[p].symbol) == p;
  }

  /** When a product can be traded at all, and what is then wanted. */
  lemma WantedCases(equity: real, weight: real, p: Product, ticks: Ticks, specs: Specs, cap: int, lot: real)
    requires p in ticks && ticks[p].symbol in specs && lot == ticks[p].midPrice * specs[ticks[p].symbol].multiplier
    ensures Tradable(weight, p, ticks, specs) <==>
              AbsReal(weight) > NEGLIGIBLE && ticks[p].midPrice > 0.0 && lot > 0.0
    ensures Wanted(equity, weight, p, ticks, specs, cap)
         == if Tradable(weight, p, ticks, specs) then LotsFor(equity, weight, lot, cap) else 0
    ensures equity <= 0.0 || cap <= 0 ==> Wanted(equity, weight, p, ticks, specs, cap) == 0
  {
    assert LotNotional(ticks[p], specs) == lot;
    hide AbsReal, LotsFor, LotNotional;
    if Tradable(weight, p, ticks, specs) {
      LotsStayBelow(equity, weight, lot, cap);
    }
  }

  /** A product that asks for this contract in this direction. */
  ghost predicate Backs(weights: ProductWeights, ticks: Ticks, p: Product, s: Symbol, volume: int) {
    p in weights && p in ticks && ticks[p].symbol == s && (volume > 0) == (weights[p] > 0.0)
  }

  method BuildTargetLots(equity: real, weights: ProductWeights, ticks: Ticks, specs: Specs,
                         cap: int) returns (r: Checked<Lots>)
    requires OneSymbolPerProduct(ticks)
    ensures r.ValueError? <==> GrossWeight(weights) > MAX_GROSS_LEVERAGE + EPS
    ensures r.Value? ==> r.value == Requested(equity, weights, ticks, specs, cap)
  {
    var gross := Measure(Ones(weights.Keys), AbsWeights(weights));
    if gross > MAX_GROSS_LEVERAGE + EPS {
      return ValueError;
    }
    var targets: Lots := map[];
    var left := weights.Keys;
    var done: ProductWeights := map[];
    while left != {}
      invariant left <= weights.Keys && done == weights - left
      invariant targets == Requested(equity, done, ticks, specs, cap)
      decreases left
    {
      var p :| p in left;
      left := left - {p};
      ghost var before := done;
      done := done[p := weights[p]];
      assert done == weights - left && done - {p} == before;
      RequestedWithout(equity, done, ticks, specs, cap, p);
      if Tradable(weights[p], p, ticks, specs) {
        var lots := LotsFor(equity, weights[p], LotNotional(ticks[p], specs), cap);
        if lots != 0 {
          targets := targets[ticks[p].symbol := lots];
        }
      }
    }
    assert done == weights;
    r := Value(targets);
  }
}
