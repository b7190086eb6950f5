/** Contracts, prices and the account gates of the acceptance simulator. */
module Market {
  import opened Lots
  import opened GrossReduction
  import opened TargetLots

  const TOLERANCE: real := 0.000000000001

  datatype Config = Config(
    initialCapital: real,
    marginRate: real,
    marginBuffer: real,
    maxMargin: real,
    minAvailable: real,
    maxVolume: int,
    maxDailyLoss: real,
    maxDrawdown: real,
    maxGross: real
  ) {
    predicate Valid() {
      && initialCapital > 0.0
      && 0.0 < marginRate < 1.0 && marginBuffer >= 1.0
      && 0.0 < maxMargin < 1.0 && 0.0 <= minAvailable < 1.0
      && maxVolume > 0
      && 0.0 < maxDailyLoss < 1.0 && 0.0 < maxDrawdown < 1.0
      && maxGross > 0.0
    }
  }

  /** The product a symbol is spelled with, and the frozen multipliers. */
  datatype Contracts = Contracts(products: map<Symbol, Product>, multipliers: map<Product, real>) {
    predicate Valid() {
      forall p | p in multipliers :: multipliers[p] > 0.0
    }

    predicate Knows(s: Symbol) {
      s in products && products[s] in multipliers
    }

    function Multiplier(s: Symbol): real
      requires Knows(s)
    {
      multipliers[products[s]]
    }

    /** Value of one lot. */
    function Notionals(prices: Weights): Weights {
      map s | s in prices && Knows(s) :: prices[s] * Multiplier(s)
    }

    function MarginWeights(config: Config, prices: Weights): Weights {
      map s | s in prices && Knows(s) :: prices[s] * Multiplier(s) * config.marginRate * config.marginBuffer
    }

    /** Every position is a known contract, is not zero, and is the only one of its product. */
    predicate Holdable(lots: Lots) {
      && NoZeros(lots)
      && (forall s | s in lots :: Knows(s))
      && (forall s, t | s in lots && t in lots && products[s] == products[t] :: s == t)
    }

    ghost function Gross(lots: Lots, prices: Weights): real {
      Total(lots, Notionals(prices))
    }

    ghost function Margin(config: Config, lots: Lots, prices: Weights): real {
      Total(lots, MarginWeights(config, prices))
    }
  }

  predicate Positive(prices: Weights) {
    forall s | s in prices :: prices[s] > 0.0
  }

  lemma NotionalsArePositive(c: Contracts, prices: Weights)
    requires c.Valid() && Positive(prices)
    ensures forall s | s in prices && c.Knows(s) :: Weight(c.Notionals(prices), s) > 0.0
    ensures forall s :: Weight(c.Notionals(prices), s) >= 0.0
  {
    forall s | s in prices && c.Knows(s)
      ensures prices[s] * c.Multiplier(s) > 0.0
    {
      PositiveProduct(prices[s], c.Multiplier(s));
    }
  }

  /** The margin a gross is charged. */
  function MarginCharge(config: Config, gross: real): real {
    config.marginRate * config.marginBuffer * gross
  }

  /** Margin is the gross at the proxy rate and buffer. */
  lemma {:induction false} MarginIsGrossShare(c: Contracts, config: Config, lots: Lots, prices: Weights)
    ensures c.Margin(config, lots, prices) == MarginCharge(config, c.Gross(lots, prices))
  {
    var rate := config.marginRate * config.marginBuffer;
    forall s | s in lots
      ensures Weight(c.MarginWeights(config, prices), s) == rate * Weight(c.Notionals(prices), s)
    {
      if s in prices && c.Knows(s) {
        var n := prices[s] * c.Multiplier(s);
        assert n * config.marginRate * config.marginBuffer == rate * n;
      }
    }
    TotalScales(lots, c.Notionals(prices), c.MarginWeights(config, prices), rate);
  }

  // ---- account_risk_reason ----

  datatype Reason =
    | Clear
    | EquityNotPositive
    | DrawdownLimit
    | MarginLimit
    | CashReserve
    | DailyLoss
    | MissingPrice(symbol: Symbol)
    | VolumeLimit
    | MissingOpeningPrice(opening: Symbol)
    | CombinedMargin
    | CombinedReserve

  function AccountRiskReason(config: Config, equity: real, dayStart: real, highWatermark: real, margin: real): Reason {
    if equity <= 0.0 || dayStart <= 0.0 || highWatermark <= 0.0 then EquityNotPositive
    else
      var dailyLoss := Max(0.0, dayStart - equity) / dayStart;
      var drawdown := Max(0.0, highWatermark - equity) / highWatermark;
      var marginRatio := Max(0.0, margin) / equity;
      var availableRatio := (equity - Max(0.0, margin)) / equity;
      if drawdown + TOLERANCE >= config.maxDrawdown then DrawdownLimit
      else if marginRatio > config.maxMargin then MarginLimit
      else if availableRatio < config.minAvailable then CashReserve
      else if dailyLoss + TOLERANCE >= config.maxDailyLoss then DailyLoss
      else Clear
  }

  /** The gates an account may not touch and stay in the market, in amounts of money. */
  predicate HardGates(config: Config, equity: real, highWatermark: real, margin: real) {
    && equity > 0.0 && highWatermark > 0.0
    && Max(0.0, highWatermark - equity) < (config.maxDrawdown - TOLERANCE) * highWatermark
    && margin <= config.maxMargin * equity
    && equity - margin >= config.minAvailable * equity
  }

  predicate DailyGate(config: Config, equity: real, dayStart: real) {
    dayStart > 0.0 && Max(0.0, dayStart - equity) < (config.maxDailyLoss - TOLERANCE) * dayStart
  }

  lemma RatioBounds(x: real, y: real, bound: real)
    requires y > 0.0
    ensures x / y <= bound <==> x <= bound * y
    ensures x / y < bound <==> x < bound * y
  {
    var q := x / y;
    assert q * y == x;
    Compare(q, bound, y);
  }

  /** No reason means every gate holds; the recoverable daily circuit is only reported when no
      hard gate is touched, so a large one-day loss never hides one. */
  lemma {:induction false} ReasonIsExact(config: Config, equity: real, dayStart: real, highWatermark: real,
                                         margin: real)
    requires margin >= 0.0
    ensures var reason := AccountRiskReason(config, equity, dayStart, highWatermark, margin);
            && (reason == Clear <==>
                HardGates(config, equity, highWatermark, margin) && DailyGate(config, equity, dayStart))
            && (reason == DailyLoss <==>
                HardGates(config, equity, highWatermark, margin) && dayStart > 0.0
                    && !DailyGate(config, equity, dayStart))
  {
    if equity > 0.0 && dayStart > 0.0 && highWatermark > 0.0 {
      HardGatesInShares(config, equity, highWatermark, margin);
      LossGate(dayStart, equity, config.maxDailyLoss);
      hide HardGates;
    }
  }

  /** The hard reasons in money, the first one that applies: insolvency, then the drawdown, then the
      margin, then the reserve. */
  lemma {:induction false} HardReasonsInOrder(config: Config, equity: real, dayStart: real, highWatermark: real,
                                              margin: real)
    requires margin >= 0.0
    ensures var reason := AccountRiskReason(config, equity, dayStart, highWatermark, margin);
            var solvent := equity > 0.0 && dayStart > 0.0 && highWatermark > 0.0;
            var fallen := if highWatermark > equity then highWatermark - equity else 0.0;
            var drawn := fallen >= (config.maxDrawdown - TOLERANCE) * highWatermark;
            && (reason == EquityNotPositive <==> !solvent)
            && (reason == DrawdownLimit <==> solvent && drawn)
            && (reason == MarginLimit <==> solvent && !drawn && margin > config.maxMargin * equity)
            && (reason == CashReserve <==>
                solvent && !drawn && margin <= config.maxMargin * equity
                    && equity - margin < config.minAvailable * equity)
  {
    if equity > 0.0 && dayStart > 0.0 && highWatermark > 0.0 {
      LossGate(highWatermark, equity, config.maxDrawdown);
      RatioBounds(margin, equity, config.maxMargin);
      RatioBounds(equity - margin, equity, config.minAvailable);
    }
    hide TOLERANCE;
  }

  /** The first three gates as the shares that `AccountRiskReason` computes. */
  lemma HardGatesInShares(config: Config, equity: real, highWatermark: real, margin: real)
    requires margin >= 0.0 && equity > 0.0 && highWatermark > 0.0
    ensures HardGates(config, equity, highWatermark, margin) <==>
              && Max(0.0, highWatermark - equity) / highWatermark + TOLERANCE < config.maxDrawdown
              && Max(0.0, margin) / equity <= config.maxMargin
              && (equity - Max(0.0, margin)) / equity >= config.minAvailable
  {
    LossGate(highWatermark, equity, config.maxDrawdown);
    RatioBounds(margin, equity, config.maxMargin);
    RatioBounds(equity - margin, equity, config.minAvailable);
    hide TOLERANCE;
  }

  /** A relative loss below its limit, in amounts. */
  lemma LossGate(from: real, to: real, limit: real)
    requires from > 0.0
    ensures Max(0.0, from - to) / from + TOLERANCE < limit <==> Max(0.0, from - to) < (limit - TOLERANCE) * from
  {
    RatioBounds(Max(0.0, from - to), from, limit - TOLERANCE);
  }
}
