/** The trading steps of a simulated day: forced liquidation, the two-phase rebalance, and the
    realized-gross guard. */
module DayTrades {
  import opened Lots
  import opened MarginFit
  import opened GrossReduction
  import opened Market
  import opened AuditLedger
  import opened Rebalance
  import opened DayTargets
  import opened DaySession

  // ---- A batch of trades ----

  /** A batch is traded: its rows are written, its cost is paid, and the positions move. */
  ghost predicate Executes(c: Contracts, costRate: real, s: Session, deltas: Lots, prices: Weights, naming: Naming,
                           t: Session)
  {
    var traded := Total(deltas, c.Notionals(prices));
    && s.events <= t.events
    && Audited(c, s.lots, deltas, prices, costRate, naming, Since(s, t))
    && t.equity == s.equity - Paid(traded, costRate)
    && t.turnover == s.turnover + traded
    && t.lots == AfterDeltas(s.lots, deltas)
    && t.highWatermark == s.highWatermark && t.opens == s.opens && t.closes == s.closes
  }

  lemma NothingExecutes(c: Contracts, costRate: real, s: Session, prices: Weights, naming: Naming)
    requires NoZeros(s.lots)
    ensures Executes(c, costRate, s, map[], prices, naming, s)
  {
    NothingRecorded(c, prices, costRate, naming);
    AfterNothing(s.lots);
    assert Since(s, s) == [] && Total(map[], c.Notionals(prices)) == 0.0;
    NothingPaid(costRate);
  }

  // ---- Trades under one name ----

  lemma OverrideBatches(c: Contracts, deltas: Lots, action: Action, a: Action, w: Weights)
    ensures BatchTotal(c, Override(action), deltas, a, w) == if a == action then Total(deltas, w) else 0.0
  {
    var batch := Batch(c, Override(action), deltas, a);
    assert batch == if a == action then deltas else map[];
  }

  /** The day after a batch booked under one bucket. */
  function Booked(s: Session, action: Action, turnover: real, costRate: real, lots: Lots, rows: seq<Event>): Session
    requires action in s.buckets
  {
    s.(equity := s.equity - Paid(turnover, costRate),
       turnover := s.turnover + turnover,
       buckets := s.buckets[action := s.buckets[action] + turnover],
       lots := lots,
       events := s.events + rows)
  }

  /** A batch is traded and booked under one bucket. */
  ghost predicate SoldAs(c: Contracts, costRate: real, s: Session, deltas: Lots, prices: Weights, action: Action,
                         t: Session)
  {
    && Executes(c, costRate, s, deltas, prices, Override(action), t)
    && action in s.buckets
    && t.buckets == s.buckets[action := s.buckets[action] + Total(deltas, c.Notionals(prices))]
  }

  lemma BookedIsSold(c: Contracts, costRate: real, s: Session, deltas: Lots, prices: Weights, action: Action,
                     rows: seq<Event>)
    requires action in s.buckets && Audited(c, s.lots, deltas, prices, costRate, Override(action), rows)
    ensures SoldAs(c, costRate, s, deltas, prices, action,
                   Booked(s, action, Total(deltas, c.Notionals(prices)), costRate, AfterDeltas(s.lots, deltas), rows))
  {
    hide Audited, Total, AfterDeltas, Paid;
    assert (s.events + rows)[|s.events|..] == rows;
  }

  lemma BookedIsBalanced(c: Contracts, start: real, s: Session, starting: Lots, deltas: Lots, prices: Weights,
                         costRate: real, action: Action, lots: Lots, rows: seq<Event>)
    requires Balanced(start, s) && action in {DailyCircuit, HardHalt, GrossGuard}
    requires Audited(c, starting, deltas, prices, costRate, Override(action), rows)
    ensures Balanced(start, Booked(s, action, Total(deltas, c.Notionals(prices)), costRate, lots, rows))
  {
    hide *;
    var traded := Total(deltas, c.Notionals(prices));
    BalancedParts(start, s);
    OverrideSums(c, starting, deltas, prices, costRate, action, rows);
    ConservedGrows(start, s.equity, s.events, rows, Paid(traded, costRate));
    ReconciledGrows(s.turnover, s.buckets, s.events, rows, action, traded);
    BookedParts(start, s, action, traded, costRate, lots, rows);
  }

  lemma BalancedParts(start: real, s: Session)
    requires Balanced(start, s)
    ensures Conserved(start, s.equity, s.events) && Reconciled(s.turnover, s.buckets, s.events)
    ensures s.buckets.Keys == BUCKETS && {DailyCircuit, HardHalt, GrossGuard} <= BUCKETS
  {
    hide Sum, BucketTotal;
  }

  lemma BookedParts(start: real, s: Session, action: Action, traded: real, costRate: real, lots: Lots, rows: seq<Event>)
    requires action in s.buckets
    requires Conserved(start, s.equity - Paid(traded, costRate), s.events + rows)
    requires Reconciled(s.turnover + traded, s.buckets[action := s.buckets[action] + traded], s.events + rows)
    ensures Balanced(start, Booked(s, action, traded, costRate, lots, rows))
  {
    hide Conserved, Reconciled, Paid;
  }

  /** The sums of a batch under one name. */
  lemma OverrideSums(c: Contracts, starting: Lots, deltas: Lots, prices: Weights, costRate: real, action: Action,
                     rows: seq<Event>)
    requires Audited(c, starting, deltas, prices, costRate, Override(action), rows)
    ensures var traded := Total(deltas, c.Notionals(prices));
            && Sum(rows, Turnover) == traded && Sum(rows, TransactionCost) == Paid(traded, costRate)
            && Sum(rows, GrossPnl) == 0.0
            && forall a :: Sum(rows, TurnoverOf(a)) == if a == action then traded else 0.0
  {
    hide Total, Sum, BatchTotal, Paid, Batch, Rows;
    forall a
      ensures Sum(rows, TurnoverOf(a)) == if a == action then Total(deltas, c.Notionals(prices)) else 0.0
    {
      OverrideBatches(c, deltas, action, a, c.Notionals(prices));
    }
  }

  lemma ConservedGrows(start: real, equity: real, events: seq<Event>, rows: seq<Event>, cost: real)
    requires Conserved(start, equity, events)
    requires Sum(rows, TransactionCost) == cost && Sum(rows, GrossPnl) == 0.0
    ensures Conserved(start, equity - cost, events + rows)
  {
    hide Sum;
    SumConcat(events, rows, GrossPnl);
    SumConcat(events, rows, TransactionCost);
  }

  lemma ReconciledGrows(turnover: real, buckets: map<Action, real>, events: seq<Event>, rows: seq<Event>,
                        action: Action, traded: real)
    requires Reconciled(turnover, buckets, events) && action in {DailyCircuit, HardHalt, GrossGuard}
    requires Sum(rows, Turnover) == traded
    requires forall a :: Sum(rows, TurnoverOf(a)) == if a == action then traded else 0.0
    ensures buckets.Keys == BUCKETS && action in buckets
    ensures Reconciled(turnover + traded, buckets[action := buckets[action] + traded], events + rows)
  {
    hide Sum, BucketTotal;
    SumConcat(events, rows, Turnover);
    forall a
      ensures Sum(events + rows, TurnoverOf(a)) == Sum(events, TurnoverOf(a)) + Sum(rows, TurnoverOf(a))
    {
      SumConcat(events, rows, TurnoverOf(a));
    }
    BucketGrows(buckets, action, traded);
  }

  lemma BucketGrows(buckets: map<Action, real>, action: Action, x: real)
    requires buckets.Keys == BUCKETS && action in {DailyCircuit, HardHalt, GrossGuard}
    ensures buckets[action := buckets[action] + x].Keys == BUCKETS
    ensures BucketTotal(buckets[action := buckets[action] + x]) == BucketTotal(buckets) + x
  {
  }

  lemma ShrunkIsSound(c: Contracts, s: Session, deltas: Lots)
    requires Sound(c, s) && Shrinks(s.lots, deltas)
    ensures Sound(c, s.(lots := AfterDeltas(s.lots, deltas)))
    ensures NoZeros(deltas) && forall s' | s' in deltas :: c.Knows(s')
  {
  }

  /** The batch is traded at the given prices and booked under one bucket. */
  method TradeAs(c: Contracts, costRate: real, ghost start: real, s: Session, deltas: Lots, prices: Weights,
                 action: Action)
    returns (t: Session)
    requires c.Valid() && Sound(c, s) && Balanced(start, s) && action in {DailyCircuit, HardHalt, GrossGuard}
    requires Shrinks(s.lots, deltas) && Positive(prices) && s.lots.Keys <= prices.Keys
    ensures Balanced(start, t) && Sound(c, t)
    ensures SoldAs(c, costRate, s, deltas, prices, action, t)
  {
    ShrunkIsSound(c, s, deltas);
    AlreadyNormal(deltas);
    assert action in s.buckets && s.lots.Keys >= deltas.Keys;
    hide Total, Balanced, Audited, AfterDeltas, Shrinks, SoldAs;
    var audited := TradeAuditRows(c, s.lots, deltas, prices, costRate, Override(action));
    var turnover := Measure(deltas, c.Notionals(prices));
    var lots := ApplyDeltas(s.lots, deltas);
    BookedIsBalanced(c, start, s, s.lots, deltas, prices, costRate, action, lots, audited.value);
    BookedIsSold(c, costRate, s, deltas, prices, action, audited.value);
    t := Booked(s, action, turnover, costRate, lots, audited.value);
  }

  function RiskBucket(reason: Reason): Action {
    if reason == DailyLoss then DailyCircuit else HardHalt
  }

  lemma ClosingTotal(lots: Lots, w: Weights)
    ensures Total(Closing(lots), w) == Total(lots, w)
  {
    TotalIsAdditive(lots, Closing(lots), map[], w);
  }

  /** A forced sale: the whole book goes at the given prices under the bucket of its reason; a
      flat book trades nothing. */
  ghost predicate Liquidates(c: Contracts, costRate: real, s: Session, prices: Weights, reason: Reason, t: Session) {
    if s.lots == map[] then t == s
    else SoldAs(c, costRate, s, Closing(s.lots), prices, if reason == DailyLoss then DailyCircuit else HardHalt, t)
  }

  lemma LiquidatesAll(c: Contracts, costRate: real, s: Session, prices: Weights, reason: Reason, t: Session)
    requires Liquidates(c, costRate, s, prices, reason, t)
    ensures t.lots == map[]
    ensures t.equity == s.equity - Paid(c.Gross(s.lots, prices), costRate)
    ensures t.turnover == s.turnover + c.Gross(s.lots, prices)
    ensures t.highWatermark == s.highWatermark && t.opens == s.opens && t.closes == s.closes
  {
    hide Total, Audited, Paid;
    if s.lots == map[] {
      NothingSold(c.Notionals(prices));
      NothingPaid(costRate);
    } else {
      ClosingTotal(s.lots, c.Notionals(prices));
      assert AfterDeltas(s.lots, Closing(s.lots)) == map[];
    }
  }

  lemma ClosingShrinks(lots: Lots)
    requires NoZeros(lots)
    ensures Shrinks(lots, Closing(lots))
  {
  }

  /** Everything is sold at the given prices. */
  method Liquidate(c: Contracts, costRate: real, ghost start: real, s: Session, prices: Weights, reason: Reason)
    returns (t: Session)
    requires c.Valid() && Sound(c, s) && Balanced(start, s)
    requires Positive(prices) && s.lots.Keys <= prices.Keys
    ensures Balanced(start, t) && Sound(c, t) && t.lots == map[]
    ensures Liquidates(c, costRate, s, prices, reason, t)
    ensures t.equity == s.equity - Paid(c.Gross(s.lots, prices), costRate)
    ensures t.turnover == s.turnover + c.Gross(s.lots, prices)
    ensures t.highWatermark == s.highWatermark && t.opens == s.opens && t.closes == s.closes
  {
    t := s;
    if s.lots != map[] {
      ClosingShrinks(s.lots);
      hide Total, Balanced, SoldAs, AfterDeltas, Closing, Paid, Sound, Shrinks;
      t := TradeAs(c, costRate, start, s, Closing(s.lots), prices, RiskBucket(reason));
    }
    hide Total, Balanced, SoldAs, AfterDeltas, Closing, Paid, Sound, Shrinks;
    LiquidatesAll(c, costRate, s, prices, reason, t);
  }

  // ---- The realized-gross guard ----

  /** The gross ceiling at closing prices, for the equity that is left. */
  ghost predicate UnderCeiling(c: Contracts, config: Config, lots: Lots, closes: Weights, equity: real) {
    c.Gross(lots, closes) <= config.maxGross * equity + EPS
  }

  /** The guard at the close: nothing happens under the ceiling; above it, exactly the
      cost-inclusive reduction is sold. */
  ghost predicate Guards(c: Contracts, config: Config, costRate: real, s: Session, t: Session, guarded: bool) {
    config.maxGross > 0.0 && exists deltas :: GuardsWith(c, config, costRate, s, deltas, t, guarded)
  }

  ghost predicate GuardsWith(c: Contracts, config: Config, costRate: real, s: Session, deltas: Lots, t: Session,
                             guarded: bool)
    requires config.maxGross > 0.0
  {
    && Reduces(s.lots, c.Notionals(s.closes), s.equity, config.maxGross, costRate, deltas)
    && guarded == (deltas != map[])
    && if guarded then SoldAs(c, costRate, s, deltas, s.closes, GrossGuard, t) else t == s
  }

  method GuardGross(c: Contracts, config: Config, costRate: real, ghost start: real, s: Session)
    returns (t: Session, guarded: bool)
    requires c.Valid() && Sound(c, s) && Balanced(start, s) && costRate >= 0.0 && config.maxGross > 0.0
    requires s.equity > 0.0
    ensures Balanced(start, t) && Sound(c, t) && Within(t.lots, s.lots)
    ensures Guards(c, config, costRate, s, t, guarded)
    ensures guarded <==> Breached(s.lots, c.Notionals(s.closes), s.equity, config.maxGross)
    ensures t.lots == map[] || UnderCeiling(c, config, t.lots, t.closes, t.equity)
    ensures !guarded ==> t == s
    ensures t.equity == s.equity - Paid(t.turnover - s.turnover, costRate)
    ensures t.highWatermark == s.highWatermark && t.opens == s.opens && t.closes == s.closes
  {
    hide *;
    var notionals := c.Notionals(s.closes);
    SoundNotionals(c, s);
    var deltas := RealizedGrossReductions(s.lots, notionals, s.equity, config.maxGross, costRate);
    SomethingChanges(s.lots, deltas);
    ReducedBook(c, config, costRate, s, deltas);
    BreachIsReduced(s.lots, notionals, s.equity, config.maxGross, costRate, deltas);
    guarded := deltas != map[];
    t := s;
    if guarded {
      t := TradeAs(c, costRate, start, s, deltas, s.closes, GrossGuard);
      SoldParts(c, costRate, s, deltas, s.closes, GrossGuard, t);
    }
    GuardedWith(c, config, costRate, s, deltas, t, guarded);
  }

  lemma SomethingChanges(lots: Lots, deltas: Lots)
    requires NoZeros(lots) && (NoZeros(deltas) || deltas == Closing(lots))
    ensures Normalized(deltas) == deltas
  {
  }

  lemma SoldParts(c: Contracts, costRate: real, s: Session, deltas: Lots, prices: Weights, action: Action, t: Session)
    requires SoldAs(c, costRate, s, deltas, prices, action, t)
    ensures t.lots == AfterDeltas(s.lots, deltas)
    ensures t.turnover == s.turnover + Total(deltas, c.Notionals(prices))
    ensures t.equity == s.equity - Paid(Total(deltas, c.Notionals(prices)), costRate)
    ensures t.highWatermark == s.highWatermark && t.opens == s.opens && t.closes == s.closes
  {
    hide Audited;
  }

  lemma GuardedWith(c: Contracts, config: Config, costRate: real, s: Session, deltas: Lots, t: Session, guarded: bool)
    requires config.maxGross > 0.0
    requires Reduces(s.lots, c.Notionals(s.closes), s.equity, config.maxGross, costRate, deltas)
    requires guarded == (deltas != map[])
    requires if guarded then SoldAs(c, costRate, s, deltas, s.closes, GrossGuard, t) else t == s
    ensures Guards(c, config, costRate, s, t, guarded)
  {
    hide Reduces, SoldAs;
    assert GuardsWith(c, config, costRate, s, deltas, t, guarded);
  }

  lemma SoundNotionals(c: Contracts, s: Session)
    requires c.Valid() && Sound(c, s)
    ensures Positive(s.closes) && s.lots.Keys <= s.closes.Keys && NoZeros(s.lots)
    ensures NonNegativeOn(c.Notionals(s.closes), s.lots.Keys)
  {
    NotionalsArePositive(c, s.closes);
  }

  /** The reduced book is flat or under the ceiling of the equity left after its own cost. */
  lemma ReducedBook(c: Contracts, config: Config, costRate: real, s: Session, deltas: Lots)
    requires c.Valid() && Sound(c, s) && costRate >= 0.0 && config.maxGross > 0.0 && s.equity > 0.0
    requires Reduces(s.lots, c.Notionals(s.closes), s.equity, config.maxGross, costRate, deltas)
    ensures Shrinks(s.lots, deltas)
    ensures var after := AfterDeltas(s.lots, deltas);
            && Within(after, s.lots)
            && (after == map[]
                || UnderCeiling(c, config, after, s.closes,
                                s.equity - Paid(Total(deltas, c.Notionals(s.closes)), costRate)))
    ensures deltas == map[] ==>
              AfterDeltas(s.lots, deltas) == s.lots && Paid(Total(deltas, c.Notionals(s.closes)), costRate) == 0.0
    ensures Paid(0.0, costRate) == 0.0
  {
    var notionals := c.Notionals(s.closes);
    ReductionOnlyShrinks(s.lots, notionals, s.equity, config.maxGross, costRate, deltas);
    hide Total, Reduces, Paid;
    ShrunkIsSound(c, s, deltas);
    ShrinkingTotal(s.lots, deltas, notionals);
    CeilingAfterCost(c, config, costRate, s, deltas);
    if deltas == map[] {
      NothingSold(notionals);
      assert AfterDeltas(s.lots, map[]) == s.lots;
    }
    NothingPaid(costRate);
  }

  lemma NothingPaid(costRate: real)
    ensures Paid(0.0, costRate) == 0.0
  {
  }

  lemma CeilingAfterCost(c: Contracts, config: Config, costRate: real, s: Session, deltas: Lots)
    requires c.Valid() && Sound(c, s) && costRate >= 0.0 && config.maxGross > 0.0 && s.equity > 0.0
    requires Reduces(s.lots, c.Notionals(s.closes), s.equity, config.maxGross, costRate, deltas)
    requires Shrinks(s.lots, deltas)
    ensures var after := AfterDeltas(s.lots, deltas);
            after == map[] || UnderCeiling(c, config, after, s.closes,
                                           s.equity - Paid(Total(deltas, c.Notionals(s.closes)), costRate))
  {
    hide Sound, Reduces, Shrinks, Total, Priced, CeilingAfter, Paid, UnderCeiling, AfterDeltas;
    var notionals := c.Notionals(s.closes);
    var after := AfterDeltas(s.lots, deltas);
    SoundNotionals(c, s);
    ReductionMeetsCeiling(s.lots, notionals, s.equity, config.maxGross, costRate, deltas);
    ShrunkIsSound(c, s, deltas);
    EverythingIsPriced(c, s.(lots := after));
    if after != map[] {
      SameCeiling(c, config, after, s.closes, s.equity, costRate, Total(deltas, notionals));
    }
  }

  lemma SameCeiling(c: Contracts, config: Config, after: Lots, closes: Weights, equity: real, costRate: real,
                    sold: real)
    requires Total(after, c.Notionals(closes)) <= CeilingAfter(config.maxGross, equity, costRate, sold) + EPS
    ensures UnderCeiling(c, config, after, closes, equity - Paid(sold, costRate))
  {
    hide Total;
    assert costRate * sold == Paid(sold, costRate);
    assert equity - costRate * sold == equity - Paid(sold, costRate);
  }

  lemma EverythingIsPriced(c: Contracts, s: Session)
    requires c.Valid() && Sound(c, s)
    ensures Priced(s.lots, c.Notionals(s.closes)) == s.lots
  {
    NotionalsArePositive(c, s.closes);
  }

  // ---- The normal two-phase rebalance ----

  /** Every traded symbol belongs to a product the book or the target holds. */
  lemma TradesHaveIntent(c: Contracts, original: Lots, target: Lots, s: Symbol)
    requires c.Holdable(original) && c.Holdable(target) && (s in original || s in target)
    ensures c.Knows(s) && Intent(c, original, target, s).Some?
  {
  }

  /** One phase: its trades are named by the whole day's intent and paid for. */
  method TradePhase(c: Contracts, costRate: real, s: Session, deltas: Lots, original: Lots, target: Lots)
    returns (t: Session)
    requires c.Valid() && Sound(c, s) && NoZeros(deltas)
    requires c.Holdable(original) && c.Holdable(target)
    requires deltas.Keys <= original.Keys + target.Keys && deltas.Keys <= s.opens.Keys
    ensures Executes(c, costRate, s, deltas, s.opens, ByIntent(original, target), t)
    ensures t.buckets == s.buckets
  {
    hide *;
    PhaseIsAuditable(c, s, deltas, original, target);
    AlreadyNormal(deltas);
    var audited := TradeAuditRows(c, s.lots, deltas, s.opens, costRate, ByIntent(original, target));
    var turnover := Measure(deltas, c.Notionals(s.opens));
    var lots := ApplyDeltas(s.lots, deltas);
    t := s.(equity := s.equity - Paid(turnover, costRate), turnover := s.turnover + turnover,
            lots := lots, events := s.events + audited.value);
    PhaseExecutes(c, costRate, s, deltas, ByIntent(original, target), lots, audited.value);
  }

  lemma AlreadyNormal(deltas: Lots)
    requires NoZeros(deltas)
    ensures Normalized(deltas) == deltas
  {
  }

  lemma PhaseIsAuditable(c: Contracts, s: Session, deltas: Lots, original: Lots, target: Lots)
    requires Sound(c, s) && c.Holdable(original) && c.Holdable(target)
    requires deltas.Keys <= original.Keys + target.Keys && deltas.Keys <= s.opens.Keys
    ensures NoZeros(s.lots) && (forall symbol | symbol in deltas :: c.Knows(symbol))
    ensures Auditable(c, deltas, s.opens, ByIntent(original, target))
  {
    hide Intent;
    forall symbol | symbol in deltas
      ensures c.Knows(symbol) && Intent(c, original, target, symbol).Some?
    {
      TradesHaveIntent(c, original, target, symbol);
    }
  }

  lemma PhaseExecutes(c: Contracts, costRate: real, s: Session, deltas: Lots, naming: Naming, lots: Lots,
                      rows: seq<Event>)
    requires Audited(c, s.lots, deltas, s.opens, costRate, naming, rows) && lots == AfterDeltas(s.lots, deltas)
    ensures var traded := Total(deltas, c.Notionals(s.opens));
            var t := s.(equity := s.equity - Paid(traded, costRate), turnover := s.turnover + traded,
                        lots := lots, events := s.events + rows);
            Executes(c, costRate, s, deltas, s.opens, naming, t)
  {
    hide Total, Audited, AfterDeltas, Paid;
    assert (s.events + rows)[|s.events|..] == rows;
  }

  /** Batches of both phases add up per purpose, because no symbol is traded back and forth. */
  lemma MergedBatches(c: Contracts, naming: Naming, a: Lots, b: Lots, action: Action, w: Weights)
    requires forall s | s in Merged(a, b) :: Abs(At(a, s) + At(b, s)) == Abs(At(a, s)) + Abs(At(b, s))
    ensures BatchTotal(c, naming, Merged(a, b), action, w)
            == BatchTotal(c, naming, a, action, w) + BatchTotal(c, naming, b, action, w)
  {
    hide *;
    var merged := Batch(c, naming, Merged(a, b), action);
    var first, second := Batch(c, naming, a, action), Batch(c, naming, b, action);
    BatchKeys(c, naming, a, b, action);
    forall s | s in merged
      ensures Abs(merged[s]) == Abs(At(first, s)) + Abs(At(second, s))
    {
      MergedInBatch(c, naming, a, b, action, s);
    }
    TotalIsAdditive(merged, first, second, w);
    BatchTotals(c, naming, a, b, action, w);
  }

  lemma BatchKeys(c: Contracts, naming: Naming, a: Lots, b: Lots, action: Action)
    ensures Batch(c, naming, a, action).Keys + Batch(c, naming, b, action).Keys
            == Batch(c, naming, Merged(a, b), action).Keys
  {
    hide Named, At;
  }

  lemma MergedInBatch(c: Contracts, naming: Naming, a: Lots, b: Lots, action: Action, s: Symbol)
    requires s in Batch(c, naming, Merged(a, b), action)
    ensures s in Merged(a, b)
    ensures Batch(c, naming, Merged(a, b), action)[s] == At(a, s) + At(b, s)
    ensures At(Batch(c, naming, a, action), s) == At(a, s) && At(Batch(c, naming, b, action), s) == At(b, s)
  {
    hide Named;
  }

  lemma BatchTotals(c: Contracts, naming: Naming, a: Lots, b: Lots, action: Action, w: Weights)
    ensures forall deltas | deltas in {a, b, Merged(a, b)} ::
              BatchTotal(c, naming, deltas, action, w) == Total(Batch(c, naming, deltas, action), w)
  {
    hide Batch, Total, Merged;
  }

  function WithNormal(buckets: map<Action, real>, attributed: map<Action, real>): map<Action, real>
    requires buckets.Keys == BUCKETS && attributed.Keys == NORMAL_BUCKETS
  {
    map a | a in BUCKETS :: if a in NORMAL_BUCKETS then buckets[a] + attributed[a] else buckets[a]
  }

  /** Both phases booked, the turnover attributed once for the whole day: in balance. */
  lemma RebalancedIsBalanced(c: Contracts, costRate: real, start: real, s: Session, r: Session, t: Session,
                             target: Lots, a: Lots, b: Lots)
    requires Balanced(start, s) && c.Holdable(s.lots) && c.Holdable(target)
    requires forall x | x in Merged(a, b) :: Abs(At(a, x) + At(b, x)) == Abs(At(a, x)) + Abs(At(b, x))
    requires a.Keys <= s.lots.Keys + target.Keys && b.Keys <= s.lots.Keys + target.Keys
    requires Executes(c, costRate, s, a, s.opens, ByIntent(s.lots, target), r)
    requires Executes(c, costRate, r, b, s.opens, ByIntent(s.lots, target), t)
    requires Spread(c, s, target, Merged(a, b), t.buckets)
    ensures Balanced(start, t)
  {
    hide *;
    var naming := ByIntent(s.lots, target);
    ExecutedSums(c, costRate, s, a, s.opens, naming, r);
    ExecutedSums(c, costRate, r, b, s.opens, naming, t);
    MergedTurnover(c, s.lots, target, a, b, c.Notionals(s.opens));
    SpreadTotal(c, s, target, Merged(a, b), t.buckets);
    PhasesConserve(start, s, r, t, costRate, Total(a, c.Notionals(s.opens)), Total(b, c.Notionals(s.opens)));
    PhasesReconcile(c, start, s, r, t, target, a, b);
    BalancedIs(start, t);
  }

  lemma BalancedIs(start: real, t: Session)
    requires Conserved(start, t.equity, t.events) && Reconciled(t.turnover, t.buckets, t.events)
    ensures Balanced(start, t)
  {
    hide Conserved, Reconciled;
  }

  /** What one executed batch adds to every column. */
  lemma ExecutedSums(c: Contracts, costRate: real, s: Session, deltas: Lots, prices: Weights, naming: Naming,
                     t: Session)
    requires Executes(c, costRate, s, deltas, prices, naming, t)
    ensures var traded := Total(deltas, c.Notionals(prices));
            && t.equity == s.equity - Paid(traded, costRate) && t.turnover == s.turnover + traded
            && Sum(t.events, GrossPnl) == Sum(s.events, GrossPnl)
            && Sum(t.events, TransactionCost) == Sum(s.events, TransactionCost) + Paid(traded, costRate)
            && Sum(t.events, Turnover) == Sum(s.events, Turnover) + traded
            && (forall a :: Sum(t.events, TurnoverOf(a))
                            == Sum(s.events, TurnoverOf(a)) + BatchTotal(c, naming, deltas, a, c.Notionals(prices)))
  {
    hide Total, Sum, BatchTotal, Paid, Rows, AfterDeltas;
    var rows := Since(s, t);
    assert t.events == s.events + rows;
    forall column
      ensures Sum(t.events, column) == Sum(s.events, column) + Sum(rows, column)
    {
      SumConcat(s.events, rows, column);
    }
  }

  lemma PhasesConserve(start: real, s: Session, r: Session, t: Session, costRate: real, x: real, y: real)
    requires Balanced(start, s)
    requires r.equity == s.equity - Paid(x, costRate) && t.equity == r.equity - Paid(y, costRate)
    requires Sum(t.events, GrossPnl) == Sum(r.events, GrossPnl) == Sum(s.events, GrossPnl)
    requires Sum(r.events, TransactionCost) == Sum(s.events, TransactionCost) + Paid(x, costRate)
    requires Sum(t.events, TransactionCost) == Sum(r.events, TransactionCost) + Paid(y, costRate)
    ensures Conserved(start, t.equity, t.events)
  {
    hide Sum, Paid, Reconciled;
  }

  lemma PhasesReconcile(c: Contracts, start: real, s: Session, r: Session, t: Session, target: Lots, a: Lots, b: Lots)
    requires Balanced(start, s)
    requires var w := c.Notionals(s.opens);
             var naming := ByIntent(s.lots, target);
             && r.turnover == s.turnover + Total(a, w) && t.turnover == r.turnover + Total(b, w)
             && Sum(r.events, Turnover) == Sum(s.events, Turnover) + Total(a, w)
             && Sum(t.events, Turnover) == Sum(r.events, Turnover) + Total(b, w)
             && (forall x :: Sum(r.events, TurnoverOf(x))
                             == Sum(s.events, TurnoverOf(x)) + BatchTotal(c, naming, a, x, w))
             && (forall x :: Sum(t.events, TurnoverOf(x))
                             == Sum(r.events, TurnoverOf(x)) + BatchTotal(c, naming, b, x, w))
             && (forall x :: BatchTotal(c, naming, Merged(a, b), x, w)
                             == BatchTotal(c, naming, a, x, w) + BatchTotal(c, naming, b, x, w))
             && FiveBuckets(c, s.lots, target, Merged(a, b), w) == Total(a, w) + Total(b, w)
    requires Spread(c, s, target, Merged(a, b), t.buckets)
    requires BucketTotal(t.buckets)
             == BucketTotal(s.buckets) + FiveBuckets(c, s.lots, target, Merged(a, b), c.Notionals(s.opens))
    ensures Reconciled(t.turnover, t.buckets, t.events)
  {
    hide Sum, Total, BatchTotal, BucketTotal, FiveBuckets, Merged, Conserved;
    forall x | x in BUCKETS
      ensures t.buckets[x] == Sum(t.events, TurnoverOf(x))
    {
      assert s.buckets[x] == Sum(s.events, TurnoverOf(x));
    }
  }

  /** What both phases traded, per purpose and in total. */
  lemma MergedTurnover(c: Contracts, original: Lots, target: Lots, a: Lots, b: Lots, w: Weights)
    requires c.Holdable(original) && c.Holdable(target)
    requires forall x | x in Merged(a, b) :: Abs(At(a, x) + At(b, x)) == Abs(At(a, x)) + Abs(At(b, x))
    requires a.Keys <= original.Keys + target.Keys && b.Keys <= original.Keys + target.Keys
    ensures var naming := ByIntent(original, target);
            && (forall action :: BatchTotal(c, naming, Merged(a, b), action, w)
                                 == BatchTotal(c, naming, a, action, w) + BatchTotal(c, naming, b, action, w))
            && (forall action | action in BUCKETS && action !in NORMAL_BUCKETS ::
                  BatchTotal(c, naming, a, action, w) == 0.0 && BatchTotal(c, naming, b, action, w) == 0.0)
            && FiveBuckets(c, original, target, Merged(a, b), w) == Total(a, w) + Total(b, w)
  {
    hide Total, BatchTotal, FiveBuckets, Intent;
    forall action
      ensures BatchTotal(c, ByIntent(original, target), Merged(a, b), action, w)
           == BatchTotal(c, ByIntent(original, target), a, action, w)
               + BatchTotal(c, ByIntent(original, target), b, action, w)
    {
      MergedBatches(c, ByIntent(original, target), a, b, action, w);
    }
    OnlyNormal(c, original, target, a, w);
    OnlyNormal(c, original, target, b, w);
    TotalIsAdditive(Merged(a, b), a, b, w);
    forall x | x in Merged(a, b)
      ensures c.Knows(x) && Intent(c, original, target, x).Some?
    {
      TradesHaveIntent(c, original, target, x);
    }
    PurposesPartition(c, original, target, Merged(a, b), w);
  }

  /** Every bucket grows by the turnover of the trades that go by its name. */
  ghost predicate Spread(c: Contracts, s: Session, target: Lots, deltas: Lots, buckets: map<Action, real>) {
    && s.buckets.Keys == buckets.Keys == BUCKETS
    && forall a | a in BUCKETS ::
         buckets[a] == s.buckets[a] + BatchTotal(c, ByIntent(s.lots, target), deltas, a, c.Notionals(s.opens))
  }

  lemma NormalIsSpread(c: Contracts, s: Session, target: Lots, deltas: Lots, attributed: map<Action, real>)
    requires s.buckets.Keys == BUCKETS
    requires Attributed(c, s.lots, target, deltas, c.Notionals(s.opens), attributed)
    ensures Spread(c, s, target, deltas, WithNormal(s.buckets, attributed))
  {
    hide BatchTotal;
    OnlyNormal(c, s.lots, target, deltas, c.Notionals(s.opens));
  }

  lemma SpreadTotal(c: Contracts, s: Session, target: Lots, deltas: Lots, buckets: map<Action, real>)
    requires Spread(c, s, target, deltas, buckets)
    ensures BucketTotal(buckets)
            == BucketTotal(s.buckets) + FiveBuckets(c, s.lots, target, deltas, c.Notionals(s.opens))
  {
    hide BatchTotal;
    OnlyNormal(c, s.lots, target, deltas, c.Notionals(s.opens));
  }

  /** Normal trades are never booked under a risk bucket. */
  lemma OnlyNormal(c: Contracts, original: Lots, target: Lots, deltas: Lots, w: Weights)
    ensures forall a | a in BUCKETS && a !in NORMAL_BUCKETS ::
              BatchTotal(c, ByIntent(original, target), deltas, a, w) == 0.0
  {
    forall a | a in BUCKETS && a !in NORMAL_BUCKETS
      ensures BatchTotal(c, ByIntent(original, target), deltas, a, w) == 0.0
    {
      assert Batch(c, ByIntent(original, target), deltas, a) == map[];
    }
  }

  /** Holdable books on either side, each contract priced. */
  predicate Ready(c: Contracts, s: Session, target: Lots) {
    Sound(c, s) && c.Holdable(target) && target.Keys <= s.opens.Keys
  }

  /** What both phases need to know about the book in between. */
  lemma Phases(c: Contracts, s: Session, target: Lots)
    requires Ready(c, s, target)
    ensures var reductions := Reductions(s.lots, target);
            var after := AfterReductions(s.lots, target);
            var openings := Openings(after, target);
            && after == AfterDeltas(s.lots, reductions) && Sound(c, s.(lots := after))
            && target == AfterDeltas(after, openings) && Sound(c, s.(lots := target))
            && NoZeros(reductions) && reductions.Keys <= s.lots.Keys
            && NoZeros(openings) && openings.Keys <= target.Keys
            && (reductions == map[] ==> after == s.lots) && (openings == map[] ==> after == target)
            && Reductions(after, target) == map[]
  {
    var reductions := Reductions(s.lots, target);
    var after := AfterReductions(s.lots, target);
    var openings := Openings(after, target);
    TwoPhases(s.lots, target);
    assert Normalized(target) == target;
    ShrunkIsSound(c, s, reductions);
    AfterNothing(s.lots);
    AfterNothing(after);
    OpeningsAreWanted(after, target);
  }

  lemma AfterNothing(lots: Lots)
    requires NoZeros(lots)
    ensures AfterDeltas(lots, map[]) == lots
  {
  }

  lemma OpeningsAreWanted(current: Lots, target: Lots)
    requires NoZeros(target)
    ensures NoZeros(Openings(current, target)) && Openings(current, target).Keys <= target.Keys
  {
  }

  /** Every trade of the day can be attributed. */
  lemma DayIsAttributable(c: Contracts, s: Session, target: Lots, added: Lots)
    requires c.Valid() && Ready(c, s, target)
    requires var openings := Openings(AfterReductions(s.lots, target), target);
             added == openings || added == map[]
    ensures var deltas := Merged(Reductions(s.lots, target), added);
            && Attributable(c, s.lots, target, deltas, c.Notionals(s.opens))
            && forall x | x in deltas :: Abs(At(Reductions(s.lots, target), x) + At(added, x))
                                         == Abs(At(Reductions(s.lots, target), x)) + Abs(At(added, x))
  {
    hide *;
    var reductions := Reductions(s.lots, target);
    var deltas := Merged(reductions, added);
    Phases(c, s, target);
    ReadyParts(c, s, target);
    if added != map[] {
      PhasesAddUp(s.lots, target, map[]);
    }
    forall x | x in deltas
      ensures Abs(At(reductions, x) + At(added, x)) == Abs(At(reductions, x)) + Abs(At(added, x))
      ensures Weight(c.Notionals(s.opens), x) > 0.0 && c.Knows(x) && Intent(c, s.lots, target, x).Some?
    {
      OneTrade(c, s, target, reductions, added, x);
    }
    AllAttributable(c, s.lots, target, deltas, c.Notionals(s.opens));
  }

  lemma AllAttributable(c: Contracts, original: Lots, target: Lots, deltas: Lots, w: Weights)
    requires forall x | x in deltas :: Weight(w, x) > 0.0 && c.Knows(x) && Intent(c, original, target, x).Some?
    ensures Attributable(c, original, target, deltas, w)
  {
    hide Intent;
  }

  lemma OneTrade(c: Contracts, s: Session, target: Lots, reductions: Lots, added: Lots, x: Symbol)
    requires c.Valid() && Sound(c, s) && c.Holdable(target) && target.Keys <= s.opens.Keys
    requires reductions.Keys <= s.lots.Keys && added.Keys <= target.Keys && x in Merged(reductions, added)
    requires added == map[] || Abs(At(reductions, x) + At(added, x)) == Abs(At(reductions, x)) + Abs(At(added, x))
    ensures Abs(At(reductions, x) + At(added, x)) == Abs(At(reductions, x)) + Abs(At(added, x))
    ensures Weight(c.Notionals(s.opens), x) > 0.0 && c.Knows(x) && Intent(c, s.lots, target, x).Some?
  {
    TradesHaveIntent(c, s.lots, target, x);
    NotionalsArePositive(c, s.opens);
  }

  lemma BalancedBuckets(start: real, s: Session)
    requires Balanced(start, s)
    ensures s.buckets.Keys == BUCKETS
  {
  }

  lemma SoundParts(c: Contracts, s: Session)
    requires Sound(c, s)
    ensures NoZeros(s.lots) && s.lots.Keys <= s.opens.Keys && c.Holdable(s.lots)
    ensures forall x | x in s.lots :: c.Knows(x)
  {
  }

  /** The openings go out exactly when the gate admits them; otherwise the gate says why not. */
  ghost predicate Admits(c: Contracts, config: Config, r: Session, openings: Lots, reject: Reason) {
    if openings == map[] then reject == Clear
    else Judged(c, config, r.equity, c.Margin(config, r.lots, r.opens), r.lots, openings, r.opens, reject)
  }

  /** Both phases: `r` is the day after the reductions, `added` what was opened on top. */
  ghost predicate PhasesRun(c: Contracts, config: Config, costRate: real, s: Session, target: Lots, r: Session,
                            added: Lots, t: Session, reject: Reason)
  {
    && Executes(c, costRate, s, Reductions(s.lots, target), s.opens, ByIntent(s.lots, target), r)
    && Admits(c, config, r, Openings(r.lots, target), reject)
    && added == (if reject == Clear then Openings(r.lots, target) else map[])
    && Executes(c, costRate, r, added, s.opens, ByIntent(s.lots, target), t)
  }

  /** The two phases, before their turnover is attributed. */
  method RunPhases(c: Contracts, config: Config, costRate: real, s: Session, target: Lots)
    returns (t: Session, reject: Reason, deltas: Lots, ghost r: Session, ghost added: Lots)
    requires c.Valid() && Ready(c, s, target)
    ensures PhasesRun(c, config, costRate, s, target, r, added, t, reject)
    ensures deltas == Merged(Reductions(s.lots, target), added)
    ensures Sound(c, t)
    ensures r.lots == AfterReductions(s.lots, target)
    ensures t.lots == if reject == Clear then target else AfterReductions(s.lots, target)
    ensures t.highWatermark == s.highWatermark && t.opens == s.opens && t.closes == s.closes
  {
    hide *;
    var original := s.lots;
    Phases(c, s, target);
    ReadyParts(c, s, target);
    var reduced;
    reduced, deltas := ReducePhase(c, costRate, s, target);
    r := reduced;
    SoundParts(c, reduced);
    var second := PlanRebalance(reduced.lots, target);
    t, reject, added := reduced, Clear, map[];
    NothingExecutes(c, costRate, reduced, s.opens, ByIntent(original, target));
    MergedWithNothing(deltas);
    if second.openings != map[] {
      var margin := MarginOf(c, config, reduced.lots, reduced.opens);
      var estimated;
      KnownOpenings(c, s, target, second.openings);
      reject, estimated := CheckOpeningBatch(c, config, reduced.equity, margin, reduced.lots, second.openings,
                                             reduced.opens);
      if reject == Clear {
        t := TradePhase(c, costRate, reduced, second.openings, original, target);
        added := second.openings;
        deltas := Merged(deltas, second.openings);
        ExecutedParts(c, costRate, reduced, added, s.opens, ByIntent(original, target), t);
        SameBook(c, s.(lots := t.lots), t);
      }
    }
    PhasesAreRun(c, config, costRate, s, target, reduced, added, t, reject);
  }

  lemma ExecutedParts(c: Contracts, costRate: real, s: Session, deltas: Lots, prices: Weights, naming: Naming,
                      t: Session)
    requires Executes(c, costRate, s, deltas, prices, naming, t)
    ensures t.lots == AfterDeltas(s.lots, deltas)
    ensures t.highWatermark == s.highWatermark && t.opens == s.opens && t.closes == s.closes
  {
  }

  lemma PhasesAreRun(c: Contracts, config: Config, costRate: real, s: Session, target: Lots, r: Session,
                     added: Lots, t: Session, reject: Reason)
    requires Executes(c, costRate, s, Reductions(s.lots, target), s.opens, ByIntent(s.lots, target), r)
    requires Executes(c, costRate, r, added, s.opens, ByIntent(s.lots, target), t)
    requires var openings := Openings(r.lots, target);
             && (openings == map[] ==> reject == Clear)
             && (openings != map[] ==>
                   Judged(c, config, r.equity, c.Margin(config, r.lots, r.opens), r.lots, openings, r.opens, reject))
             && added == if reject == Clear then openings else map[]
    ensures PhasesRun(c, config, costRate, s, target, r, added, t, reject)
  {
    hide Executes, Judged;
  }

  lemma MergedWithNothing(lots: Lots)
    ensures Merged(lots, map[]) == lots
  {
  }

  lemma KnownOpenings(c: Contracts, s: Session, target: Lots, openings: Lots)
    requires c.Holdable(target) && openings.Keys <= target.Keys
    ensures forall x | x in openings :: c.Knows(x)
  {
  }

  /** First phase. */
  method ReducePhase(c: Contracts, costRate: real, s: Session, target: Lots) returns (r: Session, sold: Lots)
    requires c.Valid() && Ready(c, s, target)
    ensures sold == Reductions(s.lots, target)
    ensures Executes(c, costRate, s, sold, s.opens, ByIntent(s.lots, target), r)
    ensures Sound(c, r) && r.lots == AfterReductions(s.lots, target) && r.buckets == s.buckets
    ensures r.highWatermark == s.highWatermark && r.opens == s.opens && r.closes == s.closes
  {
    hide *;
    Phases(c, s, target);
    ReadyParts(c, s, target);
    NothingExecutes(c, costRate, s, s.opens, ByIntent(s.lots, target));
    var first := PlanRebalance(s.lots, target);
    r, sold := s, first.reductions;
    if first.reductions != map[] {
      r := TradePhase(c, costRate, s, first.reductions, s.lots, target);
      ExecutedParts(c, costRate, s, sold, s.opens, ByIntent(s.lots, target), r);
      SameBook(c, s.(lots := r.lots), r);
    }
  }

  /** The rebalance of a day: both phases, and their turnover attributed once. */
  ghost predicate Rebalances(c: Contracts, config: Config, costRate: real, s: Session, target: Lots, t: Session,
                             reject: Reason)
  {
    exists r, added ::
      && PhasesRun(c, config, costRate, s, target, r, added, t, reject)
      && Spread(c, s, target, Merged(Reductions(s.lots, target), added), t.buckets)
  }

  /** Reduce first, then open if the gate admits the batch; the book ends on the target, or on
      what reducing left. */
  method RebalanceBook(c: Contracts, config: Config, costRate: real, ghost start: real, s: Session, target: Lots)
    returns (t: Session, reject: Reason)
    requires c.Valid() && Ready(c, s, target) && Balanced(start, s)
    ensures Balanced(start, t) && Sound(c, t)
    ensures Rebalances(c, config, costRate, s, target, t, reject)
    ensures t.lots == if reject == Clear then target else AfterReductions(s.lots, target)
    ensures t.highWatermark == s.highWatermark && t.opens == s.opens && t.closes == s.closes
  {
    hide *;
    BalancedBuckets(start, s);
    ReadyParts(c, s, target);
    var deltas;
    ghost var r, added;
    t, reject, deltas, r, added := RunPhases(c, config, costRate, s, target);
    PhaseParts(c, config, costRate, s, target, r, added, t, reject);
    DayIsAttributable(c, s, target, added);
    var attributed := AttributeRebalanceDeltas(c, s.lots, target, deltas, c.Notionals(s.opens));
    AttributedBuckets(c, s.lots, target, deltas, c.Notionals(s.opens), attributed.value);
    NormalIsSpread(c, s, target, deltas, attributed.value);
    var before := t;
    t := t.(buckets := WithNormal(s.buckets, attributed.value));
    SameBook(c, before, t);
    KeysOfTrades(c, s, target);
    BucketsDoNotMatter(c, config, costRate, s, target, r, added, before, t, reject);
    RebalancedIsBalanced(c, costRate, start, s, r, t, target, Reductions(s.lots, target), added);
    RebalancesThrough(c, config, costRate, s, target, r, added, t, reject);
  }

  lemma PhaseParts(c: Contracts, config: Config, costRate: real, s: Session, target: Lots, r: Session,
                   added: Lots, t: Session, reject: Reason)
    requires PhasesRun(c, config, costRate, s, target, r, added, t, reject)
    ensures added == if reject == Clear then Openings(r.lots, target) else map[]
    ensures Executes(c, costRate, s, Reductions(s.lots, target), s.opens, ByIntent(s.lots, target), r)
    ensures Executes(c, costRate, r, added, s.opens, ByIntent(s.lots, target), t)
  {
    hide Executes, Admits;
  }

  lemma BucketsDoNotMatter(c: Contracts, config: Config, costRate: real, s: Session, target: Lots, r: Session,
                           added: Lots, t: Session, t': Session, reject: Reason)
    requires PhasesRun(c, config, costRate, s, target, r, added, t, reject) && t' == t.(buckets := t'.buckets)
    ensures PhasesRun(c, config, costRate, s, target, r, added, t', reject)
    ensures Executes(c, costRate, r, added, s.opens, ByIntent(s.lots, target), t')
  {
    hide Audited, Admits, Total, Paid, AfterDeltas;
  }

  lemma RebalancesThrough(c: Contracts, config: Config, costRate: real, s: Session, target: Lots, r: Session,
                          added: Lots, t: Session, reject: Reason)
    requires PhasesRun(c, config, costRate, s, target, r, added, t, reject)
    requires Spread(c, s, target, Merged(Reductions(s.lots, target), added), t.buckets)
    ensures Rebalances(c, config, costRate, s, target, t, reject)
  {
    hide PhasesRun, Spread;
  }

  lemma KeysOfTrades(c: Contracts, s: Session, target: Lots)
    requires Ready(c, s, target)
    ensures Reductions(s.lots, target).Keys <= s.lots.Keys + target.Keys
    ensures Openings(AfterReductions(s.lots, target), target).Keys <= s.lots.Keys + target.Keys
  {
    Phases(c, s, target);
  }

  /** `_margin` */
  method MarginOf(c: Contracts, config: Config, lots: Lots, prices: Weights) returns (margin: real)
    ensures margin == c.Margin(config, lots, prices)
  {
    margin := Measure(lots, c.MarginWeights(config, prices));
  }

  lemma SameBook(c: Contracts, s: Session, t: Session)
    requires Sound(c, s) && t.lots == s.lots && t.opens == s.opens && t.closes == s.closes
    ensures Sound(c, t)
  {
  }

  lemma ReadyParts(c: Contracts, s: Session, target: Lots)
    requires Ready(c, s, target)
    ensures Sound(c, s) && c.Holdable(target) && c.Holdable(s.lots) && NoZeros(s.lots)
    ensures target.Keys <= s.opens.Keys && s.lots.Keys <= s.opens.Keys
    ensures forall x | x in s.lots || x in target :: c.Knows(x)
  {
  }
}
