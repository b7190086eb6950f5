/** The account state machine of the acceptance simulator: one step per day, hard gates at the
    open and at the close, and an audit ledger that explains every change of equity. */
module Simulator {
  import opened Lots
  import opened GrossReduction
  import opened TargetLots
  import opened Market
  import opened AuditLedger
  import opened DayTargets
  import opened DaySession
  import opened DayTrades

  datatype Account = Account(
    equity: real,
    highWatermark: real,
    lots: Lots,
    previousClose: Weights,
    halted: bool,
    divergence: Reason,
    ledger: seq<Event>
  )

  /** What a day brings: prices, raw target weights, the governor's scale and the contract
      selected for each product. */
  datatype Day = Day(bars: map<Symbol, Bar>, weights: ProductWeights, scale: real, selected: Selection)

  datatype Row = Row(
    equity: real,
    dailyReturn: real,
    turnover: real,
    buckets: map<Action, real>,
    gross: real,
    margin: real,
    reason: Reason,
    reject: Reason,
    circuit: bool,
    guarded: bool,
    halted: bool
  )

  /** A day either completes, or its return divides by an equity of zero. */
  datatype DayResult = Completed(account: Account, row: Row) | DividedByZero

  predicate ValidDay(c: Contracts, d: Day) {
    PositiveBars(d.bars) && Consistent(c, d.selected)
  }

  /** `first or later` */
  function First(first: Reason, later: Reason): Reason {
    if first != Clear then first else later
  }

  const NO_TURNOVER: map<Action, real> := map a | a in BUCKETS :: 0.0

  /** A book that can be marked tomorrow: holdable, and every position was priced at the last close. */
  ghost predicate Markable(c: Contracts, a: Account) {
    && c.Holdable(a.lots)
    && (!a.halted ==> a.lots.Keys <= a.previousClose.Keys && Positive(a.previousClose))
    && (!a.halted && a.lots != map[] ==> a.equity > 0.0)
    && (a.halted ==> a.divergence != Clear)
  }

  predicate IsHard(reason: Reason) {
    reason != Clear && reason != DailyLoss
  }

  /** How a day may end: flat, or untouched by any reason and within every limit. */
  ghost predicate Settled(c: Contracts, config: Config, dayStart: real, lots: Lots, closes: Weights, equity: real,
                          highWatermark: real, reason: Reason) {
    || lots == map[]
    || (&& reason == Clear
        && HardGates(config, equity, highWatermark, c.Margin(config, lots, closes))
        && DailyGate(config, equity, dayStart)
        && UnderCeiling(c, config, lots, closes, equity))
  }

  // ---- Selection and target ----

  /** The selected contracts that trade today. */
  function Trading(d: Day): Selection {
    map p | p in d.selected && d.selected[p] in d.bars :: d.selected[p]
  }

  function Chosen(d: Day): set<Symbol> {
    set p | p in Trading(d) :: d.selected[p]
  }

  function ProductOpens(d: Day): map<Product, real> {
    map p | p in Trading(d) :: d.bars[d.selected[p]].open
  }

  function ScaledWeights(d: Day): ProductWeights {
    map p | p in d.weights :: d.weights[p] * d.scale
  }

  /** Products with a target but no contract to trade. */
  function Missing(d: Day): set<Product> {
    set p | p in ScaledWeights(d) && AbsReal(ScaledWeights(d)[p]) > NEGLIGIBLE && p !in Trading(d)
  }

  function Quoted(s: Session, d: Day): Session {
    s.(opens := s.opens + OpensOf(d.bars, Chosen(d)), closes := s.closes + ClosesOf(d.bars, Chosen(d)))
  }

  ghost function DayTarget(c: Contracts, config: Config, equity: real, lots: Lots, d: Day): Lots
    requires c.Valid() && c.Holdable(lots)
  {
    TargetOf(c, Staged(c, config, equity, ScaledWeights(d), Trading(d), ProductOpens(d)), lots, Missing(d))
  }

  /** Everything marked to the opening prices. */
  function Opened(a: Account, d: Day, marked: real, events: seq<Event>): Session {
    Session(marked, Max(a.highWatermark, marked), a.lots, OpensOf(d.bars, a.lots.Keys), ClosesOf(d.bars, a.lots.Keys),
            0.0, NO_TURNOVER, events)
  }

  // ---- How a day runs ----

  /** Everything marked to the closing prices. */
  function MarkedToClose(s: Session, pnl: real, rows: seq<Event>): Session {
    s.(equity := s.equity + pnl, highWatermark := Max(s.highWatermark, s.equity + pnl), events := s.events + rows)
  }

  /** From the open to the close: one row per position. */
  ghost predicate Rides(c: Contracts, s: Session, t: Session) {
    var moves := Moves(c, s.opens, s.closes);
    && s.events <= t.events
    && Marked(c, AuditLedger.Intraday, s.lots, s.closes, moves, Since(s, t))
    && t == MarkedToClose(s, Drift(s.lots, moves), Since(s, t))
  }

  ghost function ReasonAtOpen(c: Contracts, config: Config, dayStart: real, s: Session): Reason {
    AccountRiskReason(config, s.equity, dayStart, s.highWatermark, c.Margin(config, s.lots, s.opens))
  }

  ghost function ReasonAtClose(c: Contracts, config: Config, dayStart: real, s: Session): Reason {
    AccountRiskReason(config, s.equity, dayStart, s.highWatermark, c.Margin(config, s.lots, s.closes))
  }

  /** The close: a reason sells everything; without one the gross is guarded, and what the guard
      cost is looked at once more. */
  ghost predicate Closes(c: Contracts, config: Config, costRate: real, dayStart: real, s: Session, t: Session,
                         reason: Reason, guarded: bool)
  {
    if ReasonAtClose(c, config, dayStart, s) != Clear then
      && reason == ReasonAtClose(c, config, dayStart, s) && !guarded
      && Liquidates(c, costRate, s, s.closes, reason, t)
    else
      exists g :: Guards(c, config, costRate, s, g, guarded)
          && LooksAgain(c, config, costRate, dayStart, g, t, reason, guarded)
  }

  ghost predicate LooksAgain(c: Contracts, config: Config, costRate: real, dayStart: real, s: Session, t: Session,
                             reason: Reason, guarded: bool)
  {
    && reason == (if guarded then ReasonAtClose(c, config, dayStart, s) else Clear)
    && if reason == Clear then t == s else Liquidates(c, costRate, s, s.closes, reason, t)
  }

  /** A session that opened without a reason: rebalance, ride to the close, face the gates. */
  ghost predicate Trades(c: Contracts, config: Config, costRate: real, dayStart: real, s: Session, target: Lots,
                         t: Session, reason: Reason, reject: Reason, guarded: bool)
  {
    exists r, m ::
      && Rebalances(c, config, costRate, s, target, r, reject)
      && Rides(c, r, m)
      && Closes(c, config, costRate, dayStart, m, t, reason, guarded)
  }

  /** A day on which every position has a price: the gap; then a forced sale at the open, or the
      trading session towards the day's target. */
  ghost predicate DayRuns(c: Contracts, config: Config, costRate: real, d: Day, a: Account, gap: seq<Event>,
                          t: Session, reason: Reason, reject: Reason, guarded: bool)
    requires c.Valid() && c.Holdable(a.lots)
  {
    var opens := OpensOf(d.bars, a.lots.Keys);
    var moves := Moves(c, a.previousClose, opens);
    var s := Opened(a, d, a.equity + Drift(a.lots, moves), gap);
    && Marked(c, Gap, a.lots, opens, moves, gap)
    && if ReasonAtOpen(c, config, a.equity, s) != Clear then
         && reason == ReasonAtOpen(c, config, a.equity, s) && reject == Clear && !guarded
         && Liquidates(c, costRate, s, s.opens, reason, t)
       else
         Trades(c, config, costRate, a.equity, Quoted(s, d), DayTarget(c, config, s.equity, a.lots, d), t, reason,
                reject, guarded)
  }

  /** The account after the day. */
  function Closed(a: Account, s: Session, reason: Reason, reject: Reason): Account {
    Account(s.equity, s.highWatermark, s.lots, map x | x in s.lots && x in s.closes :: s.closes[x],
            IsHard(reason), First(First(a.divergence, reject), reason), a.ledger + s.events)
  }

  /** The account and its row are what the day's run leaves. */
  ghost predicate Ends(c: Contracts, config: Config, costRate: real, d: Day, a: Account, b: Account, row: Row)
    requires c.Valid() && c.Holdable(a.lots)
  {
    exists gap, t ::
      && DayRuns(c, config, costRate, d, a, gap, t, row.reason, row.reject, row.guarded)
      && b == Closed(a, t, row.reason, row.reject)
      && row.turnover == t.turnover && row.buckets == t.buckets
  }

  /** A missing price freezes the book as it is, partly marked to the open. */
  ghost predicate Freezes(c: Contracts, d: Day, a: Account, b: Account, row: Row)
    requires a.equity != 0.0 && row.reason.MissingPrice?
  {
    exists gap: seq<Event> ::
      && PnlRows(c, Gap, a.lots, OpensOf(d.bars, a.lots.Keys), Moves(c, a.previousClose, OpensOf(d.bars, a.lots.Keys)),
                 gap)
      && (forall i | 0 <= i < |gap| :: gap[i].symbol in d.bars)
      && NoTurnover(gap)
      && row.reason.symbol in a.lots && row.reason.symbol !in d.bars
      && b == Account(a.equity + Sum(gap, GrossPnl), a.highWatermark, a.lots, a.previousClose, true,
                      if a.divergence != Clear then a.divergence else row.reason, a.ledger + gap)
      && row == Row(b.equity, b.equity / a.equity - 1.0, 0.0, NO_TURNOVER, 0.0, 0.0, row.reason, Clear, false, false,
                    true)
  }

  function Stuck(a: Account, marked: real, events: seq<Event>, reason: Reason): Account {
    a.(equity := marked, halted := true, divergence := First(a.divergence, reason), ledger := a.ledger + events)
  }

  function StuckRow(a: Account, b: Account, reason: Reason): Row
    requires a.equity != 0.0
  {
    Row(b.equity, b.equity / a.equity - 1.0, 0.0, NO_TURNOVER, 0.0, 0.0, reason, Clear, false, false, true)
  }

  function HaltedRow(a: Account): Row {
    Row(a.equity, 0.0, 0.0, NO_TURNOVER, 0.0, 0.0, a.divergence, Clear, false, false, true)
  }

  // ---- One day ----

  /** One day: how it runs, and what that keeps and reports. */
  ghost predicate DayStep(c: Contracts, config: Config, costRate: real, d: Day, a: Account, b: Account, row: Row)
    requires c.Valid() && c.Holdable(a.lots)
  {
    if a.halted then
      b == a && row == HaltedRow(a)
    else
      && a.ledger <= b.ledger
      && Conserved(a.equity, b.equity, b.ledger[|a.ledger|..])
      && Reconciled(row.turnover, row.buckets, b.ledger[|a.ledger|..])
      && row.equity == b.equity && a.equity != 0.0 && row.dailyReturn == b.equity / a.equity - 1.0
      && Markable(c, b)
      && b.halted == row.halted == (row.reason != Clear && row.reason != DailyLoss)
      && row.circuit == (row.reason == DailyLoss)
      && b.divergence == (if a.divergence != Clear then a.divergence
                          else if row.reject != Clear then row.reject else row.reason)
      && (row.reason.MissingPrice? <==> exists s :: s in a.lots && s !in d.bars)
      && (row.reason.MissingPrice? ==> Freezes(c, d, a, b, row))
      && (!row.reason.MissingPrice? ==>
            && Ends(c, config, costRate, d, a, b, row)
            && Settled(c, config, a.equity, b.lots, b.previousClose, b.equity, b.highWatermark, row.reason)
            && b.previousClose.Keys == b.lots.Keys
            && (forall s | s in b.lots :: s in d.bars && b.previousClose[s] == d.bars[s].close)
            && row.margin == c.Margin(config, b.lots, b.previousClose)
            && row.gross == c.Gross(b.lots, b.previousClose))
  }

  // ---- The open ----

  lemma OpenedIsSound(c: Contracts, a: Account, d: Day, marked: real, events: seq<Event>)
    requires Markable(c, a) && ValidDay(c, d) && forall s | s in a.lots :: s in d.bars
    requires NoTurnover(events) && marked == a.equity + Sum(events, GrossPnl)
    ensures Sound(c, Opened(a, d, marked, events)) && Balanced(a.equity, Opened(a, d, marked, events))
  {
  }

  /** Quotes only ever add prices, and they are bars of the day. */
  predicate QuotedFrom(s: Session, d: Day) {
    && (forall x | x in s.opens :: x in d.bars && s.opens[x] == d.bars[x].open)
    && (forall x | x in s.closes :: x in d.bars && s.closes[x] == d.bars[x].close)
  }

  lemma TradingIsConsistent(c: Contracts, d: Day)
    requires ValidDay(c, d)
    ensures Consistent(c, Trading(d))
    ensures Missing(d) !! Trading(d).Keys
  {
    hide ScaledWeights;
  }

  lemma QuotedIsSound(c: Contracts, s: Session, d: Day)
    requires Sound(c, s) && ValidDay(c, d) && QuotedFrom(s, d)
    ensures Sound(c, Quoted(s, d)) && QuotedFrom(Quoted(s, d), d)
    ensures Chosen(d) + s.opens.Keys <= Quoted(s, d).opens.Keys
  {
    hide *;
    ChosenQuotes(c, d);
    QuotedBy(c, s, d, OpensOf(d.bars, Chosen(d)), ClosesOf(d.bars, Chosen(d)));
    QuotedAs(s, d);
  }

  lemma QuotedAs(s: Session, d: Day)
    ensures Quoted(s, d)
            == s.(opens := s.opens + OpensOf(d.bars, Chosen(d)), closes := s.closes + ClosesOf(d.bars, Chosen(d)))
  {
  }

  lemma ChosenQuotes(c: Contracts, d: Day)
    requires ValidDay(c, d)
    ensures var opens, closes := OpensOf(d.bars, Chosen(d)), ClosesOf(d.bars, Chosen(d));
            && opens.Keys == closes.Keys == Chosen(d) && Positive(opens) && Positive(closes)
            && forall x | x in opens :: x in d.bars && opens[x] == d.bars[x].open && closes[x] == d.bars[x].close
  {
    assert forall x | x in Chosen(d) :: x in d.bars;
    hide Chosen;
  }

  lemma QuotedBy(c: Contracts, s: Session, d: Day, opens: Weights, closes: Weights)
    requires Sound(c, s) && QuotedFrom(s, d) && opens.Keys == closes.Keys && Positive(opens) && Positive(closes)
    requires forall x | x in opens :: x in d.bars && opens[x] == d.bars[x].open && closes[x] == d.bars[x].close
    ensures var t := s.(opens := s.opens + opens, closes := s.closes + closes);
            Sound(c, t) && QuotedFrom(t, d) && opens.Keys + s.opens.Keys <= t.opens.Keys
  {
  }

  lemma StagedIsQuoted(c: Contracts, config: Config, s: Session, d: Day)
    requires c.Valid() && ValidDay(c, d)
    ensures Staged(c, config, s.equity, ScaledWeights(d), Trading(d), ProductOpens(d)).Keys <= Chosen(d)
  {
    TradingIsConsistent(c, d);
    StagedIsHoldable(c, config, s.equity, ScaledWeights(d), Trading(d), ProductOpens(d));
    hide Staged, ScaledWeights, ProductOpens;
    forall x | x in Staged(c, config, s.equity, ScaledWeights(d), Trading(d), ProductOpens(d))
      ensures x in Chosen(d)
    {
      var p := c.products[x];
      assert p in Trading(d) && d.selected[p] == x;
    }
  }

  /** The day's target can be traded: one contract per product, all of them quoted. */
  lemma QuotedIsReady(c: Contracts, config: Config, s: Session, d: Day)
    requires c.Valid() && Sound(c, s) && ValidDay(c, d) && QuotedFrom(s, d)
    ensures Consistent(c, Trading(d))
    ensures Sound(c, Quoted(s, d)) && QuotedFrom(Quoted(s, d), d)
    ensures Ready(c, Quoted(s, d), DayTarget(c, config, s.equity, s.lots, d))
  {
    hide Staged, Sound, Consistent, ScaledWeights, ProductOpens, Trading, Missing, Chosen, Quoted, ValidDay,
         QuotedFrom;
    SoundCloses(c, s);
    TradingIsConsistent(c, d);
    QuotedIsSound(c, s, d);
    StagedIsQuoted(c, config, s, d);
    TargetIsHoldable(c, config, s.equity, ScaledWeights(d), Trading(d), ProductOpens(d), s.lots, Missing(d));
  }

  // ---- The close ----

  lemma MarkedIsBalanced(c: Contracts, start: real, s: Session, pnl: real, rows: seq<Event>)
    requires Balanced(start, s) && Sound(c, s) && NoTurnover(rows) && pnl == Sum(rows, GrossPnl)
    ensures Balanced(start, MarkedToClose(s, pnl, rows)) && Sound(c, MarkedToClose(s, pnl, rows))
  {
    hide Sum, BucketTotal;
    forall column
      ensures Sum(s.events + rows, column) == Sum(s.events, column) + Sum(rows, column)
    {
      SumConcat(s.events, rows, column);
    }
  }

  /** The gates at the close: liquidate on a reason; otherwise guard the gross and look once more. */
  method CloseGates(c: Contracts, config: Config, costRate: real, start: real, s: Session)
    returns (t: Session, reason: Reason, guarded: bool)
    requires c.Valid() && Sound(c, s) && Balanced(start, s) && costRate >= 0.0 && config.maxGross > 0.0
    requires config.marginRate > 0.0 && config.marginBuffer > 0.0
    ensures Sound(c, t) && Balanced(start, t)
    ensures t.opens == s.opens && t.closes == s.closes
    ensures !reason.MissingPrice?
    ensures Closes(c, config, costRate, start, s, t, reason, guarded)
    ensures Settled(c, config, start, t.lots, t.closes, t.equity, t.highWatermark, reason)
    ensures reason == Clear && !guarded ==> t == s
  {
    hide *;
    SoundCloses(c, s);
    var margin := MarginOf(c, config, s.lots, s.closes);
    reason := AccountRiskReason(config, s.equity, start, s.highWatermark, margin);
    ClearMeansGates(c, config, s, start);
    guarded := false;
    t := s;
    if reason != Clear {
      t := Liquidate(c, costRate, start, s, s.closes, reason);
      ClosesAtOnce(c, config, costRate, start, s, t);
    } else {
      ghost var g := s;
      if s.lots != map[] {
        t, guarded := GuardGross(c, config, costRate, start, s);
        g := t;
        if guarded {
          SoundCloses(c, t);
          margin := MarginOf(c, config, t.lots, t.closes);
          var again := AccountRiskReason(config, t.equity, start, t.highWatermark, margin);
          ClearMeansGates(c, config, t, start);
          if again != Clear {
            reason := again;
            t := Liquidate(c, costRate, start, t, t.closes, again);
          }
        }
      } else {
        NothingToGuard(c, config, costRate, s);
      }
      ClosesGuarded(c, config, costRate, start, s, g, t, reason, guarded);
    }
    SettledWhen(c, config, start, t, reason);
  }

  lemma ClosesAtOnce(c: Contracts, config: Config, costRate: real, dayStart: real, s: Session, t: Session)
    requires var reason := AccountRiskReason(config, s.equity, dayStart, s.highWatermark,
                                             c.Margin(config, s.lots, s.closes));
             reason != Clear && Liquidates(c, costRate, s, s.closes, reason, t)
    ensures Closes(c, config, costRate, dayStart, s, t, ReasonAtClose(c, config, dayStart, s), false)
    ensures ReasonAtClose(c, config, dayStart, s)
         == AccountRiskReason(config, s.equity, dayStart, s.highWatermark, c.Margin(config, s.lots, s.closes))
  {
    hide AccountRiskReason, Liquidates, Total;
  }

  lemma ClosesGuarded(c: Contracts, config: Config, costRate: real, dayStart: real, s: Session, g: Session, t: Session,
                      reason: Reason, guarded: bool)
    requires AccountRiskReason(config, s.equity, dayStart, s.highWatermark, c.Margin(config, s.lots, s.closes)) == Clear
    requires Guards(c, config, costRate, s, g, guarded)
    requires reason == if !guarded then Clear
                       else AccountRiskReason(config, g.equity, dayStart, g.highWatermark,
                                              c.Margin(config, g.lots, g.closes))
    requires if reason == Clear then t == g else Liquidates(c, costRate, g, g.closes, reason, t)
    ensures Closes(c, config, costRate, dayStart, s, t, reason, guarded)
  {
    hide AccountRiskReason, Liquidates, Guards, Total;
    assert LooksAgain(c, config, costRate, dayStart, g, t, reason, guarded);
  }

  /** A flat book is under every ceiling. */
  lemma NothingToGuard(c: Contracts, config: Config, costRate: real, s: Session)
    requires s.lots == map[] && s.equity > 0.0 && config.maxGross > 0.0
    ensures Guards(c, config, costRate, s, s, false)
  {
    NothingSold(c.Notionals(s.closes));
    NonNegativeProduct(config.maxGross, s.equity);
    hide Total;
    assert GuardsWith(c, config, costRate, s, map[], s, false);
  }

  lemma SettledWhen(c: Contracts, config: Config, dayStart: real, s: Session, reason: Reason)
    ensures Settled(c, config, dayStart, s.lots, s.closes, s.equity, s.highWatermark, reason) <==>
              || s.lots == map[]
              || (&& reason == Clear
                  && HardGates(config, s.equity, s.highWatermark, c.Margin(config, s.lots, s.closes))
                  && DailyGate(config, s.equity, dayStart)
                  && UnderCeiling(c, config, s.lots, s.closes, s.equity))
  {
  }

  lemma SoundCloses(c: Contracts, s: Session)
    requires Sound(c, s)
    ensures Positive(s.closes) && Positive(s.opens) && s.lots.Keys <= s.closes.Keys && s.lots.Keys <= s.opens.Keys
    ensures c.Holdable(s.lots)
  {
  }

  /** A day without a reason passed every gate. */
  lemma ClearMeansGates(c: Contracts, config: Config, s: Session, dayStart: real)
    requires c.Valid() && Sound(c, s) && config.marginRate > 0.0 && config.marginBuffer > 0.0
    ensures var margin := c.Margin(config, s.lots, s.closes);
            var reason := AccountRiskReason(config, s.equity, dayStart, s.highWatermark, margin);
            && !reason.MissingPrice?
            && (reason == Clear ==>
                s.equity > 0.0 && HardGates(config, s.equity, s.highWatermark, margin)
                    && DailyGate(config, s.equity, dayStart))
  {
    MarginIsNonNegative(c, config, s.lots, s.closes);
    hide Total;
    ReasonIsExact(config, s.equity, dayStart, s.highWatermark, c.Margin(config, s.lots, s.closes));
  }

  lemma MarginIsNonNegative(c: Contracts, config: Config, lots: Lots, prices: Weights)
    requires c.Valid() && Positive(prices) && config.marginRate > 0.0 && config.marginBuffer > 0.0
    ensures c.Margin(config, lots, prices) >= 0.0
  {
    var w := c.MarginWeights(config, prices);
    forall s | s in w
      ensures w[s] >= 0.0
    {
      PositiveProduct(prices[s], c.Multiplier(s));
      PositiveProduct(prices[s] * c.Multiplier(s), config.marginRate);
      PositiveProduct(prices[s] * c.Multiplier(s) * config.marginRate, config.marginBuffer);
    }
    TotalIsNonNegative(lots, w);
  }

  // ---- The day ----

  method TradeDay(c: Contracts, config: Config, costRate: real, a: Account, d: Day) returns (r: DayResult)
    requires c.Valid() && config.Valid() && costRate >= 0.0 && Markable(c, a) && ValidDay(c, d)
    ensures r.Completed? ==> DayStep(c, config, costRate, d, a, r.account, r.row)
    ensures r.DividedByZero? <==> !a.halted && a.equity == 0.0
  {
    hide *;
    if a.halted {
      HaltedStep(c, config, costRate, d, a);
      return Completed(a, HaltedRow(a));
    }
    MarkableParts(c, a);
    var marked, events, missing := MarkGap(c, a.lots, a.previousClose, d.bars, a.equity);
    if missing.Some? {
      if a.equity == 0.0 {
        return DividedByZero;
      }
      var stuck := Stuck(a, marked, events, MissingPrice(missing.value));
      MissingStep(c, config, costRate, d, a, marked, events, missing.value);
      return Completed(stuck, StuckRow(a, stuck, MissingPrice(missing.value)));
    }
    GapIsDrift(c, a, d, events);
    OpenedIsSound(c, a, d, marked, events);
    var s := Opened(a, d, marked, events);
    OpenedParts(a, d, marked, events);
    var margin := MarginOf(c, config, s.lots, s.opens);
    var reason := AccountRiskReason(config, s.equity, a.equity, s.highWatermark, margin);
    ClearMeansSolvent(config, s.equity, a.equity, s.highWatermark, margin);
    var t, reject, guarded := s, Clear, false;
    if reason != Clear {
      SoundCloses(c, s);
      t := Liquidate(c, costRate, a.equity, s, s.opens, reason);
      SameQuotes(s, t, d);
      FlatIsSettled(c, config, a.equity, t, reason);
      SoldAtOpen(c, config, costRate, d, a, events, t);
    } else {
      t, reject, reason, guarded := TradeSession(c, config, costRate, a.equity, s, d);
      TradedSession(c, config, costRate, d, a, events, t, reason, reject, guarded);
    }
    if a.equity == 0.0 {
      return DividedByZero;
    }
    r := CloseDay(c, config, costRate, a, d, events, t, reason, reject, guarded);
  }

  lemma SoldAtOpen(c: Contracts, config: Config, costRate: real, d: Day, a: Account, gap: seq<Event>, t: Session)
    requires c.Valid() && Markable(c, a)
    requires var opens := OpensOf(d.bars, a.lots.Keys);
             var s := Opened(a, d, a.equity + Drift(a.lots, Moves(c, a.previousClose, opens)), gap);
             var reason := AccountRiskReason(config, s.equity, a.equity, s.highWatermark,
                                             c.Margin(config, s.lots, s.opens));
             && Marked(c, Gap, a.lots, opens, Moves(c, a.previousClose, opens), gap)
             && reason != Clear && Liquidates(c, costRate, s, s.opens, reason, t)
    ensures var opens := OpensOf(d.bars, a.lots.Keys);
            var s := Opened(a, d, a.equity + Drift(a.lots, Moves(c, a.previousClose, opens)), gap);
            var reason := AccountRiskReason(config, s.equity, a.equity, s.highWatermark,
                                            c.Margin(config, s.lots, s.opens));
            DayRuns(c, config, costRate, d, a, gap, t, reason, Clear, false)
  {
    hide Drift, AccountRiskReason, Total, Marked, Liquidates, DayTarget, Trades, Opened, OpensOf, Moves;
  }

  lemma TradedSession(c: Contracts, config: Config, costRate: real, d: Day, a: Account, gap: seq<Event>, t: Session,
                      reason: Reason, reject: Reason, guarded: bool)
    requires c.Valid() && Markable(c, a)
    requires var opens := OpensOf(d.bars, a.lots.Keys);
             var s := Opened(a, d, a.equity + Drift(a.lots, Moves(c, a.previousClose, opens)), gap);
             && Marked(c, Gap, a.lots, opens, Moves(c, a.previousClose, opens), gap)
             && AccountRiskReason(config, s.equity, a.equity, s.highWatermark, c.Margin(config, s.lots, s.opens))
                == Clear
             && c.Holdable(s.lots)
             && Trades(c, config, costRate, a.equity, Quoted(s, d), DayTarget(c, config, s.equity, s.lots, d), t,
                       reason, reject, guarded)
    ensures DayRuns(c, config, costRate, d, a, gap, t, reason, reject, guarded)
  {
    OpenedParts(a, d, a.equity + Drift(a.lots, Moves(c, a.previousClose, OpensOf(d.bars, a.lots.Keys))), gap);
    hide Drift, AccountRiskReason, Total, Marked, Liquidates, DayTarget, Trades, Opened, OpensOf, Moves, Quoted;
  }

  lemma GapIsDrift(c: Contracts, a: Account, d: Day, events: seq<Event>)
    requires Marked(c, Gap, a.lots, OpensOf(d.bars, a.lots.Keys),
                    Moves(c, a.previousClose, OpensOf(d.bars, a.lots.Keys)), events)
    ensures Sum(events, GrossPnl) == Drift(a.lots, Moves(c, a.previousClose, OpensOf(d.bars, a.lots.Keys)))
  {
  }

  lemma HaltedStep(c: Contracts, config: Config, costRate: real, d: Day, a: Account)
    requires a.halted && c.Valid() && Markable(c, a)
    ensures DayStep(c, config, costRate, d, a, a, HaltedRow(a))
  {
  }

  lemma MarkableParts(c: Contracts, a: Account)
    requires Markable(c, a) && !a.halted
    ensures c.Holdable(a.lots) && a.lots.Keys <= a.previousClose.Keys
  {
  }

  lemma MissingStep(c: Contracts, config: Config, costRate: real, d: Day, a: Account, marked: real,
                    events: seq<Event>, symbol: Symbol)
    requires c.Valid() && Markable(c, a) && !a.halted && a.equity != 0.0 && symbol in a.lots
    requires symbol !in d.bars || symbol !in a.previousClose
    requires NoTurnover(events) && marked == a.equity + Sum(events, GrossPnl)
    requires PnlRows(c, Gap, a.lots, OpensOf(d.bars, a.lots.Keys),
                     Moves(c, a.previousClose, OpensOf(d.bars, a.lots.Keys)), events)
    requires forall i | 0 <= i < |events| :: events[i].symbol in d.bars
    ensures var b := Stuck(a, marked, events, MissingPrice(symbol));
            DayStep(c, config, costRate, d, a, b, StuckRow(a, b, MissingPrice(symbol)))
  {
    hide *;
    var b := Stuck(a, marked, events, MissingPrice(symbol));
    StuckParts(c, d, a, marked, events, symbol);
    NothingReconciled(a, events);
    FreezesWith(c, d, a, events, symbol);
    FrozenStep(c, config, costRate, d, a, b, StuckRow(a, b, MissingPrice(symbol)), events, symbol);
  }

  lemma StuckParts(c: Contracts, d: Day, a: Account, marked: real, events: seq<Event>, symbol: Symbol)
    requires Markable(c, a) && !a.halted && a.equity != 0.0 && symbol in a.lots
    requires symbol !in d.bars || symbol !in a.previousClose
    ensures symbol !in d.bars && c.Holdable(a.lots)
    ensures var b := Stuck(a, marked, events, MissingPrice(symbol));
            var row := StuckRow(a, b, MissingPrice(symbol));
            && Markable(c, b) && b.halted && b.equity == marked && b.ledger == a.ledger + events
            && b.divergence == First(First(a.divergence, Clear), MissingPrice(symbol))
            && row.equity == marked && row.dailyReturn == marked / a.equity - 1.0 && row.turnover == 0.0
            && row.buckets == NO_TURNOVER && row.reason == MissingPrice(symbol) && row.reject == Clear
            && !row.circuit && row.halted
  {
  }

  /** The step a missing price makes, from its parts. */
  lemma FrozenStep(c: Contracts, config: Config, costRate: real, d: Day, a: Account, b: Account, row: Row,
                   events: seq<Event>, symbol: Symbol)
    requires c.Valid() && c.Holdable(a.lots) && !a.halted && a.equity != 0.0 && symbol in a.lots && symbol !in d.bars
    requires Markable(c, b) && b.halted && b.ledger == a.ledger + events
    requires row.equity == b.equity && row.dailyReturn == b.equity / a.equity - 1.0 && row.turnover == 0.0
    requires row.buckets == NO_TURNOVER && row.reason == MissingPrice(symbol) && row.reject == Clear
    requires !row.circuit && row.halted && b.divergence == First(First(a.divergence, Clear), MissingPrice(symbol))
    requires Reconciled(0.0, NO_TURNOVER, events) && Conserved(a.equity, b.equity, events)
    requires Freezes(c, d, a, b, row)
    ensures DayStep(c, config, costRate, d, a, b, row)
  {
    hide Freezes, Reconciled, Conserved, Markable, Ends, Settled;
    assert b.ledger[|a.ledger|..] == events;
  }

  lemma NothingReconciled(a: Account, events: seq<Event>)
    requires NoTurnover(events)
    ensures Reconciled(0.0, NO_TURNOVER, events)
    ensures Conserved(a.equity, a.equity + Sum(events, GrossPnl), events)
  {
  }

  lemma FreezesWith(c: Contracts, d: Day, a: Account, events: seq<Event>, symbol: Symbol)
    requires a.equity != 0.0 && symbol in a.lots && symbol !in d.bars && NoTurnover(events)
    requires PnlRows(c, Gap, a.lots, OpensOf(d.bars, a.lots.Keys),
                     Moves(c, a.previousClose, OpensOf(d.bars, a.lots.Keys)), events)
    requires forall i | 0 <= i < |events| :: events[i].symbol in d.bars
    ensures var b := Stuck(a, a.equity + Sum(events, GrossPnl), events, MissingPrice(symbol));
            Freezes(c, d, a, b, StuckRow(a, b, MissingPrice(symbol)))
  {
    hide Sum, PnlRows, OpensOf, Moves, BucketTotal, NoTurnover;
  }

  lemma FlatIsSettled(c: Contracts, config: Config, dayStart: real, s: Session, reason: Reason)
    requires s.lots == map[]
    ensures Settled(c, config, dayStart, s.lots, s.closes, s.equity, s.highWatermark, reason)
  {
  }

  lemma ClosedParts(a: Account, s: Session, reason: Reason, reject: Reason)
    ensures Closed(a, s, reason, reject).equity == s.equity
    ensures Closed(a, s, reason, reject).halted == IsHard(reason)
  {
  }

  lemma OpenedParts(a: Account, d: Day, marked: real, events: seq<Event>)
    ensures var s := Opened(a, d, marked, events);
            && s.lots == a.lots && s.equity == marked && s.opens == OpensOf(d.bars, a.lots.Keys) && QuotedFrom(s, d)
  {
  }

  lemma ClearMeansSolvent(config: Config, equity: real, dayStart: real, highWatermark: real, margin: real)
    ensures var reason := AccountRiskReason(config, equity, dayStart, highWatermark, margin);
            !reason.MissingPrice? && (reason == Clear ==> equity > 0.0)
  {
  }

  lemma ConfigParts(config: Config)
    requires config.Valid()
    ensures config.maxGross > 0.0 && config.marginRate > 0.0 && config.marginBuffer > 0.0 && config.maxVolume > 0
  {
  }

  /** A session that opened clear: rebalance, ride to the close, face the gates. */
  method TradeSession(c: Contracts, config: Config, costRate: real, start: real, s: Session, d: Day)
    returns (t: Session, reject: Reason, reason: Reason, guarded: bool)
    requires c.Valid() && config.Valid() && costRate >= 0.0 && ValidDay(c, d)
    requires Sound(c, s) && Balanced(start, s) && QuotedFrom(s, d) && s.equity > 0.0
    ensures Sound(c, t) && Balanced(start, t) && QuotedFrom(t, d)
    ensures !reason.MissingPrice?
    ensures Settled(c, config, start, t.lots, t.closes, t.equity, t.highWatermark, reason)
    ensures c.Holdable(s.lots)
    ensures Trades(c, config, costRate, start, Quoted(s, d), DayTarget(c, config, s.equity, s.lots, d), t, reason,
                   reject, guarded)
  {
    hide *;
    ConfigParts(config);
    QuotedIsReady(c, config, s, d);
    QuotedParts(c, start, s, d);
    SoundCloses(c, s);
    var stages := TargetLotStages(c, config, s.equity, ScaledWeights(d), Trading(d), ProductOpens(d));
    var target := KeepUnavailable(c, stages.lots, s.lots, Missing(d));
    TargetIsDayTarget(c, config, s, d);
    var r, m;
    r, reject := RebalanceBook(c, config, costRate, start, Quoted(s, d), target);
    SoundCloses(c, r);
    var pnl, rows := MarkIntraday(c, r.lots, r.opens, r.closes);
    IntradayParts(c, start, r, pnl, rows);
    m := MarkedToClose(r, pnl, rows);
    t, reason, guarded := CloseGates(c, config, costRate, start, m);
    TradesThrough(c, config, costRate, start, Quoted(s, d), target, r, m, t, reason, reject, guarded);
    SameQuotes(Quoted(s, d), t, d);
  }

  lemma TradesThrough(c: Contracts, config: Config, costRate: real, dayStart: real, s: Session, target: Lots,
                      r: Session, m: Session, t: Session, reason: Reason, reject: Reason, guarded: bool)
    requires Rebalances(c, config, costRate, s, target, r, reject) && Rides(c, r, m)
    requires Closes(c, config, costRate, dayStart, m, t, reason, guarded)
    ensures Trades(c, config, costRate, dayStart, s, target, t, reason, reject, guarded)
  {
    hide Rebalances, Rides, Closes;
  }

  lemma TargetIsDayTarget(c: Contracts, config: Config, s: Session, d: Day)
    requires c.Valid() && c.Holdable(s.lots)
    ensures DayTarget(c, config, s.equity, s.lots, d)
         == TargetOf(c, Staged(c, config, s.equity, ScaledWeights(d), Trading(d), ProductOpens(d)), s.lots, Missing(d))
  {
  }

  lemma QuotedParts(c: Contracts, start: real, s: Session, d: Day)
    requires Balanced(start, s)
    ensures Balanced(start, Quoted(s, d)) && Quoted(s, d).lots == s.lots
  {
  }

  lemma IntradayParts(c: Contracts, start: real, s: Session, pnl: real, rows: seq<Event>)
    requires Balanced(start, s) && Sound(c, s)
    requires Marked(c, AuditLedger.Intraday, s.lots, s.closes, Moves(c, s.opens, s.closes), rows)
    requires pnl == Drift(s.lots, Moves(c, s.opens, s.closes))
    ensures var t := MarkedToClose(s, pnl, rows);
            Balanced(start, t) && Sound(c, t) && t.opens == s.opens && t.closes == s.closes && Rides(c, s, t)
  {
    hide Drift, NoTurnover, PnlRows, Moves;
    MarkedIsBalanced(c, start, s, pnl, rows);
    assert (s.events + rows)[|s.events|..] == rows;
  }

  lemma SameQuotes(s: Session, t: Session, d: Day)
    requires QuotedFrom(s, d) && t.opens == s.opens && t.closes == s.closes
    ensures QuotedFrom(t, d)
  {
  }

  /** The account and the row at the end of a day that was not ended by a missing price. */
  method CloseDay(c: Contracts, config: Config, ghost costRate: real, a: Account, d: Day, ghost gap: seq<Event>,
                  s: Session, reason: Reason, reject: Reason, guarded: bool)
    returns (r: DayResult)
    requires !a.halted && a.equity != 0.0 && (forall x | x in a.lots :: x in d.bars)
    requires Sound(c, s) && Balanced(a.equity, s) && QuotedFrom(s, d)
    requires !reason.MissingPrice? && c.Valid() && Markable(c, a)
    requires Settled(c, config, a.equity, s.lots, s.closes, s.equity, s.highWatermark, reason)
    requires DayRuns(c, config, costRate, d, a, gap, s, reason, reject, guarded)
    ensures r.Completed? && DayStep(c, config, costRate, d, a, r.account, r.row)
  {
    hide *;
    var margin := MarginOf(c, config, s.lots, s.closes);
    var gross := Measure(s.lots, c.Notionals(s.closes));
    ClosedParts(a, s, reason, reject);
    var b := Closed(a, s, reason, reject);
    var row := Row(b.equity, b.equity / a.equity - 1.0, s.turnover, s.buckets, gross, margin, reason, reject,
                   reason == DailyLoss, guarded, b.halted);
    CloseStep(c, config, costRate, a, d, gap, s, reason, reject, guarded, row);
    r := Completed(b, row);
  }

  /** Closing prices of the held contracts value the book like all closing prices. */
  lemma ValuedAtCloses(c: Contracts, config: Config, s: Session, closes: Weights)
    requires Sound(c, s)
    requires closes == map x | x in s.lots && x in s.closes :: s.closes[x]
    ensures c.Margin(config, s.lots, closes) == c.Margin(config, s.lots, s.closes)
    ensures c.Gross(s.lots, closes) == c.Gross(s.lots, s.closes)
    ensures forall dayStart, reason ::
              Settled(c, config, dayStart, s.lots, s.closes, s.equity, s.highWatermark, reason) ==>
              Settled(c, config, dayStart, s.lots, closes, s.equity, s.highWatermark, reason)
    ensures closes.Keys == s.lots.Keys && Positive(closes)
  {
    hide *;
    SamePrices(c, config, s, closes);
    TotalDependsOnWeights(s.lots, c.MarginWeights(config, closes), c.MarginWeights(config, s.closes));
    TotalDependsOnWeights(s.lots, c.Notionals(closes), c.Notionals(s.closes));
    SameTotals(c, config, s.lots, closes, s.closes);
    forall dayStart, reason | Settled(c, config, dayStart, s.lots, s.closes, s.equity, s.highWatermark, reason)
      ensures Settled(c, config, dayStart, s.lots, closes, s.equity, s.highWatermark, reason)
    {
      SettledElsewhere(c, config, dayStart, s, closes, reason);
    }
  }

  lemma SamePrices(c: Contracts, config: Config, s: Session, closes: Weights)
    requires Sound(c, s)
    requires closes == map x | x in s.lots && x in s.closes :: s.closes[x]
    ensures closes.Keys == s.lots.Keys && Positive(closes)
    ensures forall x | x in s.lots :: Weight(c.Notionals(closes), x) == Weight(c.Notionals(s.closes), x)
    ensures forall x | x in s.lots ::
              Weight(c.MarginWeights(config, closes), x) == Weight(c.MarginWeights(config, s.closes), x)
  {
    assert forall x | x in s.lots :: x in closes && x in s.closes && closes[x] == s.closes[x];
    assert closes.Keys == s.lots.Keys && Positive(closes);
    hide *;
    forall x | x in s.lots
      ensures Weight(c.Notionals(closes), x) == Weight(c.Notionals(s.closes), x)
      ensures Weight(c.MarginWeights(config, closes), x) == Weight(c.MarginWeights(config, s.closes), x)
    {
      SamePriceAt(c, config, closes, s.closes, x);
    }
  }

  lemma SamePriceAt(c: Contracts, config: Config, prices: Weights, others: Weights, x: Symbol)
    requires x in prices && x in others && prices[x] == others[x]
    ensures Weight(c.Notionals(prices), x) == Weight(c.Notionals(others), x)
    ensures Weight(c.MarginWeights(config, prices), x) == Weight(c.MarginWeights(config, others), x)
  {
  }

  lemma SameTotals(c: Contracts, config: Config, lots: Lots, prices: Weights, others: Weights)
    requires Total(lots, c.MarginWeights(config, prices)) == Total(lots, c.MarginWeights(config, others))
    requires Total(lots, c.Notionals(prices)) == Total(lots, c.Notionals(others))
    ensures c.Margin(config, lots, prices) == c.Margin(config, lots, others)
    ensures c.Gross(lots, prices) == c.Gross(lots, others)
  {
    hide Total;
  }

  lemma SettledElsewhere(c: Contracts, config: Config, dayStart: real, s: Session, closes: Weights, reason: Reason)
    requires c.Margin(config, s.lots, closes) == c.Margin(config, s.lots, s.closes)
    requires c.Gross(s.lots, closes) == c.Gross(s.lots, s.closes)
    requires Settled(c, config, dayStart, s.lots, s.closes, s.equity, s.highWatermark, reason)
    ensures Settled(c, config, dayStart, s.lots, closes, s.equity, s.highWatermark, reason)
  {
    hide HardGates, DailyGate, Total;
  }

  lemma SettledIsSolvent(c: Contracts, config: Config, dayStart: real, s: Session, reason: Reason)
    requires Settled(c, config, dayStart, s.lots, s.closes, s.equity, s.highWatermark, reason)
    ensures s.lots != map[] ==> s.equity > 0.0
  {
  }

  lemma CloseStep(c: Contracts, config: Config, costRate: real, a: Account, d: Day, gap: seq<Event>, s: Session,
                  reason: Reason, reject: Reason, guarded: bool, row: Row)
    requires !a.halted && a.equity != 0.0 && (forall x | x in a.lots :: x in d.bars)
    requires Sound(c, s) && Balanced(a.equity, s) && QuotedFrom(s, d)
    requires !reason.MissingPrice? && c.Valid() && Markable(c, a)
    requires Settled(c, config, a.equity, s.lots, s.closes, s.equity, s.highWatermark, reason)
    requires DayRuns(c, config, costRate, d, a, gap, s, reason, reject, guarded)
    requires row.equity == s.equity && row.dailyReturn == s.equity / a.equity - 1.0
    requires row.turnover == s.turnover && row.buckets == s.buckets
    requires row.gross == Total(s.lots, c.Notionals(s.closes)) && row.margin == c.Margin(config, s.lots, s.closes)
    requires row.reason == reason && row.reject == reject && row.guarded == guarded
    requires row.circuit == (reason == DailyLoss) && row.halted == IsHard(reason)
    ensures DayStep(c, config, costRate, d, a, Closed(a, s, reason, reject), row)
  {
    hide Total, Sum, BucketTotal, DayRuns, Settled, Sound, Positive;
    var b := Closed(a, s, reason, reject);
    SoundCloses(c, s);
    ValuedAtCloses(c, config, s, b.previousClose);
    assert b.ledger[|a.ledger|..] == s.events;
    SettledIsSolvent(c, config, a.equity, s, reason);
    assert Markable(c, b);
  }

  // ---- Runs ----

  datatype Outcome = Finished(account: Account, rows: seq<Row>) | ZeroEquity(completed: nat)

  function Initial(config: Config): Account {
    Account(config.initialCapital, config.initialCapital, map[], map[], false, Clear, [])
  }

  ghost predicate ValidDays(c: Contracts, days: seq<Day>) {
    forall i | 0 <= i < |days| :: ValidDay(c, days[i])
  }

  /** The accounts before the first day and after each completed one. */
  ghost predicate IsRun(c: Contracts, config: Config, costRate: real, days: seq<Day>, accounts: seq<Account>,
                        rows: seq<Row>)
    requires c.Valid()
  {
    && |rows| <= |days| && |accounts| == |rows| + 1 && accounts[0] == Initial(config)
    && (forall i | 0 <= i < |accounts| :: Markable(c, accounts[i]))
    && (forall i | 0 <= i < |rows| :: DayStep(c, config, costRate, days[i], accounts[i], accounts[i + 1], rows[i]))
  }

  /** The outcome of a run over all days, or over the days before one that starts at zero. */
  ghost predicate Reports(c: Contracts, config: Config, costRate: real, days: seq<Day>, accounts: seq<Account>,
                          rows: seq<Row>,
                          outcome: Outcome)
    requires c.Valid()
  {
    && IsRun(c, config, costRate, days, accounts, rows)
    && match outcome {
         case Finished(account, output) =>
           |rows| == |days| && output == rows && account == accounts[|rows|]
         case ZeroEquity(completed) =>
           var last := accounts[|rows|];
           |rows| == completed < |days| && last.equity == 0.0 && last.lots == map[] && !last.halted
       }
  }

  /** The run stops early exactly when a day would divide by an equity of zero, and then only
      from a flat account. */
  method Simulate(c: Contracts, config: Config, costBps: real, days: seq<Day>)
    returns (r: Checked<Outcome>, ghost accounts: seq<Account>, ghost rows: seq<Row>)
    requires c.Valid() && config.Valid() && ValidDays(c, days)
    ensures r.ValueError? <==> costBps < 0.0
    ensures r.Value? ==> Reports(c, config, costBps / 10000.0, days, accounts, rows, r.value)
  {
    hide *;
    accounts, rows := [], [];
    if costBps < 0.0 {
      return ValueError, accounts, rows;
    }
    var outcome;
    outcome, accounts, rows := RunDays(c, config, costBps / 10000.0, days);
    r := Value(outcome);
  }

  /** The loop over the days. */
  method RunDays(c: Contracts, config: Config, costRate: real, days: seq<Day>)
    returns (outcome: Outcome, ghost accounts: seq<Account>, ghost rows: seq<Row>)
    requires c.Valid() && config.Valid() && ValidDays(c, days) && costRate >= 0.0
    ensures Reports(c, config, costRate, days, accounts, rows, outcome)
  {
    hide *;
    rows := [];
    var account, output := Initial(config), [];
    RunStarts(c, config, costRate, days);
    accounts := [account];
    for i := 0 to |days|
      invariant |output| == i && rows == output
      invariant |accounts| == i + 1 && accounts[i] == account
      invariant IsRun(c, config, costRate, days, accounts, rows)
    {
      RunParts(c, config, costRate, days, accounts, rows);
      var next := TradeDay(c, config, costRate, account, days[i]);
      if next.DividedByZero? {
        ZeroIsFlat(c, account);
        StopsAtZero(c, config, costRate, days, accounts, rows);
        return ZeroEquity(i), accounts, rows;
      }
      RunGrows(c, config, costRate, days, accounts, rows, next.account, next.row);
      account, output := next.account, output + [next.row];
      accounts, rows := accounts + [account], output;
    }
    Finishes(c, config, costRate, days, accounts, rows);
    outcome := Finished(account, output);
  }

  lemma StopsAtZero(c: Contracts, config: Config, costRate: real, days: seq<Day>, accounts: seq<Account>,
                    rows: seq<Row>)
    requires c.Valid() && IsRun(c, config, costRate, days, accounts, rows) && |rows| < |days|
    requires accounts[|rows|].equity == 0.0 && accounts[|rows|].lots == map[] && !accounts[|rows|].halted
    ensures Reports(c, config, costRate, days, accounts, rows, ZeroEquity(|rows|))
  {
    hide IsRun;
  }

  lemma Finishes(c: Contracts, config: Config, costRate: real, days: seq<Day>, accounts: seq<Account>, rows: seq<Row>)
    requires c.Valid() && IsRun(c, config, costRate, days, accounts, rows) && |rows| == |days|
    ensures Reports(c, config, costRate, days, accounts, rows, Finished(accounts[|rows|], rows))
  {
    hide IsRun;
  }

  lemma RunStarts(c: Contracts, config: Config, costRate: real, days: seq<Day>)
    requires c.Valid()
    ensures IsRun(c, config, costRate, days, [Initial(config)], [])
  {
  }

  lemma RunParts(c: Contracts, config: Config, costRate: real, days: seq<Day>, accounts: seq<Account>, rows: seq<Row>)
    requires c.Valid() && ValidDays(c, days) && IsRun(c, config, costRate, days, accounts, rows)
    ensures |accounts| == |rows| + 1 && Markable(c, accounts[|rows|])
    ensures |rows| < |days| ==> ValidDay(c, days[|rows|])
  {
    hide DayStep, Markable, ValidDay;
  }

  lemma RunGrows(c: Contracts, config: Config, costRate: real, days: seq<Day>, accounts: seq<Account>,
                 rows: seq<Row>, b: Account, row: Row)
    requires c.Valid() && IsRun(c, config, costRate, days, accounts, rows) && |rows| < |days|
    requires DayStep(c, config, costRate, days[|rows|], accounts[|rows|], b, row)
    ensures IsRun(c, config, costRate, days, accounts + [b], rows + [row])
  {
    hide DayStep, Markable;
    StepIsMarkable(c, config, costRate, days[|rows|], accounts[|rows|], b, row);
  }

  lemma ZeroIsFlat(c: Contracts, a: Account)
    requires Markable(c, a) && !a.halted && a.equity == 0.0
    ensures a.lots == map[]
  {
  }

  lemma StepIsMarkable(c: Contracts, config: Config, costRate: real, d: Day, a: Account, b: Account, row: Row)
    requires c.Valid() && Markable(c, a) && DayStep(c, config, costRate, d, a, b, row)
    ensures Markable(c, b)
  {
    hide Ends, Freezes, Settled, Reconciled, Conserved;
  }
}
