/** A run that reaches an equity of exactly zero while the account still runs: its cost halves
    the account, the daily limit sells the book, and the sale costs the other half. */
module SimulatorWitness {
  import opened Lots
  import opened TargetLots
  import opened Market
  import opened AuditLedger
  import opened Rebalance
  import opened DayTargets
  import opened DaySession
  import opened DayTrades
  import opened Simulator
  import opened SimulatorRuns
  import opened SimulatorDeterminism

  const CONTRACTS: Contracts := Contracts(map[0 := 0], map[0 := 1.0])
  const CONFIG: Config := Config(100.0, 0.1, 1.0, 0.5, 0.25, 200, 0.05, 0.9, 10.0)
  const RATE: real := 0.25
  const LONG: Lots := map[0 := 200]

  /** One contract opens and closes at one, and twice the equity is wanted in it. */
  const DAY: Day := Day(map[0 := Bar(1.0, 1.0)], map[0 := 2.0], 1.0, map[0 := 0])

  lemma OnePosition(v: int, w: Weights)
    ensures Total(map[0 := v], w) == (Abs(v) as real) * Weight(w, 0)
  {
    var lots: Lots := map[0 := v];
    TotalWithout(lots, w, 0);
    assert lots - {0} == map[];
  }

  /** Two hundred lots at one are worth 200, margined 20, and cost 50 to trade. */
  lemma Figures(v: int, prices: Weights)
    requires Abs(v) == 200 && prices == map[0 := 1.0]
    ensures Total(map[0 := v], CONTRACTS.Notionals(prices)) == 200.0
    ensures CONTRACTS.Margin(CONFIG, map[0 := v], prices) == 20.0
    ensures Paid(200.0, RATE) == 50.0
  {
    OnePosition(v, CONTRACTS.Notionals(prices));
    OnePosition(v, CONTRACTS.MarginWeights(CONFIG, prices));
  }

  lemma NoFigures(prices: Weights)
    ensures Total(map[], CONTRACTS.Notionals(prices)) == 0.0 && CONTRACTS.Margin(CONFIG, map[], prices) == 0.0
    ensures Paid(0.0, RATE) == 0.0
  {
  }

  lemma Wants(equity: real)
    requires equity == 100.0
    ensures CONTRACTS.Valid() && CONTRACTS.Holdable(map[])
    ensures DayTarget(CONTRACTS, CONFIG, equity, map[], DAY) == LONG
  {
    TradesToday();
    var weights, selected, opens := ScaledWeights(DAY), Trading(DAY), ProductOpens(DAY);
    assert Carried(equity, weights[0]) == 200.0 && LotValue(CONTRACTS, opens, 0) == 1.0;
    assert WholeLots(200.0, 1.0) == 200;
    assert StagedVolume(CONTRACTS, CONFIG, equity, weights, selected, opens, 0) == 200;
    assert Staged(CONTRACTS, CONFIG, equity, weights, selected, opens) == LONG;
  }

  lemma TradesToday()
    ensures Trading(DAY) == map[0 := 0] && ProductOpens(DAY) == map[0 := 1.0] && Chosen(DAY) == {0}
    ensures ScaledWeights(DAY) == map[0 := 2.0] && Missing(DAY) == {}
  {
    assert Trading(DAY) == map[0 := 0];
    assert DAY.selected[0] in Chosen(DAY);
    assert ScaledWeights(DAY) == map[0 := 2.0];
  }

  lemma FlatReason(c: Contracts, config: Config, dayStart: real, s: Session)
    requires s.lots == map[]
    ensures ReasonAtOpen(c, config, dayStart, s) == AccountRiskReason(config, s.equity, dayStart, s.highWatermark, 0.0)
  {
    hide AccountRiskReason;
  }

  lemma Opens(gap: seq<Event>)
    ensures var s := Opened(Initial(CONFIG), DAY, 100.0, gap);
            && s.equity == s.highWatermark == 100.0 && s.lots == map[] && s.turnover == 0.0
            && ReasonAtOpen(CONTRACTS, CONFIG, 100.0, s) == Clear
            && Quoted(s, DAY) == s.(opens := map[0 := 1.0], closes := map[0 := 1.0])
    ensures OpensOf(DAY.bars, {}) == map[] && forall moves :: Drift(map[], moves) == 0.0
  {
    TradesToday();
    FlatReason(CONTRACTS, CONFIG, 100.0, Opened(Initial(CONFIG), DAY, 100.0, gap));
    hide Total, ReasonAtOpen;
    var s := Opened(Initial(CONFIG), DAY, 100.0, gap);
    assert s.opens == map[] && s.closes == map[];
    assert OpensOf(DAY.bars, {0}) == map[0 := 1.0];
    assert ClosesOf(DAY.bars, {0}) == map[0 := 1.0];
  }

  /** The gate admits the batch, and opening it costs half the equity. */
  lemma OpensLong(s: Session, t: Session, reject: Reason)
    requires s.equity == 100.0 && s.lots == map[] && s.opens == map[0 := 1.0]
    requires Rebalances(CONTRACTS, CONFIG, RATE, s, LONG, t, reject)
    ensures reject == Clear && t.lots == LONG && t.equity == 50.0 && t.turnover == s.turnover + 200.0
    ensures t.highWatermark == s.highWatermark && t.opens == s.opens && t.closes == s.closes
  {
    hide Total, Audited, Spread, Paid;
    var r, added := RebalancedThrough(CONTRACTS, CONFIG, RATE, s, LONG, t, reject);
    NothingReduced(LONG);
    NoFigures(s.opens);
    Figures(200, s.opens);
    assert r.lots == map[] && r.equity == 100.0;
    assert Openings(r.lots, LONG) == LONG;
    assert Admissible(CONTRACTS, CONFIG, 100.0, 0.0, map[], LONG, s.opens);
    JudgedAlike(CONTRACTS, CONFIG, 100.0, 0.0, map[], LONG, s.opens, reject, Clear);
    assert t.lots == LONG;
  }

  lemma NothingReduced(target: Lots)
    ensures Reductions(map[], target) == map[]
  {
  }

  lemma RidesFlat(s: Session, t: Session)
    requires s.lots == LONG && s.opens == map[0 := 1.0] && s.closes == map[0 := 1.0]
    requires s.equity == 50.0 && s.highWatermark == 100.0 && Rides(CONTRACTS, s, t)
    ensures t.equity == 50.0 && t.highWatermark == 100.0 && t.lots == LONG && t.closes == s.closes
    ensures t.turnover == s.turnover
  {
    hide Marked;
    var moves := Moves(CONTRACTS, s.opens, s.closes);
    DriftWithout(LONG, moves, 0);
    assert LONG - {0} == map[];
    assert Weight(moves, 0) == 0.0;
  }

  /** Half the equity is gone: the daily limit sells the book for the other half. */
  lemma SellsEverything(s: Session, t: Session, reason: Reason, guarded: bool)
    requires s.lots == LONG && s.closes == map[0 := 1.0] && s.equity == 50.0 && s.highWatermark == 100.0
    requires Closes(CONTRACTS, CONFIG, RATE, 100.0, s, t, reason, guarded)
    ensures reason == DailyLoss && t.equity == 0.0 && t.lots == map[] && t.turnover == s.turnover + 200.0
  {
    hide SoldAs, Guards, Total, Paid;
    Figures(200, s.closes);
    assert ReasonAtClose(CONTRACTS, CONFIG, 100.0, s) == DailyLoss;
    LiquidatesAll(CONTRACTS, RATE, s, s.closes, DailyLoss, t);
  }

  /** However the first day runs, it ends flat at zero, and the account keeps running. */
  lemma {:induction false} FirstDayEndsAtZero(b: Account, row: Row)
    requires CONTRACTS.Valid() && CONTRACTS.Holdable(map[])
    requires DayStep(CONTRACTS, CONFIG, RATE, DAY, Initial(CONFIG), b, row)
    ensures b.equity == 0.0 && b.lots == map[] && !b.halted
    ensures row.reason == DailyLoss && row.turnover == 400.0
  {
    hide *;
    var a := Initial(CONFIG);
    FlatStart();
    var gap, t := EndedBy(CONTRACTS, CONFIG, RATE, DAY, a, b, row);
    Opens(gap);
    Wants(100.0);
    var r, m := TradedThrough(a, gap, t, row.reason, row.reject, row.guarded);
    OpensLong(Quoted(Opened(a, DAY, 100.0, gap), DAY), r, row.reject);
    RidesFlat(r, m);
    SellsEverything(m, t, row.reason, row.guarded);
    EndsRunning(a, gap, t, b, row);
  }

  lemma FlatStart()
    ensures Initial(CONFIG).lots == map[] && !Initial(CONFIG).halted && Initial(CONFIG).equity == 100.0
    ensures Initial(CONFIG).ledger == []
  {
  }

  lemma TradedThrough(a: Account, gap: seq<Event>, t: Session, reason: Reason, reject: Reason, guarded: bool)
    returns (r: Session, m: Session)
    requires a == Initial(CONFIG) && CONTRACTS.Valid() && CONTRACTS.Holdable(map[])
    requires DayRuns(CONTRACTS, CONFIG, RATE, DAY, a, gap, t, reason, reject, guarded)
    ensures var s := Opened(a, DAY, 100.0, gap);
            && Rebalances(CONTRACTS, CONFIG, RATE, Quoted(s, DAY), DayTarget(CONTRACTS, CONFIG, 100.0, map[], DAY), r,
                          reject)
            && Rides(CONTRACTS, r, m)
            && Closes(CONTRACTS, CONFIG, RATE, 100.0, m, t, reason, guarded)
  {
    Opens(gap);
    hide Rebalances, Rides, Closes, DayTarget, Quoted, Marked, Drift, Moves, ReasonAtOpen, OpensOf, ClosesOf,
        Liquidates;
    var s := Opened(a, DAY, 100.0, gap);
    assert a.equity + Drift(a.lots, Moves(CONTRACTS, a.previousClose, OpensOf(DAY.bars, a.lots.Keys))) == 100.0;
    r, m :| && Rebalances(CONTRACTS, CONFIG, RATE, Quoted(s, DAY), DayTarget(CONTRACTS, CONFIG, 100.0, map[], DAY), r,
                          reject)
            && Rides(CONTRACTS, r, m)
            && Closes(CONTRACTS, CONFIG, RATE, 100.0, m, t, reason, guarded);
  }

  lemma EndsRunning(a: Account, gap: seq<Event>, t: Session, b: Account, row: Row)
    requires b == Closed(a, t, row.reason, row.reject) && row.reason == DailyLoss && a.equity != 0.0
    requires row == DayRow(CONTRACTS, CONFIG, a, t, b, row.reason, row.reject, row.guarded)
    ensures b.equity == t.equity && b.lots == t.lots && !b.halted && row.turnover == t.turnover
  {
    hide Total;
  }

  /** Two such days: the second one divides by zero. */
  method ZeroEquityIsReached() returns (r: Checked<Outcome>)
    ensures r == Value(ZeroEquity(1))
  {
    ghost var accounts, rows;
    r, accounts, rows := Simulate(CONTRACTS, CONFIG, 2500.0, [DAY, DAY]);
    hide DayStep, Markable;
    Stops(accounts, rows, r.value);
  }

  lemma Stops(accounts: seq<Account>, rows: seq<Row>, outcome: Outcome)
    requires CONTRACTS.Valid() && Reports(CONTRACTS, CONFIG, RATE, [DAY, DAY], accounts, rows, outcome)
    ensures outcome == ZeroEquity(1)
  {
    hide Markable, Ends, Freezes, Settled, Reconciled, Conserved, Total;
    var days := [DAY, DAY];
    FlatStart();
    if |rows| > 0 {
      RunDay(CONTRACTS, CONFIG, RATE, days, accounts, rows, 0);
      FirstDayEndsAtZero(accounts[1], rows[0]);
      if |rows| > 1 {
        RunDay(CONTRACTS, CONFIG, RATE, days, accounts, rows, 1);
        assert false;
      }
    }
  }
}
