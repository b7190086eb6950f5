/** What every run of the account simulator keeps, from the first day to the last. */
module SimulatorRuns {
  import opened Lots
  import opened GrossReduction
  import opened TargetLots
  import opened Market
  import opened AuditLedger
  import opened Rebalance
  import opened DaySession
  import opened DayTrades
  import opened Simulator

  // ---- What a day's events say ----

  /** An event is a trade at an opening or closing price of its day, with its turnover and cost,
      or the profit of a held position over the night or over the session. */
  ghost predicate Explained(c: Contracts, costRate: real, d: Day, previousClose: Weights, e: Event) {
    && c.Knows(e.symbol) && e.symbol in d.bars && e.product == c.products[e.symbol]
    && (var exposure := if e.after != 0 then e.after else e.before;
        exposure != 0 ==> e.side == if exposure > 0 then Long else Short)
    && match e.kind {
         case Trade =>
           && (e.price == d.bars[e.symbol].open || e.price == d.bars[e.symbol].close)
           && e.delta != 0 && e.after == e.before + e.delta
           && e.turnover == (Abs(e.delta) as real) * (e.price * c.multipliers[e.product])
           && e.cost == e.turnover * costRate && e.pnl == 0.0
         case PnL =>
           && e.before == e.after != 0 && e.delta == 0 && e.turnover == 0.0 && e.cost == 0.0
           && match e.action {
                case Gap =>
                  && e.symbol in previousClose && e.price == d.bars[e.symbol].open
                  && e.pnl == (e.before as real) * ((e.price - previousClose[e.symbol]) * c.multipliers[e.product])
                case Intraday =>
                  && e.price == d.bars[e.symbol].close
                  && e.pnl == (e.before as real) * ((e.price - d.bars[e.symbol].open) * c.multipliers[e.product])
                case _ => false
              }
       }
  }

  ghost predicate AllExplained(c: Contracts, costRate: real, d: Day, previousClose: Weights, events: seq<Event>) {
    forall i | 0 <= i < |events| :: Explained(c, costRate, d, previousClose, events[i])
  }

  /** Cost is the rate on the turnover, and positions moved by the traded lots. */
  ghost predicate Booking(costRate: real, from: Lots, to: Lots, events: seq<Event>) {
    && Sum(events, TransactionCost) == Sum(events, Turnover) * costRate
    && forall x :: Sum(events, LotsOf(x)) == (At(to, x) - At(from, x)) as real
  }

  /** What holds at every point of a day. */
  ghost predicate Kept(c: Contracts, costRate: real, d: Day, a: Account, s: Session) {
    && QuotedFrom(s, d)
    && Booking(costRate, a.lots, s.lots, s.events)
    && AllExplained(c, costRate, d, a.previousClose, s.events)
    && s.highWatermark >= s.equity && s.highWatermark >= a.highWatermark
  }

  lemma BookingExtends(costRate: real, from: Lots, mid: Lots, to: Lots, first: seq<Event>, second: seq<Event>)
    requires Booking(costRate, from, mid, first) && Booking(costRate, mid, to, second)
    ensures Booking(costRate, from, to, first + second)
  {
    hide Sum, Paid;
    SumConcat(first, second, TransactionCost);
    SumConcat(first, second, Turnover);
    SpreadCost(Sum(first, Turnover), Sum(second, Turnover), costRate);
    forall x
      ensures Sum(first + second, LotsOf(x)) == (At(to, x) - At(from, x)) as real
    {
      SumConcat(first, second, LotsOf(x));
    }
  }

  lemma PnlIsBooked(costRate: real, lots: Lots, events: seq<Event>)
    requires NoTurnover(events)
    ensures Booking(costRate, lots, lots, events)
  {
    hide Sum;
    NothingPaid(costRate);
  }

  lemma BatchIsBooked(c: Contracts, costRate: real, lots: Lots, deltas: Lots, prices: Weights, naming: Naming,
                      rows: seq<Event>)
    requires Recorded(c, deltas, prices, costRate, naming, rows)
    ensures Booking(costRate, lots, AfterDeltas(lots, deltas), rows)
  {
    hide Sum, Total, BatchTotal;
    forall x
      ensures Sum(rows, LotsOf(x)) == (At(AfterDeltas(lots, deltas), x) - At(lots, x)) as real
    {
      AfterAt(lots, deltas, x);
    }
  }

  lemma TradesAreExplained(c: Contracts, costRate: real, d: Day, previousClose: Weights, starting: Lots, deltas: Lots,
                           prices: Weights, naming: Naming, rows: seq<Event>)
    requires Rows(c, starting, deltas, prices, costRate, naming, rows)
    requires forall x | x in prices :: x in d.bars && (prices[x] == d.bars[x].open || prices[x] == d.bars[x].close)
    ensures AllExplained(c, costRate, d, previousClose, rows)
  {
    hide Named, TradeRow, Explained;
    forall i | 0 <= i < |rows|
      ensures Explained(c, costRate, d, previousClose, rows[i])
    {
      TradeIsExplained(c, costRate, d, previousClose, starting, deltas, prices, naming, rows[i]);
    }
  }

  lemma TradeIsExplained(c: Contracts, costRate: real, d: Day, previousClose: Weights, starting: Lots, deltas: Lots,
                         prices: Weights, naming: Naming, e: Event)
    requires TradeRow(c, starting, deltas, prices, costRate, naming, e)
    requires forall x | x in prices :: x in d.bars && (prices[x] == d.bars[x].open || prices[x] == d.bars[x].close)
    ensures Explained(c, costRate, d, previousClose, e)
  {
    hide Named;
    assert Weight(c.Notionals(prices), e.symbol) == e.price * c.multipliers[e.product];
  }

  /** What a position gains between two prices. */
  lemma GainIs(volume: int, from: real, to: real, multiplier: real)
    ensures Gain(volume, LotMove(from, to, multiplier)) == (volume as real) * ((to - from) * multiplier)
  {
  }

  lemma GapIsExplained(c: Contracts, costRate: real, d: Day, lots: Lots, previousClose: Weights, rows: seq<Event>)
    requires NoZeros(lots) && lots.Keys <= previousClose.Keys
    requires PnlRows(c, Gap, lots, OpensOf(d.bars, lots.Keys), Moves(c, previousClose, OpensOf(d.bars, lots.Keys)),
                     rows)
    requires forall i | 0 <= i < |rows| :: rows[i].symbol in d.bars
    ensures AllExplained(c, costRate, d, previousClose, rows)
  {
    hide Gain, LotMove;
    forall i | 0 <= i < |rows|
      ensures Explained(c, costRate, d, previousClose, rows[i])
    {
      var e := rows[i];
      assert PnlRow(c, Gap, lots, OpensOf(d.bars, lots.Keys), Moves(c, previousClose, OpensOf(d.bars, lots.Keys)), e);
      GainIs(e.before, previousClose[e.symbol], e.price, c.multipliers[e.product]);
    }
  }

  lemma RideIsExplained(c: Contracts, costRate: real, d: Day, previousClose: Weights, s: Session, rows: seq<Event>)
    requires NoZeros(s.lots) && QuotedFrom(s, d) && s.lots.Keys <= s.opens.Keys && s.lots.Keys <= s.closes.Keys
    requires PnlRows(c, AuditLedger.Intraday, s.lots, s.closes, Moves(c, s.opens, s.closes), rows)
    ensures AllExplained(c, costRate, d, previousClose, rows)
  {
    hide Gain, LotMove;
    forall i | 0 <= i < |rows|
      ensures Explained(c, costRate, d, previousClose, rows[i])
    {
      var e := rows[i];
      assert PnlRow(c, AuditLedger.Intraday, s.lots, s.closes, Moves(c, s.opens, s.closes), e);
      GainIs(e.before, d.bars[e.symbol].open, e.price, c.multipliers[e.product]);
    }
  }

  lemma ExecutesKeeps(c: Contracts, costRate: real, d: Day, a: Account, s: Session, deltas: Lots, prices: Weights,
                      naming: Naming, t: Session)
    requires c.Valid() && ValidDay(c, d) && costRate >= 0.0 && Kept(c, costRate, d, a, s)
    requires Executes(c, costRate, s, deltas, prices, naming, t) && prices in {s.opens, s.closes}
    ensures Kept(c, costRate, d, a, t)
  {
    hide Total, Recorded, Rows, AfterDeltas, Explained, Booking;
    var rows := Since(s, t);
    assert t.events == s.events + rows;
    BatchIsBooked(c, costRate, s.lots, deltas, prices, naming, rows);
    BookingExtends(costRate, a.lots, s.lots, t.lots, s.events, rows);
    TradesAreExplained(c, costRate, d, a.previousClose, s.lots, deltas, prices, naming, rows);
    NotionalsArePositive(c, prices);
    TotalIsNonNegative(deltas, c.Notionals(prices));
    NonNegativeProduct(Total(deltas, c.Notionals(prices)), costRate);
  }

  lemma RebalanceKeeps(c: Contracts, config: Config, costRate: real, d: Day, a: Account, s: Session, target: Lots,
                       t: Session, reject: Reason)
    requires c.Valid() && ValidDay(c, d) && costRate >= 0.0 && Kept(c, costRate, d, a, s) && Ready(c, s, target)
    requires Rebalances(c, config, costRate, s, target, t, reject)
    ensures Kept(c, costRate, d, a, t) && Sound(c, t)
  {
    hide Kept, Executes, Ready, Sound, Spread, ValidDay, Admits, AfterReductions, AfterDeltas, Reductions, Openings;
    var r, added :| PhasesRun(c, config, costRate, s, target, r, added, t, reject)
                    && Spread(c, s, target, Merged(Reductions(s.lots, target), added), t.buckets);
    var naming := ByIntent(s.lots, target);
    ExecutesKeeps(c, costRate, d, a, s, Reductions(s.lots, target), s.opens, naming, r);
    ExecutedParts(c, costRate, s, Reductions(s.lots, target), s.opens, naming, r);
    ExecutesKeeps(c, costRate, d, a, r, added, s.opens, naming, t);
    ExecutedParts(c, costRate, r, added, s.opens, naming, t);
    Phases(c, s, target);
    SoundNoZeros(c, s.(lots := r.lots));
    AfterNothing(r.lots);
    SameBook(c, s.(lots := t.lots), t);
  }

  lemma SoundNoZeros(c: Contracts, s: Session)
    requires Sound(c, s)
    ensures NoZeros(s.lots)
  {
  }

  lemma RideKeeps(c: Contracts, costRate: real, d: Day, a: Account, s: Session, t: Session)
    requires Kept(c, costRate, d, a, s) && Sound(c, s) && Rides(c, s, t)
    ensures Kept(c, costRate, d, a, t)
  {
    hide Sum, Drift, PnlRows, Explained, Booking, Moves, NoTurnover;
    var rows := Since(s, t);
    PnlIsBooked(costRate, s.lots, rows);
    BookingExtends(costRate, a.lots, s.lots, t.lots, s.events, rows);
    RideIsExplained(c, costRate, d, a.previousClose, s, rows);
  }

  lemma SoldKeeps(c: Contracts, costRate: real, d: Day, a: Account, s: Session, prices: Weights, reason: Reason,
                  t: Session)
    requires c.Valid() && ValidDay(c, d) && costRate >= 0.0 && Kept(c, costRate, d, a, s)
    requires prices in {s.opens, s.closes}
    requires Liquidates(c, costRate, s, prices, reason, t)
    ensures Kept(c, costRate, d, a, t)
  {
    hide Kept, Executes, ValidDay, Closing;
    if s.lots != map[] {
      ExecutesKeeps(c, costRate, d, a, s, Closing(s.lots), prices, Override(RiskBucket(reason)), t);
    }
  }

  lemma GuardKeeps(c: Contracts, config: Config, costRate: real, d: Day, a: Account, s: Session, t: Session,
                   guarded: bool)
    requires c.Valid() && ValidDay(c, d) && costRate >= 0.0 && Kept(c, costRate, d, a, s)
    requires Guards(c, config, costRate, s, t, guarded)
    ensures Kept(c, costRate, d, a, t)
  {
    hide Kept, Executes, ValidDay, Reduces;
    var deltas :| GuardsWith(c, config, costRate, s, deltas, t, guarded);
    if guarded {
      ExecutesKeeps(c, costRate, d, a, s, deltas, s.closes, Override(GrossGuard), t);
    }
  }

  lemma CloseKeeps(c: Contracts, config: Config, costRate: real, d: Day, a: Account, dayStart: real, s: Session,
                   t: Session, reason: Reason, guarded: bool)
    requires c.Valid() && ValidDay(c, d) && costRate >= 0.0 && Kept(c, costRate, d, a, s)
    requires Closes(c, config, costRate, dayStart, s, t, reason, guarded)
    ensures Kept(c, costRate, d, a, t)
  {
    hide Kept, ValidDay, Guards, Liquidates, ReasonAtClose;
    if ReasonAtClose(c, config, dayStart, s) != Clear {
      SoldKeeps(c, costRate, d, a, s, s.closes, reason, t);
    } else {
      var g :| Guards(c, config, costRate, s, g, guarded)
          && LooksAgain(c, config, costRate, dayStart, g, t, reason, guarded);
      GuardKeeps(c, config, costRate, d, a, s, g, guarded);
      if reason != Clear {
        SoldKeeps(c, costRate, d, a, g, g.closes, reason, t);
      }
    }
  }

  lemma OpenKeeps(c: Contracts, costRate: real, d: Day, a: Account, gap: seq<Event>)
    requires Markable(c, a) && !a.halted && ValidDay(c, d) && forall x | x in a.lots :: x in d.bars
    requires var opens := OpensOf(d.bars, a.lots.Keys);
             Marked(c, Gap, a.lots, opens, Moves(c, a.previousClose, opens), gap)
    ensures var opens := OpensOf(d.bars, a.lots.Keys);
            var s := Opened(a, d, a.equity + Drift(a.lots, Moves(c, a.previousClose, opens)), gap);
            Kept(c, costRate, d, a, s) && Sound(c, s)
  {
    hide *;
    var opens := OpensOf(d.bars, a.lots.Keys);
    var marked := a.equity + Drift(a.lots, Moves(c, a.previousClose, opens));
    MarkedParts(c, Gap, a.lots, opens, Moves(c, a.previousClose, opens), gap);
    PnlIsBooked(costRate, a.lots, gap);
    MarkableBook(c, a);
    PnlRowsAreHeld(c, Gap, a.lots, opens, Moves(c, a.previousClose, opens), gap);
    GapIsExplained(c, costRate, d, a.lots, a.previousClose, gap);
    OpenedIsSound(c, a, d, marked, gap);
    OpenedParts(a, d, marked, gap);
    OpenedKept(c, costRate, d, a, marked, gap);
  }

  lemma MarkedParts(c: Contracts, action: Action, lots: Lots, prices: Weights, moves: Weights, events: seq<Event>)
    requires Marked(c, action, lots, prices, moves, events)
    ensures PnlRows(c, action, lots, prices, moves, events) && NoTurnover(events)
    ensures Sum(events, GrossPnl) == Drift(lots, moves)
  {
  }

  lemma PnlRowsAreHeld(c: Contracts, action: Action, lots: Lots, prices: Weights, moves: Weights, events: seq<Event>)
    requires PnlRows(c, action, lots, prices, moves, events)
    ensures forall i | 0 <= i < |events| :: events[i].symbol in lots
  {
    hide Gain;
  }

  lemma MarkableBook(c: Contracts, a: Account)
    requires Markable(c, a) && !a.halted
    ensures c.Holdable(a.lots) && NoZeros(a.lots) && a.lots.Keys <= a.previousClose.Keys
  {
  }

  lemma OpenedKept(c: Contracts, costRate: real, d: Day, a: Account, marked: real, gap: seq<Event>)
    requires Booking(costRate, a.lots, a.lots, gap) && AllExplained(c, costRate, d, a.previousClose, gap)
    requires QuotedFrom(Opened(a, d, marked, gap), d)
    ensures Kept(c, costRate, d, a, Opened(a, d, marked, gap))
  {
    hide Booking, AllExplained, OpensOf, QuotedFrom;
  }

  lemma QuotesKeep(c: Contracts, config: Config, costRate: real, d: Day, a: Account, s: Session)
    requires c.Valid() && ValidDay(c, d) && Kept(c, costRate, d, a, s) && Sound(c, s)
    ensures Kept(c, costRate, d, a, Quoted(s, d)) && Ready(c, Quoted(s, d), DayTarget(c, config, s.equity, s.lots, d))
  {
    hide Booking, AllExplained, Sound, ValidDay, DayTarget;
    QuotedIsReady(c, config, s, d);
  }

  /** Every point of a day keeps the books. */
  lemma DayKeeps(c: Contracts, config: Config, costRate: real, d: Day, a: Account, gap: seq<Event>, t: Session,
                 reason: Reason, reject: Reason, guarded: bool)
    requires c.Valid() && Markable(c, a) && !a.halted && ValidDay(c, d) && costRate >= 0.0
    requires forall x | x in a.lots :: x in d.bars
    requires DayRuns(c, config, costRate, d, a, gap, t, reason, reject, guarded)
    ensures Kept(c, costRate, d, a, t)
  {
    hide Kept, ValidDay, Sound, Ready, Rebalances, Rides, Closes, Liquidates, DayTarget, Quoted, ReasonAtOpen, Drift,
         Marked, Markable, Moves;
    OpenKeeps(c, costRate, d, a, gap);
    MarkableBook(c, a);
    var opens := OpensOf(d.bars, a.lots.Keys);
    var s := Opened(a, d, a.equity + Drift(a.lots, Moves(c, a.previousClose, opens)), gap);
    if ReasonAtOpen(c, config, a.equity, s) != Clear {
      SoldKeeps(c, costRate, d, a, s, s.opens, reason, t);
    } else {
      QuotesKeep(c, config, costRate, d, a, s);
      var target := DayTarget(c, config, s.equity, a.lots, d);
      var r, m :| && Rebalances(c, config, costRate, Quoted(s, d), target, r, reject)
                  && Rides(c, r, m)
                  && Closes(c, config, costRate, a.equity, m, t, reason, guarded);
      RebalanceKeeps(c, config, costRate, d, a, Quoted(s, d), target, r, reject);
      RideKeeps(c, costRate, d, a, r, m);
      CloseKeeps(c, config, costRate, d, a, a.equity, m, t, reason, guarded);
    }
  }

  /** What one day adds to the ledger, and where the watermark ends. */
  ghost predicate Adds(c: Contracts, costRate: real, d: Day, a: Account, b: Account) {
    && a.ledger <= b.ledger
    && Booking(costRate, a.lots, b.lots, b.ledger[|a.ledger|..])
    && AllExplained(c, costRate, d, a.previousClose, b.ledger[|a.ledger|..])
    && b.highWatermark >= a.highWatermark
    && (!b.halted ==> b.highWatermark >= b.equity)
  }

  lemma {:induction false} StepAdds(c: Contracts, config: Config, costRate: real, d: Day, a: Account, b: Account,
                                    row: Row)
    requires c.Valid() && Markable(c, a) && ValidDay(c, d) && costRate >= 0.0
    requires DayStep(c, config, costRate, d, a, b, row)
    ensures Adds(c, costRate, d, a, b)
  {
    hide Ends, Freezes, Settled, Reconciled, Conserved, Booking;
    if a.halted {
      assert b.ledger[|a.ledger|..] == [];
      NoEvents();
      PnlIsBooked(costRate, a.lots, []);
    } else if row.reason.MissingPrice? {
      FrozenAdds(c, costRate, d, a, b, row);
    } else {
      RunningAdds(c, config, costRate, d, a, b, row);
    }
  }

  lemma RunningAdds(c: Contracts, config: Config, costRate: real, d: Day, a: Account, b: Account, row: Row)
    requires c.Valid() && Markable(c, a) && ValidDay(c, d) && costRate >= 0.0
    requires !a.halted && !row.reason.MissingPrice? && DayStep(c, config, costRate, d, a, b, row)
    ensures Adds(c, costRate, d, a, b)
  {
    hide *;
    MarkableBook(c, a);
    EndsOf(c, config, costRate, d, a, b, row);
    var gap, t := EndedAt(c, config, costRate, d, a, b, row);
    DayKeeps(c, config, costRate, d, a, gap, t, row.reason, row.reject, row.guarded);
    KeptAdds(c, costRate, d, a, t, row.reason, row.reject);
  }

  lemma EndsOf(c: Contracts, config: Config, costRate: real, d: Day, a: Account, b: Account, row: Row)
    requires c.Valid() && c.Holdable(a.lots) && !a.halted && !row.reason.MissingPrice?
    requires DayStep(c, config, costRate, d, a, b, row)
    ensures Ends(c, config, costRate, d, a, b, row) && forall x | x in a.lots :: x in d.bars
  {
    hide Ends, Freezes, Settled, Reconciled, Conserved, Markable;
  }

  lemma EndedAt(c: Contracts, config: Config, costRate: real, d: Day, a: Account, b: Account, row: Row)
    returns (gap: seq<Event>, t: Session)
    requires c.Valid() && c.Holdable(a.lots) && Ends(c, config, costRate, d, a, b, row)
    ensures DayRuns(c, config, costRate, d, a, gap, t, row.reason, row.reject, row.guarded)
    ensures b == Closed(a, t, row.reason, row.reject)
    ensures row.turnover == t.turnover && row.buckets == t.buckets
  {
    hide DayRuns;
    gap, t :| && DayRuns(c, config, costRate, d, a, gap, t, row.reason, row.reject, row.guarded)
              && b == Closed(a, t, row.reason, row.reject)
              && row.turnover == t.turnover && row.buckets == t.buckets;
  }

  lemma KeptAdds(c: Contracts, costRate: real, d: Day, a: Account, t: Session, reason: Reason, reject: Reason)
    requires Kept(c, costRate, d, a, t)
    ensures Adds(c, costRate, d, a, Closed(a, t, reason, reject))
  {
    hide Booking, AllExplained;
    assert (a.ledger + t.events)[|a.ledger|..] == t.events;
  }

  lemma FrozenAdds(c: Contracts, costRate: real, d: Day, a: Account, b: Account, row: Row)
    requires Markable(c, a) && !a.halted && a.equity != 0.0
    requires row.reason.MissingPrice? && Freezes(c, d, a, b, row)
    ensures Adds(c, costRate, d, a, b)
  {
    hide PnlRows, Moves, Sum, Explained, Booking, NoTurnover, OpensOf;
    var gap: seq<Event> :|
      && PnlRows(c, Gap, a.lots, OpensOf(d.bars, a.lots.Keys), Moves(c, a.previousClose, OpensOf(d.bars, a.lots.Keys)),
                 gap)
      && (forall i | 0 <= i < |gap| :: gap[i].symbol in d.bars)
      && NoTurnover(gap)
      && b.ledger == a.ledger + gap && b.lots == a.lots && b.highWatermark == a.highWatermark;
    assert b.ledger[|a.ledger|..] == gap;
    PnlIsBooked(costRate, a.lots, gap);
    GapIsExplained(c, costRate, d, a.lots, a.previousClose, gap);
  }

  // ---- Runs ----

  /** What one day does to the books, without how. */
  lemma StepKeepsBooks(c: Contracts, config: Config, costRate: real, d: Day, a: Account, b: Account, row: Row)
    requires c.Valid() && Markable(c, a) && DayStep(c, config, costRate, d, a, b, row)
    ensures a.ledger <= b.ledger
    ensures forall column :: Sum(b.ledger, column) == Sum(a.ledger, column) + Sum(b.ledger[|a.ledger|..], column)
    ensures b.equity == a.equity + Sum(b.ledger[|a.ledger|..], GrossPnl) - Sum(b.ledger[|a.ledger|..], TransactionCost)
    ensures row.turnover == Sum(b.ledger[|a.ledger|..], Turnover)
    ensures a.divergence != Clear ==> b.divergence == a.divergence
    ensures a.halted ==> b == a && row.turnover == 0.0
    ensures b.halted && !a.halted ==> b.lots == map[] || row.reason.MissingPrice?
  {
    hide Ends, Freezes, Sum, BucketTotal, Markable;
    var rows := b.ledger[|a.ledger|..];
    assert b.ledger == a.ledger + rows;
    forall column
      ensures Sum(b.ledger, column) == Sum(a.ledger, column) + Sum(rows, column)
    {
      SumConcat(a.ledger, rows, column);
    }
    if a.halted {
      assert rows == [];
      NoEvents();
    }
  }

  /** At the end of every day, equity is initial capital plus all gross profit less all cost in
      the ledger, which never loses an event. */
  lemma {:induction false} EquityIsExplained(c: Contracts, config: Config, costRate: real, days: seq<Day>,
                                             accounts: seq<Account>,
                                             rows: seq<Row>, i: nat)
    requires c.Valid() && IsRun(c, config, costRate, days, accounts, rows) && i <= |rows|
    ensures accounts[i].equity
            == config.initialCapital + Sum(accounts[i].ledger, GrossPnl) - Sum(accounts[i].ledger, TransactionCost)
    ensures forall j | 0 <= j <= i :: accounts[j].ledger <= accounts[i].ledger
  {
    hide DayStep, Markable;
    if i > 0 {
      EquityIsExplained(c, config, costRate, days, accounts, rows, i - 1);
      StepKeepsBooks(c, config, costRate, days[i - 1], accounts[i - 1], accounts[i], rows[i - 1]);
    }
  }

  ghost function TurnoverSum(rows: seq<Row>): real {
    if rows == [] then 0.0 else TurnoverSum(rows[..|rows| - 1]) + rows[|rows| - 1].turnover
  }

  /** The daily turnover column adds up to the turnover of the ledger. */
  lemma {:induction false} TurnoverIsExplained(c: Contracts, config: Config, costRate: real, days: seq<Day>,
                                               accounts: seq<Account>,
                                               rows: seq<Row>, i: nat)
    requires c.Valid() && IsRun(c, config, costRate, days, accounts, rows) && i <= |rows|
    ensures TurnoverSum(rows[..i]) == Sum(accounts[i].ledger, Turnover)
  {
    hide DayStep, Markable;
    if i > 0 {
      TurnoverIsExplained(c, config, costRate, days, accounts, rows, i - 1);
      StepKeepsBooks(c, config, costRate, days[i - 1], accounts[i - 1], accounts[i], rows[i - 1]);
      assert rows[..i][..i - 1] == rows[..i - 1];
    }
  }

  /** A halted account never trades or changes again, and the first divergence is never rewritten. */
  lemma {:induction false} HaltingIsAbsorbing(c: Contracts, config: Config, costRate: real, days: seq<Day>,
                                              accounts: seq<Account>,
                                              rows: seq<Row>, i: nat, j: nat)
    requires c.Valid() && IsRun(c, config, costRate, days, accounts, rows) && i <= j <= |rows|
    ensures accounts[i].halted ==> accounts[j] == accounts[i] && forall k | i <= k < j :: rows[k].turnover == 0.0
    ensures accounts[i].divergence != Clear ==> accounts[j].divergence == accounts[i].divergence
    decreases j - i
  {
    hide DayStep, Markable;
    if i < j {
      HaltingIsAbsorbing(c, config, costRate, days, accounts, rows, i, j - 1);
      StepKeepsBooks(c, config, costRate, days[j - 1], accounts[j - 1], accounts[j], rows[j - 1]);
    }
  }

  /** A halted account that still holds something was stopped by a missing price. */
  lemma {:induction false} OnlyMissingPricesFreeze(c: Contracts, config: Config, costRate: real, days: seq<Day>,
                                                   accounts: seq<Account>,
                                                   rows: seq<Row>, i: nat)
    requires c.Valid() && IsRun(c, config, costRate, days, accounts, rows) && i <= |rows|
    requires accounts[i].halted && accounts[i].lots != map[]
    ensures exists k :: 0 <= k < i && rows[k].reason.MissingPrice?
  {
    hide DayStep, Markable;
    assert i > 0;
    StepKeepsBooks(c, config, costRate, days[i - 1], accounts[i - 1], accounts[i], rows[i - 1]);
    if accounts[i - 1].halted {
      OnlyMissingPricesFreeze(c, config, costRate, days, accounts, rows, i - 1);
    } else {
      assert rows[i - 1].reason.MissingPrice?;
    }
  }

  /** Every gate, in amounts of money. */
  predicate InsideLimits(config: Config, dayStart: real, b: Account, row: Row) {
    && b.equity > 0.0 && b.highWatermark > 0.0 && dayStart > 0.0
    && Max(0.0, b.highWatermark - b.equity) < (config.maxDrawdown - TOLERANCE) * b.highWatermark
    && Max(0.0, dayStart - b.equity) < (config.maxDailyLoss - TOLERANCE) * dayStart
    && row.margin <= config.maxMargin * b.equity
    && b.equity - row.margin >= config.minAvailable * b.equity
    && row.gross <= config.maxGross * b.equity + EPS
  }

  /** The end of every day of every run: one contract per product; and, unless a held contract
      had no price, a flat book or one that meets every limit at closing prices after costs. */
  lemma {:induction false} DaysEndInsideTheLimits(c: Contracts, config: Config, costRate: real, days: seq<Day>,
                                                  accounts: seq<Account>, rows: seq<Row>, i: nat)
    requires c.Valid() && IsRun(c, config, costRate, days, accounts, rows) && i < |rows|
    requires !accounts[i].halted && forall s | s in accounts[i].lots :: s in days[i].bars
    ensures c.Holdable(accounts[i + 1].lots)
    ensures accounts[i + 1].lots == map[] || InsideLimits(config, accounts[i].equity, accounts[i + 1], rows[i])
    ensures rows[i].margin == MarginCharge(config, rows[i].gross)
    ensures rows[i].gross == Total(accounts[i + 1].lots, c.Notionals(ClosesOf(days[i].bars, accounts[i + 1].lots.Keys)))
  {
    hide DayStep, Markable, Settled, Total, InsideLimits, MarginCharge;
    var a, b, d, row := accounts[i], accounts[i + 1], days[i], rows[i];
    RunDay(c, config, costRate, days, accounts, rows, i);
    EndOfDay(c, config, costRate, d, a, b, row);
    MarginIsGrossShare(c, config, b.lots, b.previousClose);
    GrossIsTotal(c, b.lots, b.previousClose);
    LimitsInMoney(c, config, a.equity, b, row);
  }

  lemma RunDay(c: Contracts, config: Config, costRate: real, days: seq<Day>, accounts: seq<Account>, rows: seq<Row>,
               i: nat)
    requires c.Valid() && IsRun(c, config, costRate, days, accounts, rows) && i < |rows|
    ensures Markable(c, accounts[i]) && Markable(c, accounts[i + 1]) && c.Holdable(accounts[i + 1].lots)
    ensures DayStep(c, config, costRate, days[i], accounts[i], accounts[i + 1], rows[i])
  {
    hide DayStep;
  }

  lemma GrossIsTotal(c: Contracts, lots: Lots, prices: Weights)
    ensures c.Gross(lots, prices) == Total(lots, c.Notionals(prices))
  {
  }

  lemma LimitsInMoney(c: Contracts, config: Config, dayStart: real, b: Account, row: Row)
    requires Settled(c, config, dayStart, b.lots, b.previousClose, b.equity, b.highWatermark, row.reason)
    requires row.margin == c.Margin(config, b.lots, b.previousClose) && row.gross == c.Gross(b.lots, b.previousClose)
    ensures b.lots == map[] || InsideLimits(config, dayStart, b, row)
  {
    hide Total, Max;
  }

  lemma EndOfDay(c: Contracts, config: Config, costRate: real, d: Day, a: Account, b: Account, row: Row)
    requires c.Valid() && Markable(c, a) && DayStep(c, config, costRate, d, a, b, row)
    requires !a.halted && forall s | s in a.lots :: s in d.bars
    ensures Settled(c, config, a.equity, b.lots, b.previousClose, b.equity, b.highWatermark, row.reason)
    ensures row.margin == c.Margin(config, b.lots, b.previousClose) && row.gross == c.Gross(b.lots, b.previousClose)
    ensures b.previousClose == ClosesOf(d.bars, b.lots.Keys)
  {
    hide Ends, Freezes, Sum, BucketTotal, Settled, Reconciled, Conserved, Total;
  }

  /** The guard acts exactly when a book that passed every gate is above the ceiling. */
  lemma {:induction false} GuardActsAboveTheCeiling(c: Contracts, config: Config, costRate: real, dayStart: real,
                                                    s: Session, t: Session, reason: Reason, guarded: bool)
    requires costRate >= 0.0 && config.maxGross > 0.0
    requires Closes(c, config, costRate, dayStart, s, t, reason, guarded)
    ensures guarded <==>
              ReasonAtClose(c, config, dayStart, s) == Clear && !UnderCeiling(c, config, s.lots, s.closes, s.equity)
  {
    hide AccountRiskReason, Liquidates, SoldAs, Reduces, Total;
    if ReasonAtClose(c, config, dayStart, s) == Clear {
      ClearIsSolvent(c, config, dayStart, s);
      var g :| Guards(c, config, costRate, s, g, guarded)
          && LooksAgain(c, config, costRate, dayStart, g, t, reason, guarded);
      var deltas :| GuardsWith(c, config, costRate, s, deltas, g, guarded);
      BreachIsReduced(s.lots, c.Notionals(s.closes), s.equity, config.maxGross, costRate, deltas);
    }
  }

  lemma ClearIsSolvent(c: Contracts, config: Config, dayStart: real, s: Session)
    requires ReasonAtClose(c, config, dayStart, s) == Clear
    ensures s.equity > 0.0
  {
    hide Total;
  }

  // ---- The ledger of a run ----

  lemma RunAdds(c: Contracts, config: Config, costRate: real, days: seq<Day>, accounts: seq<Account>, rows: seq<Row>,
                i: nat)
    requires c.Valid() && ValidDays(c, days) && costRate >= 0.0
    requires IsRun(c, config, costRate, days, accounts, rows) && i < |rows|
    ensures Adds(c, costRate, days[i], accounts[i], accounts[i + 1])
    ensures accounts[i].halted ==> accounts[i + 1] == accounts[i]
  {
    hide DayStep, Markable, Adds, ValidDay;
    RunDay(c, config, costRate, days, accounts, rows, i);
    StepAdds(c, config, costRate, days[i], accounts[i], accounts[i + 1], rows[i]);
    StepKeepsBooks(c, config, costRate, days[i], accounts[i], accounts[i + 1], rows[i]);
  }

  /** All cost ever paid is the rate on all turnover ever traded, and every position is the sum
      of its trades. */
  lemma {:induction false} LedgerIsTheAccount(c: Contracts, config: Config, costRate: real, days: seq<Day>,
                                              accounts: seq<Account>, rows: seq<Row>, i: nat)
    requires c.Valid() && ValidDays(c, days) && costRate >= 0.0
    requires IsRun(c, config, costRate, days, accounts, rows) && i <= |rows|
    ensures Sum(accounts[i].ledger, TransactionCost) == Sum(accounts[i].ledger, Turnover) * costRate
    ensures forall s :: At(accounts[i].lots, s) as real == Sum(accounts[i].ledger, LotsOf(s))
  {
    hide DayStep, Markable, ValidDay, AllExplained, Sum;
    if i == 0 {
      NoEvents();
      NothingPaid(costRate);
    } else {
      LedgerIsTheAccount(c, config, costRate, days, accounts, rows, i - 1);
      RunAdds(c, config, costRate, days, accounts, rows, i - 1);
      var a, b := accounts[i - 1], accounts[i];
      assert b.ledger == a.ledger + b.ledger[|a.ledger|..];
      BookingExtends(costRate, map[], a.lots, b.lots, a.ledger, b.ledger[|a.ledger|..]);
    }
  }

  /** Nothing else is ever in the ledger: a day adds trades at its own prices and profits of its
      own price moves. */
  lemma {:induction false} EveryEventIsExplained(c: Contracts, config: Config, costRate: real, days: seq<Day>,
                                                 accounts: seq<Account>, rows: seq<Row>, i: nat, k: nat)
    requires c.Valid() && ValidDays(c, days) && costRate >= 0.0
    requires IsRun(c, config, costRate, days, accounts, rows) && i <= |rows| && k < |accounts[i].ledger|
    ensures exists j :: 0 <= j < i && |accounts[j].ledger| <= k < |accounts[j + 1].ledger|
                        && Explained(c, costRate, days[j], accounts[j].previousClose, accounts[i].ledger[k])
  {
    hide DayStep, Markable, ValidDay, Booking, Explained;
    assert i > 0;
    RunAdds(c, config, costRate, days, accounts, rows, i - 1);
    var a, b := accounts[i - 1], accounts[i];
    if k < |a.ledger| {
      EveryEventIsExplained(c, config, costRate, days, accounts, rows, i - 1, k);
      assert a.ledger[k] == b.ledger[k];
    } else {
      var j := i - 1;
      assert b.ledger[|a.ledger|..][k - |a.ledger|] == b.ledger[k];
      assert Explained(c, costRate, days[j], accounts[j].previousClose, b.ledger[k]);
    }
  }

  // ---- The high-water mark of a run ----

  /** The watermark never falls, and while the account runs it is at least initial capital and
      the equity at the end of every day so far. */
  lemma {:induction false} WatermarkIsAPeak(c: Contracts, config: Config, costRate: real, days: seq<Day>,
                                            accounts: seq<Account>, rows: seq<Row>, i: nat, j: nat)
    requires c.Valid() && ValidDays(c, days) && costRate >= 0.0
    requires IsRun(c, config, costRate, days, accounts, rows) && i <= j <= |rows|
    ensures config.initialCapital <= accounts[i].highWatermark <= accounts[j].highWatermark
    ensures !accounts[j].halted ==> !accounts[i].halted && accounts[i].equity <= accounts[j].highWatermark
    decreases j
  {
    hide DayStep, Markable, ValidDay, Booking, AllExplained;
    if j > 0 {
      RunAdds(c, config, costRate, days, accounts, rows, j - 1);
      WatermarkIsAPeak(c, config, costRate, days, accounts, rows, if i < j then i else j - 1, j - 1);
    }
  }

  /** An account that ends a day with positions has lost less than the drawdown limit against
      initial capital and against the end of every earlier day. */
  lemma {:induction false} DrawdownIsBounded(c: Contracts, config: Config, costRate: real, days: seq<Day>,
                                             accounts: seq<Account>, rows: seq<Row>, i: nat, j: nat)
    requires c.Valid() && ValidDays(c, days) && costRate >= 0.0 && config.Valid()
    requires IsRun(c, config, costRate, days, accounts, rows) && i <= j <= |rows|
    requires !accounts[j].halted && accounts[j].lots != map[]
    ensures accounts[j].equity > Retained(config, accounts[i].equity)
    ensures accounts[j].equity > Retained(config, config.initialCapital)
  {
    hide DayStep, Markable, ValidDay, Retained;
    WatermarkIsAPeak(c, config, costRate, days, accounts, rows, i, j);
    RunAdds(c, config, costRate, days, accounts, rows, j - 1);
    PricedUnlessHalted(c, config, costRate, days, accounts, rows, j - 1);
    DaysEndInsideTheLimits(c, config, costRate, days, accounts, rows, j - 1);
    RetainedGrows(config, accounts[i].equity, accounts[j].highWatermark);
    RetainedGrows(config, config.initialCapital, accounts[j].highWatermark);
    AboveRetained(config, accounts[j - 1].equity, accounts[j], rows[j - 1]);
  }

  /** What the drawdown limit leaves of a peak. */
  function Retained(config: Config, peak: real): real {
    (1.0 - (config.maxDrawdown - TOLERANCE)) * peak
  }

  lemma RetainedGrows(config: Config, x: real, y: real)
    requires config.Valid() && x <= y
    ensures Retained(config, x) <= Retained(config, y)
  {
    NonNegativeProduct(1.0 - (config.maxDrawdown - TOLERANCE), y - x);
  }

  lemma AboveRetained(config: Config, dayStart: real, b: Account, row: Row)
    requires InsideLimits(config, dayStart, b, row)
    ensures b.equity > Retained(config, b.highWatermark)
  {
  }

  lemma PricedUnlessHalted(c: Contracts, config: Config, costRate: real, days: seq<Day>, accounts: seq<Account>,
                           rows: seq<Row>, i: nat)
    requires c.Valid() && IsRun(c, config, costRate, days, accounts, rows) && i < |rows|
    requires !accounts[i].halted && !accounts[i + 1].halted
    ensures forall s | s in accounts[i].lots :: s in days[i].bars
  {
    hide Ends, Freezes, Sum, BucketTotal, Settled, Reconciled, Conserved, Total;
    RunDay(c, config, costRate, days, accounts, rows, i);
    assert DayStep(c, config, costRate, days[i], accounts[i], accounts[i + 1], rows[i]);
  }
}
