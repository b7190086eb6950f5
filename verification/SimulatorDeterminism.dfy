/** The simulator is a function of its days: whatever a day leaves open is the order of its
    profit rows. */
module SimulatorDeterminism {
  import opened Lots
  import opened GrossReduction
  import opened Market
  import opened AuditLedger
  import opened Rebalance
  import opened DayTargets
  import opened DaySession
  import opened DayTrades
  import opened Simulator
  import opened SimulatorRuns

  /** The same point of the day, whatever order its events were written in. */
  predicate SamePoint(s: Session, s': Session) {
    s == s'.(events := s.events)
  }

  /** The same account, whatever order its ledger was written in. */
  predicate SameAccount(a: Account, b: Account) {
    a == b.(ledger := a.ledger)
  }

  lemma ExecutesAlike(c: Contracts, costRate: real, s: Session, s': Session, deltas: Lots, prices: Weights,
                      naming: Naming, t: Session, t': Session)
    requires SamePoint(s.(buckets := s'.buckets), s')
    requires Executes(c, costRate, s, deltas, prices, naming, t)
    requires Executes(c, costRate, s', deltas, prices, naming, t')
    ensures SamePoint(t.(buckets := t'.buckets), t')
  {
    hide Audited, Total, AfterDeltas, Paid;
  }

  lemma SoldAlike(c: Contracts, costRate: real, s: Session, s': Session, deltas: Lots, prices: Weights,
                  action: Action, t: Session, t': Session)
    requires SamePoint(s, s')
    requires SoldAs(c, costRate, s, deltas, prices, action, t) && SoldAs(c, costRate, s', deltas, prices, action, t')
    ensures SamePoint(t, t')
  {
    hide *;
    SoldExecutes(c, costRate, s, deltas, prices, action, t);
    SoldExecutes(c, costRate, s', deltas, prices, action, t');
    SamePointParts(s, s');
    ExecutesAlike(c, costRate, s, s', deltas, prices, Override(action), t, t');
    SameBuckets(t, t');
  }

  lemma SoldExecutes(c: Contracts, costRate: real, s: Session, deltas: Lots, prices: Weights, action: Action,
                     t: Session)
    requires SoldAs(c, costRate, s, deltas, prices, action, t)
    ensures Executes(c, costRate, s, deltas, prices, Override(action), t) && action in s.buckets
    ensures t.buckets == s.buckets[action := s.buckets[action] + Total(deltas, c.Notionals(prices))]
  {
    hide Executes, Total;
  }

  lemma SameBuckets(t: Session, t': Session)
    requires SamePoint(t.(buckets := t'.buckets), t') && t.buckets == t'.buckets
    ensures SamePoint(t, t')
  {
  }

  lemma LiquidatesAlike(c: Contracts, costRate: real, s: Session, s': Session, prices: Weights, reason: Reason,
                        t: Session, t': Session)
    requires SamePoint(s, s')
    requires Liquidates(c, costRate, s, prices, reason, t) && Liquidates(c, costRate, s', prices, reason, t')
    ensures SamePoint(t, t')
  {
    hide SoldAs;
    if s.lots != map[] {
      SoldAlike(c, costRate, s, s', Closing(s.lots), prices, RiskBucket(reason), t, t');
    }
  }

  lemma GuardsAlike(c: Contracts, config: Config, costRate: real, s: Session, s': Session, t: Session, t': Session,
                    guarded: bool, guarded': bool)
    requires SamePoint(s, s')
    requires Guards(c, config, costRate, s, t, guarded) && Guards(c, config, costRate, s', t', guarded')
    ensures SamePoint(t, t') && guarded == guarded'
  {
    hide SoldAs, Reduces;
    var deltas :| GuardsWith(c, config, costRate, s, deltas, t, guarded);
    var deltas' :| GuardsWith(c, config, costRate, s', deltas', t', guarded');
    ReductionIsDetermined(s.lots, c.Notionals(s.closes), s.equity, config.maxGross, costRate, deltas, deltas');
    if guarded {
      SoldAlike(c, costRate, s, s', deltas, s.closes, GrossGuard, t, t');
    }
  }

  lemma ClosesAlike(c: Contracts, config: Config, costRate: real, dayStart: real, s: Session, s': Session,
                    t: Session, t': Session, reason: Reason, reason': Reason, guarded: bool, guarded': bool)
    requires SamePoint(s, s')
    requires Closes(c, config, costRate, dayStart, s, t, reason, guarded)
    requires Closes(c, config, costRate, dayStart, s', t', reason', guarded')
    ensures SamePoint(t, t') && reason == reason' && guarded == guarded'
  {
    SameReason(c, config, dayStart, s, s');
    hide Guards, Liquidates, ReasonAtClose;
    if ReasonAtClose(c, config, dayStart, s) != Clear {
      LiquidatesAlike(c, costRate, s, s', s.closes, reason, t, t');
    } else {
      var g :| Guards(c, config, costRate, s, g, guarded)
          && LooksAgain(c, config, costRate, dayStart, g, t, reason, guarded);
      var g' :| Guards(c, config, costRate, s', g', guarded')
          && LooksAgain(c, config, costRate, dayStart, g', t', reason', guarded');
      GuardsAlike(c, config, costRate, s, s', g, g', guarded, guarded');
      SameReason(c, config, dayStart, g, g');
      if reason != Clear {
        LiquidatesAlike(c, costRate, g, g', g.closes, reason, t, t');
      }
    }
  }

  lemma SameReason(c: Contracts, config: Config, dayStart: real, s: Session, s': Session)
    requires SamePoint(s, s')
    ensures ReasonAtClose(c, config, dayStart, s) == ReasonAtClose(c, config, dayStart, s')
    ensures ReasonAtOpen(c, config, dayStart, s) == ReasonAtOpen(c, config, dayStart, s')
  {
    hide AccountRiskReason, Total;
  }

  /** The gate has one answer when every opening has a price. */
  lemma JudgedAlike(c: Contracts, config: Config, equity: real, margin: real, lots: Lots, openings: Lots,
                    opens: Weights, reason: Reason, reason': Reason)
    requires forall s | s in openings :: Weight(opens, s) > 0.0
    requires Judged(c, config, equity, margin, lots, openings, opens, reason)
    requires Judged(c, config, equity, margin, lots, openings, opens, reason')
    ensures reason == reason'
  {
    hide Total, VolumesFit, Weight;
  }

  lemma RebalancesAlike(c: Contracts, config: Config, costRate: real, s: Session, s': Session, target: Lots,
                        t: Session, t': Session, reject: Reason, reject': Reason)
    requires SamePoint(s, s') && Ready(c, s, target)
    requires Rebalances(c, config, costRate, s, target, t, reject)
    requires Rebalances(c, config, costRate, s', target, t', reject')
    ensures SamePoint(t, t') && reject == reject'
  {
    hide *;
    var r, added := RebalancedThrough(c, config, costRate, s, target, t, reject);
    var r', added' := RebalancedThrough(c, config, costRate, s', target, t', reject');
    SamePointParts(s, s');
    PhaseParts(c, config, costRate, s, target, r, added, t, reject);
    PhaseParts(c, config, costRate, s', target, r', added', t', reject');
    var naming := ByIntent(s.lots, target);
    ExecutesAlike(c, costRate, s, s', Reductions(s.lots, target), s.opens, naming, r, r');
    AdmitsAlike(c, config, costRate, s, s', target, r, r', added, added', t, t', reject, reject');
    SamePointParts(r.(buckets := r'.buckets), r');
    ExecutesAlike(c, costRate, r, r', added, s.opens, naming, t, t');
    SpreadAlike(c, s, s', target, Merged(Reductions(s.lots, target), added), t, t');
  }

  lemma RebalancedThrough(c: Contracts, config: Config, costRate: real, s: Session, target: Lots, t: Session,
                          reject: Reason)
    returns (r: Session, added: Lots)
    requires Rebalances(c, config, costRate, s, target, t, reject)
    ensures PhasesRun(c, config, costRate, s, target, r, added, t, reject)
    ensures Spread(c, s, target, Merged(Reductions(s.lots, target), added), t.buckets)
  {
    hide PhasesRun, Spread;
    r, added :| && PhasesRun(c, config, costRate, s, target, r, added, t, reject)
                && Spread(c, s, target, Merged(Reductions(s.lots, target), added), t.buckets);
  }

  lemma SamePointParts(s: Session, s': Session)
    requires SamePoint(s, s')
    ensures s.lots == s'.lots && s.equity == s'.equity && s.opens == s'.opens && s.closes == s'.closes
    ensures s.buckets == s'.buckets && SamePoint(s.(buckets := s'.buckets), s')
  {
  }

  lemma AdmitsAlike(c: Contracts, config: Config, costRate: real, s: Session, s': Session, target: Lots, r: Session,
                    r': Session, added: Lots, added': Lots, t: Session, t': Session, reject: Reason, reject': Reason)
    requires SamePoint(s, s') && Ready(c, s, target) && SamePoint(r.(buckets := r'.buckets), r')
    requires PhasesRun(c, config, costRate, s, target, r, added, t, reject)
    requires PhasesRun(c, config, costRate, s', target, r', added', t', reject')
    ensures reject == reject' && added == added'
  {
    hide Judged, Executes, Openings, Reductions, AfterDeltas, Total;
    var openings := Openings(r.lots, target);
    ExecutedParts(c, costRate, s, Reductions(s.lots, target), s.opens, ByIntent(s.lots, target), r);
    if openings != map[] {
      OpeningsAreWanted(r.lots, target);
      JudgedAlike(c, config, r.equity, c.Margin(config, r.lots, r.opens), r.lots, openings, r.opens, reject, reject');
    }
  }

  lemma SpreadAlike(c: Contracts, s: Session, s': Session, target: Lots, deltas: Lots, t: Session, t': Session)
    requires SamePoint(s, s') && SamePoint(t.(buckets := t'.buckets), t')
    requires Spread(c, s, target, deltas, t.buckets) && Spread(c, s', target, deltas, t'.buckets)
    ensures SamePoint(t, t')
  {
    hide BatchTotal;
    assert t.buckets == t'.buckets;
  }

  lemma RidesAlike(c: Contracts, s: Session, s': Session, t: Session, t': Session)
    requires SamePoint(s, s') && Rides(c, s, t) && Rides(c, s', t')
    ensures SamePoint(t, t')
  {
    hide Marked, Drift, Moves;
  }

  lemma TradesAlike(c: Contracts, config: Config, costRate: real, dayStart: real, s: Session, s': Session,
                    target: Lots, t: Session, t': Session, reason: Reason, reason': Reason, reject: Reason,
                    reject': Reason, guarded: bool, guarded': bool)
    requires SamePoint(s, s') && Ready(c, s, target)
    requires Trades(c, config, costRate, dayStart, s, target, t, reason, reject, guarded)
    requires Trades(c, config, costRate, dayStart, s', target, t', reason', reject', guarded')
    ensures SamePoint(t, t') && reason == reason' && reject == reject' && guarded == guarded'
  {
    hide SamePoint, Ready, Rebalances, Rides, Closes;
    var r, m :| && Rebalances(c, config, costRate, s, target, r, reject) && Rides(c, r, m)
                && Closes(c, config, costRate, dayStart, m, t, reason, guarded);
    var r', m' :| && Rebalances(c, config, costRate, s', target, r', reject') && Rides(c, r', m')
                  && Closes(c, config, costRate, dayStart, m', t', reason', guarded');
    RebalancesAlike(c, config, costRate, s, s', target, r, r', reject, reject');
    RidesAlike(c, r, r', m, m');
    ClosesAlike(c, config, costRate, dayStart, m, m', t, t', reason, reason', guarded, guarded');
  }

  lemma DayRunsAlike(c: Contracts, config: Config, costRate: real, d: Day, a: Account, a': Account,
                     gap: seq<Event>, gap': seq<Event>, t: Session, t': Session, reason: Reason, reason': Reason,
                     reject: Reason, reject': Reason, guarded: bool, guarded': bool)
    requires c.Valid() && ValidDay(c, d) && Markable(c, a) && SameAccount(a, a') && !a.halted
    requires forall x | x in a.lots :: x in d.bars
    requires DayRuns(c, config, costRate, d, a, gap, t, reason, reject, guarded)
    requires DayRuns(c, config, costRate, d, a', gap', t', reason', reject', guarded')
    ensures SamePoint(t, t') && reason == reason' && reject == reject' && guarded == guarded'
  {
    hide Kept, ValidDay, Sound, Ready, Rebalances, Rides, Closes, Liquidates, DayTarget, Quoted, ReasonAtOpen, Drift,
         Marked, Markable, Moves, Trades, SamePoint, OpensOf;
    OpenIsReady(c, config, d, a, gap);
    MarkableBook(c, a);
    var opens := OpensOf(d.bars, a.lots.Keys);
    var marked := a.equity + Drift(a.lots, Moves(c, a.previousClose, opens));
    var s, s' := Opened(a, d, marked, gap), Opened(a', d, marked, gap');
    OpenedAlike(d, a, a', marked, gap, gap');
    SameReason(c, config, a.equity, s, s');
    if ReasonAtOpen(c, config, a.equity, s) != Clear {
      LiquidatesAlike(c, costRate, s, s', s.opens, reason, t, t');
    } else {
      var target := DayTarget(c, config, s.equity, a.lots, d);
      TradesAlike(c, config, costRate, a.equity, Quoted(s, d), Quoted(s', d), target, t, t', reason,
                  reason', reject, reject', guarded, guarded');
    }
  }

  lemma OpenIsReady(c: Contracts, config: Config, d: Day, a: Account, gap: seq<Event>)
    requires c.Valid() && Markable(c, a) && !a.halted && ValidDay(c, d) && forall x | x in a.lots :: x in d.bars
    requires var opens := OpensOf(d.bars, a.lots.Keys);
             Marked(c, Gap, a.lots, opens, Moves(c, a.previousClose, opens), gap)
    ensures var opens := OpensOf(d.bars, a.lots.Keys);
            var s := Opened(a, d, a.equity + Drift(a.lots, Moves(c, a.previousClose, opens)), gap);
            && c.Holdable(a.lots)
            && Ready(c, Quoted(s, d), DayTarget(c, config, s.equity, a.lots, d))
  {
    hide *;
    OpenKeeps(c, 0.0, d, a, gap);
    MarkableBook(c, a);
    var opens := OpensOf(d.bars, a.lots.Keys);
    var s := Opened(a, d, a.equity + Drift(a.lots, Moves(c, a.previousClose, opens)), gap);
    OpenedParts(a, d, a.equity + Drift(a.lots, Moves(c, a.previousClose, opens)), gap);
    QuotesKeep(c, config, 0.0, d, a, s);
  }

  lemma OpenedAlike(d: Day, a: Account, a': Account, marked: real, gap: seq<Event>, gap': seq<Event>)
    requires SameAccount(a, a')
    ensures SamePoint(Opened(a, d, marked, gap), Opened(a', d, marked, gap'))
    ensures SamePoint(Quoted(Opened(a, d, marked, gap), d), Quoted(Opened(a', d, marked, gap'), d))
  {
    hide OpensOf, ClosesOf, Chosen;
  }

  /** Two accounts of one day that start the same end the same and report the same row; only
      the order of the ledger may differ. */
  lemma {:induction false} DayIsDetermined(c: Contracts, config: Config, costRate: real, d: Day, a: Account,
                                           a': Account, b: Account, b': Account, row: Row, row': Row)
    requires c.Valid() && ValidDay(c, d) && Markable(c, a) && Markable(c, a') && SameAccount(a, a')
    requires forall x | x in a.lots :: a.halted || x in d.bars
    requires DayStep(c, config, costRate, d, a, b, row) && DayStep(c, config, costRate, d, a', b', row')
    ensures SameAccount(b, b') && row == row'
  {
    if a.halted {
      HaltedAlike(c, config, costRate, d, a, a', b, b', row, row');
    } else {
      hide *;
      SameAccountParts(a, a');
      MarkableBook(c, a);
      MarkableBook(c, a');
      var gap, t := EndedBy(c, config, costRate, d, a, b, row);
      var gap', t' := EndedBy(c, config, costRate, d, a', b', row');
      DayRunsAlike(c, config, costRate, d, a, a', gap, gap', t, t', row.reason, row'.reason, row.reject, row'.reject,
                   row.guarded, row'.guarded);
      ClosedAlike(a, a', t, t', row.reason, row.reject);
      RowAlike(c, config, a, a', t, t', b, b', row.reason, row.reject, row.guarded);
    }
  }

  lemma HaltedAlike(c: Contracts, config: Config, costRate: real, d: Day, a: Account, a': Account, b: Account,
                    b': Account, row: Row, row': Row)
    requires c.Valid() && c.Holdable(a.lots) && c.Holdable(a'.lots) && a.halted && SameAccount(a, a')
    requires DayStep(c, config, costRate, d, a, b, row) && DayStep(c, config, costRate, d, a', b', row')
    ensures SameAccount(b, b') && row == row'
  {
    hide Ends, Freezes, Settled, Reconciled, Conserved, Markable;
  }

  lemma SameAccountParts(a: Account, a': Account)
    requires SameAccount(a, a')
    ensures a.lots == a'.lots && a.halted == a'.halted && a.equity == a'.equity
  {
  }

  /** The row of a day that was not ended by a missing price. */
  ghost function DayRow(c: Contracts, config: Config, a: Account, t: Session, b: Account, reason: Reason,
                        reject: Reason, guarded: bool): Row
    requires a.equity != 0.0
  {
    Row(b.equity, b.equity / a.equity - 1.0, t.turnover, t.buckets, c.Gross(b.lots, b.previousClose),
        c.Margin(config, b.lots, b.previousClose), reason, reject, reason == DailyLoss, guarded, IsHard(reason))
  }

  lemma EndedBy(c: Contracts, config: Config, costRate: real, d: Day, a: Account, b: Account, row: Row)
    returns (gap: seq<Event>, t: Session)
    requires c.Valid() && c.Holdable(a.lots) && !a.halted && forall x | x in a.lots :: x in d.bars
    requires DayStep(c, config, costRate, d, a, b, row)
    ensures DayRuns(c, config, costRate, d, a, gap, t, row.reason, row.reject, row.guarded)
    ensures b == Closed(a, t, row.reason, row.reject) && a.equity != 0.0
    ensures row == DayRow(c, config, a, t, b, row.reason, row.reject, row.guarded)
  {
    hide Ends, DayRuns, Freezes, Settled, Reconciled, Conserved, Markable, Total, Closed;
    gap, t := EndedAt(c, config, costRate, d, a, b, row);
  }

  lemma ClosedAlike(a: Account, a': Account, t: Session, t': Session, reason: Reason, reject: Reason)
    requires SameAccount(a, a') && SamePoint(t, t')
    ensures SameAccount(Closed(a, t, reason, reject), Closed(a', t', reason, reject))
  {
  }

  lemma RowAlike(c: Contracts, config: Config, a: Account, a': Account, t: Session, t': Session, b: Account,
                 b': Account, reason: Reason, reject: Reason, guarded: bool)
    requires SameAccount(a, a') && SamePoint(t, t') && SameAccount(b, b') && a.equity != 0.0
    ensures a'.equity != 0.0
    ensures DayRow(c, config, a, t, b, reason, reject, guarded)
            == DayRow(c, config, a', t', b', reason, reject, guarded)
  {
    hide Total;
  }

  /** Two runs over the same days are the same, up to the first missing price. */
  lemma {:induction false} RunIsDetermined(c: Contracts, config: Config, costRate: real, days: seq<Day>,
                                           accounts: seq<Account>, rows: seq<Row>, accounts': seq<Account>,
                                           rows': seq<Row>, i: nat)
    requires c.Valid() && ValidDays(c, days)
    requires IsRun(c, config, costRate, days, accounts, rows) && IsRun(c, config, costRate, days, accounts', rows')
    requires i <= |rows| && i <= |rows'|
    requires forall k | 0 <= k < i :: forall x | x in accounts[k].lots :: accounts[k].halted || x in days[k].bars
    ensures SameAccount(accounts[i], accounts'[i]) && rows[..i] == rows'[..i]
  {
    hide DayStep, Markable, ValidDay, SameAccount;
    if i == 0 {
      StartsAlike(config);
    } else {
      RunIsDetermined(c, config, costRate, days, accounts, rows, accounts', rows', i - 1);
      RunDay(c, config, costRate, days, accounts, rows, i - 1);
      RunDay(c, config, costRate, days, accounts', rows', i - 1);
      DayIsDetermined(c, config, costRate, days[i - 1], accounts[i - 1], accounts'[i - 1], accounts[i], accounts'[i],
                      rows[i - 1], rows'[i - 1]);
      assert rows[..i] == rows[..i - 1] + [rows[i - 1]] && rows'[..i] == rows'[..i - 1] + [rows'[i - 1]];
    }
  }

  lemma StartsAlike(config: Config)
    ensures SameAccount(Initial(config), Initial(config))
  {
  }
}
