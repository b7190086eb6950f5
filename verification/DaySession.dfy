/** The steps of one simulated day. Each takes the day so far and gives the day one step on,
    keeping the equity, the audit events and the turnover buckets in balance. */
module DaySession {
  import opened Wrappers
  import opened Lots
  import opened Market
  import opened AuditLedger

  const BUCKETS: set<Action> := {Roll, Resize, Reversal, Entry, Exit, DailyCircuit, HardHalt, GrossGuard}

  datatype Bar = Bar(open: real, close: real)

  datatype Session = Session(
    equity: real,
    highWatermark: real,
    lots: Lots,
    opens: Weights,
    closes: Weights,
    turnover: real,
    buckets: map<Action, real>,
    events: seq<Event>
  )

  /** The events between two points of a day. */
  function Since(s: Session, t: Session): seq<Event>
    requires s.events <= t.events
  {
    t.events[|s.events|..]
  }

  predicate PositiveBars(bars: map<Symbol, Bar>) {
    forall s | s in bars :: bars[s].open > 0.0 && bars[s].close > 0.0
  }

  function BucketTotal(buckets: map<Action, real>): real
    requires buckets.Keys == BUCKETS
  {
    buckets[Roll] + buckets[Resize] + buckets[Reversal] + buckets[Entry] + buckets[Exit]
    + buckets[DailyCircuit] + buckets[HardHalt] + buckets[GrossGuard]
  }

  /** Turnover is what the trade events say it is, in total and per bucket, and the eight
      buckets are all of it. */
  ghost predicate Reconciled(turnover: real, buckets: map<Action, real>, events: seq<Event>) {
    && buckets.Keys == BUCKETS
    && turnover == Sum(events, Turnover)
    && (forall a | a in BUCKETS :: buckets[a] == Sum(events, TurnoverOf(a)))
    && BucketTotal(buckets) == turnover
  }

  /** Equity has moved by the events' profit and cost, and by nothing else. */
  ghost predicate Conserved(start: real, equity: real, events: seq<Event>) {
    equity == start + Sum(events, GrossPnl) - Sum(events, TransactionCost)
  }

  ghost predicate Balanced(start: real, s: Session) {
    Conserved(start, s.equity, s.events) && Reconciled(s.turnover, s.buckets, s.events)
  }

  /** A holdable book whose every contract has an opening and a closing price. */
  predicate Sound(c: Contracts, s: Session) {
    && c.Holdable(s.lots)
    && Positive(s.opens) && Positive(s.closes)
    && s.opens.Keys == s.closes.Keys && s.lots.Keys <= s.closes.Keys
  }

  // ---- Marking to market ----

  /** What one lot gains when prices move. */
  function Moves(c: Contracts, from: Weights, to: Weights): Weights {
    map s | s in from && s in to && c.Knows(s) :: LotMove(from[s], to[s], c.Multiplier(s))
  }

  function LotMove(from: real, to: real, multiplier: real): real {
    (to - from) * multiplier
  }

  /** The profit of a book: the sum of signed volume times move. */
  ghost function Drift(lots: Lots, moves: Weights): real
    decreases |lots|
  {
    if lots == map[] then 0.0
    else Gain(lots[Pick(lots)], Weight(moves, Pick(lots))) + Drift(lots - {Pick(lots)}, moves)
  }

  function Gain(volume: int, move: real): real {
    (volume as real) * move
  }

  lemma {:induction false} DriftWithout(lots: Lots, moves: Weights, s: Symbol)
    requires s in lots
    ensures Drift(lots, moves) == Gain(lots[s], Weight(moves, s)) + Drift(lots - {s}, moves)
    decreases |lots|
  {
    hide Gain, Weight;
    var p := Pick(lots);
    if p != s {
      DriftWithout(lots - {p}, moves, s);
      DriftWithout(lots - {s}, moves, p);
      assert lots - {p} - {s} == lots - {s} - {p};
    }
  }

  ghost predicate PnlRow(c: Contracts, action: Action, lots: Lots, prices: Weights, moves: Weights, e: Event) {
    && e.symbol in lots && c.Knows(e.symbol)
    && e.kind == PnL && e.action == action && e.product == c.products[e.symbol]
    && e.side == ExposureSide(lots[e.symbol])
    && e.before == e.after == lots[e.symbol] && e.delta == 0
    && e.price == Weight(prices, e.symbol)
    && e.turnover == 0.0 && e.cost == 0.0
    && e.pnl == Gain(lots[e.symbol], Weight(moves, e.symbol))
  }

  /** Rows of different positions. */
  ghost predicate PnlRows(c: Contracts, action: Action, lots: Lots, prices: Weights, moves: Weights,
                          events: seq<Event>) {
    && (forall i | 0 <= i < |events| :: PnlRow(c, action, lots, prices, moves, events[i]))
    && (forall i, j | 0 <= i < j < |events| :: events[i].symbol != events[j].symbol)
  }

  /** One row per position, worth the drift of the book. */
  ghost predicate Marked(c: Contracts, action: Action, lots: Lots, prices: Weights, moves: Weights,
                         events: seq<Event>) {
    && PnlRows(c, action, lots, prices, moves, events) && |events| == |lots|
    && Sum(events, GrossPnl) == Drift(lots, moves)
    && NoTurnover(events)
  }

  /** Nothing was traded. */
  ghost predicate NoTurnover(events: seq<Event>) {
    && Sum(events, TransactionCost) == 0.0 && Sum(events, Turnover) == 0.0
    && (forall a :: Sum(events, TurnoverOf(a)) == 0.0)
    && (forall s :: Sum(events, LotsOf(s)) == 0.0)
  }

  function PnlAuditRow(c: Contracts, action: Action, s: Symbol, volume: int, price: real, pnl: real): Event
    requires c.Knows(s)
  {
    Event(PnL, action, c.products[s], s, ExposureSide(volume), volume, volume, 0, price, 0.0, 0.0, pnl)
  }

  /** The row of one more position. */
  lemma PnlRowsGrow(c: Contracts, action: Action, lots: Lots, prices: Weights, moves: Weights, events: seq<Event>,
                    s: Symbol, price: real, pnl: real)
    requires PnlRows(c, action, lots, prices, moves, events)
    requires forall i | 0 <= i < |events| :: events[i].symbol != s
    requires s in lots && c.Knows(s) && price == Weight(prices, s) && pnl == Gain(lots[s], Weight(moves, s))
    ensures var row := PnlAuditRow(c, action, s, lots[s], price, pnl);
            && PnlRows(c, action, lots, prices, moves, events + [row])
            && row.symbol == s && row.turnover == 0.0 && row.cost == 0.0 && row.delta == 0 && row.pnl == pnl
  {
    hide Gain, Weight, ExposureSide;
  }

  lemma MarkOneMore(events: seq<Event>, e: Event)
    requires NoTurnover(events) && e.turnover == 0.0 && e.cost == 0.0 && e.delta == 0
    ensures NoTurnover(events + [e])
    ensures Sum(events + [e], GrossPnl) == Sum(events, GrossPnl) + e.pnl
  {
    forall column
      ensures Sum(events + [e], column) == Sum(events, column) + Amount(e, column)
    {
      SumConcat(events, [e], column);
      SumOfOne(e, column);
    }
  }

  function OpensOf(bars: map<Symbol, Bar>, symbols: set<Symbol>): Weights {
    map s | s in symbols && s in bars :: bars[s].open
  }

  function ClosesOf(bars: map<Symbol, Bar>, symbols: set<Symbol>): Weights {
    map s | s in symbols && s in bars :: bars[s].close
  }

  /** The overnight gap, position by position, until a price is missing. */
  method MarkGap(c: Contracts, lots: Lots, previousClose: Weights, bars: map<Symbol, Bar>, equity: real)
    returns (marked: real, events: seq<Event>, missing: Option<Symbol>)
    requires c.Holdable(lots)
    ensures missing.None? <==> forall s | s in lots :: s in bars && s in previousClose
    ensures missing.Some? ==> missing.value in lots && (missing.value !in bars || missing.value !in previousClose)
    ensures NoTurnover(events) && marked == equity + Sum(events, GrossPnl)
    ensures var opens := OpensOf(bars, lots.Keys);
            var moves := Moves(c, previousClose, opens);
            && PnlRows(c, Gap, lots, opens, moves, events)
            && (forall i | 0 <= i < |events| :: events[i].symbol in bars)
            && (missing.None? ==> Marked(c, Gap, lots, opens, moves, events))
  {
    hide *;
    var opens := OpensOf(bars, lots.Keys);
    ghost var moves := Moves(c, previousClose, opens);
    marked, events := equity, [];
    NoEvents();
    NoRows(c, Gap, lots, opens, moves);
    var left := lots.Keys;
    ghost var rest := lots;
    while left != {}
      invariant left <= lots.Keys && rest.Keys == left && forall s | s in left :: rest[s] == lots[s]
      invariant forall s | s in lots && s !in left :: s in bars && s in previousClose
      invariant |events| + |left| == |lots.Keys|
      invariant forall i | 0 <= i < |events| :: events[i].symbol !in left && events[i].symbol in bars
      invariant PnlRows(c, Gap, lots, opens, moves, events)
      invariant NoTurnover(events) && marked == equity + Sum(events, GrossPnl)
      invariant Sum(events, GrossPnl) + Drift(rest, moves) == Drift(lots, moves)
      decreases left
    {
      var s :| s in left;
      if s !in bars || s !in previousClose {
        return marked, events, Some(s);
      }
      GapOf(c, lots, previousClose, bars, s);
      var gap := Gain(lots[s], LotMove(previousClose[s], bars[s].open, c.Multiplier(s)));
      var row := PnlAuditRow(c, Gap, s, lots[s], bars[s].open, gap);
      PnlRowsGrow(c, Gap, lots, opens, moves, events, s, bars[s].open, gap);
      MarkOneMore(events, row);
      DriftWithout(rest, moves, s);
      marked := marked + gap;
      events := events + [row];
      left := left - {s};
      rest := rest - {s};
    }
    NoDrift(rest, moves);
    AllMarked(c, Gap, lots, opens, moves, events);
    missing := None;
  }

  lemma GapOf(c: Contracts, lots: Lots, previousClose: Weights, bars: map<Symbol, Bar>, s: Symbol)
    requires c.Holdable(lots) && s in lots && s in bars && s in previousClose
    ensures var opens := OpensOf(bars, lots.Keys);
            && c.Knows(s) && Weight(opens, s) == bars[s].open
            && Weight(Moves(c, previousClose, opens), s) == LotMove(previousClose[s], bars[s].open, c.Multiplier(s))
  {
    hide LotMove;
  }

  lemma AllMarked(c: Contracts, action: Action, lots: Lots, prices: Weights, moves: Weights, events: seq<Event>)
    requires PnlRows(c, action, lots, prices, moves, events) && |events| == |lots|
    requires Sum(events, GrossPnl) == Drift(lots, moves) && NoTurnover(events)
    ensures Marked(c, action, lots, prices, moves, events)
  {
    hide PnlRows, Sum, Drift, NoTurnover;
  }

  lemma NoEvents()
    ensures NoTurnover([]) && Sum([], GrossPnl) == 0.0
  {
  }

  lemma NoRows(c: Contracts, action: Action, lots: Lots, prices: Weights, moves: Weights)
    ensures PnlRows(c, action, lots, prices, moves, [])
  {
  }

  lemma NoDrift(lots: Lots, moves: Weights)
    requires lots.Keys == {}
    ensures Drift(lots, moves) == 0.0
  {
    assert lots == map[];
  }

  /** The move from open to close. */
  method MarkIntraday(c: Contracts, lots: Lots, opens: Weights, closes: Weights) returns (pnl: real,
                      events: seq<Event>)
    requires c.Holdable(lots) && lots.Keys <= opens.Keys && lots.Keys <= closes.Keys
    ensures Marked(c, Intraday, lots, closes, Moves(c, opens, closes), events)
    ensures pnl == Drift(lots, Moves(c, opens, closes))
  {
    hide Sum, Drift, Gain, LotMove, PnlRows, NoTurnover;
    ghost var moves := Moves(c, opens, closes);
    pnl, events := 0.0, [];
    NoEvents();
    NoRows(c, Intraday, lots, closes, moves);
    var left := lots.Keys;
    ghost var rest := lots;
    while left != {}
      invariant left <= lots.Keys && rest.Keys == left && forall s | s in left :: rest[s] == lots[s]
      invariant |events| + |left| == |lots.Keys|
      invariant forall i | 0 <= i < |events| :: events[i].symbol !in left
      invariant PnlRows(c, Intraday, lots, closes, moves, events)
      invariant NoTurnover(events) && pnl == Sum(events, GrossPnl)
      invariant pnl + Drift(rest, moves) == Drift(lots, moves)
      decreases left
    {
      var s :| s in left;
      var gain := Gain(lots[s], LotMove(opens[s], closes[s], c.Multiplier(s)));
      var row := PnlAuditRow(c, Intraday, s, lots[s], closes[s], gain);
      PnlRowsGrow(c, Intraday, lots, closes, moves, events, s, closes[s], gain);
      MarkOneMore(events, row);
      DriftWithout(rest, moves, s);
      pnl := pnl + gain;
      events := events + [row];
      left := left - {s};
      rest := rest - {s};
    }
    NoDrift(rest, moves);
  }
}
