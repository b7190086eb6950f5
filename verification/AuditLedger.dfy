/** The audit events of the simulator, and the product-level intent that names every normal
    trade. The events and the daily turnover buckets are classified by two separate routines. */
module AuditLedger {
  import opened Wrappers
  import opened Lots
  import opened TargetLots
  import opened Market

  datatype Action =
    Gap | Intraday | Roll | Resize | Reversal | Entry | Exit | DailyCircuit | HardHalt | GrossGuard

  datatype Kind = Trade | PnL
  datatype Side = Long | Short | Flat

  datatype Event = Event(
    kind: Kind,
    action: Action,
    product: Product,
    symbol: Symbol,
    side: Side,
    before: int,
    after: int,
    delta: int,
    price: real,
    turnover: real,
    cost: real,
    pnl: real
  )

  function ExposureSide(volume: int): Side {
    if volume > 0 then Long else if volume < 0 then Short else Flat
  }

  // ---- Column sums ----

  datatype Column = GrossPnl | TransactionCost | Turnover | TurnoverOf(action: Action) | LotsOf(symbol: Symbol)

  function Amount(e: Event, column: Column): real {
    match column
    case GrossPnl => e.pnl
    case TransactionCost => e.cost
    case Turnover => e.turnover
    case TurnoverOf(action) => if e.action == action then e.turnover else 0.0
    case LotsOf(symbol) => if e.symbol == symbol then e.delta as real else 0.0
  }

  ghost function Sum(events: seq<Event>, column: Column): real {
    if events == [] then 0.0
    else Sum(events[..|events| - 1], column) + Amount(events[|events| - 1], column)
  }

  lemma SumOfOne(e: Event, column: Column)
    ensures Sum([e], column) == Amount(e, column)
  {
    assert [e][..0] == [];
  }

  lemma {:induction false} SumConcat(a: seq<Event>, b: seq<Event>, column: Column)
    ensures Sum(a + b, column) == Sum(a, column) + Sum(b, column)
  {
    if b == [] {
      assert a + b == a;
    } else {
      var last := |b| - 1;
      SumConcat(a, b[..last], column);
      assert (a + b)[..|a + b| - 1] == a + b[..last];
    }
  }

  // ---- Intent ----

  /** The position of a product, when it has one. */
  ghost function Holder(c: Contracts, lots: Lots, p: Product): (holder: Option<Symbol>)
    ensures holder.Some? ==>
              holder.value in lots && lots[holder.value] != 0 && c.Knows(holder.value) && c.products[holder.value] == p
    ensures holder.None? ==> forall s | s in lots && lots[s] != 0 && c.Knows(s) :: c.products[s] != p
  {
    if s :| s in lots && lots[s] != 0 && c.Knows(s) && c.products[s] == p then Some(s) else None
  }

  /** What a trade in a product is for, seen from the books before and after the rebalance. */
  function Purpose(before: Option<(Symbol, int)>, after: Option<(Symbol, int)>): Option<Action> {
    match (before, after)
    case (Some(o), Some(t)) =>
      if o.0 != t.0 then Some(Roll) else if (o.1 > 0) != (t.1 > 0) then Some(Reversal) else Some(Resize)
    case (None, Some(_)) => Some(Entry)
    case (Some(_), None) => Some(Exit)
    case (None, None) => None
  }

  ghost function Position(c: Contracts, lots: Lots, p: Product): Option<(Symbol, int)> {
    match Holder(c, lots, p)
    case Some(s) => Some((s, lots[s]))
    case None => None
  }

  ghost function Intent(c: Contracts, original: Lots, target: Lots, s: Symbol): Option<Action>
    requires c.Knows(s)
  {
    Purpose(Position(c, original, c.products[s]), Position(c, target, c.products[s]))
  }

  /** The product's position in a holdable book, named by any symbol that is one. */
  lemma PositionIs(c: Contracts, lots: Lots, p: Product)
    requires c.Holdable(lots)
    ensures Position(c, lots, p).Some? ==>
              var (x, v) := Position(c, lots, p).value; x in lots && c.Knows(x) && c.products[x] == p && lots[x] == v
    ensures forall x | x in lots && c.products[x] == p :: Position(c, lots, p) == Some((x, lots[x]))
  {
  }

  /** The intent in terms of the product's positions in the two books: none before is an entry, none
      after an exit; another contract is a roll, the other direction of one contract a reversal, and
      the same direction a resize. */
  lemma {:induction false} IntentIsExact(c: Contracts, original: Lots, target: Lots, s: Symbol)
    requires c.Holdable(original) && c.Holdable(target) && c.Knows(s)
    ensures var p, intent := c.products[s], Intent(c, original, target, s);
            var before := exists x :: x in original && c.products[x] == p;
            var after := exists x :: x in target && c.products[x] == p;
            && (intent == None <==> !before && !after)
            && (intent == Some(Entry) <==> !before && after)
            && (intent == Some(Exit) <==> before && !after)
            && (intent == Some(Roll) <==>
                exists x, y :: x in original && y in target && c.products[x] == p == c.products[y] && x != y)
            && (intent == Some(Reversal) <==>
                exists x :: x in original && x in target && c.products[x] == p && (original[x] > 0) != (target[x] > 0))
            && (intent == Some(Resize) <==>
                exists x :: x in original && x in target && c.products[x] == p && (original[x] > 0) == (target[x] > 0))
  {
    var p := c.products[s];
    PositionIs(c, original, p);
    PositionIs(c, target, p);
    hide Position;
  }

  function Find(positions: map<Product, (Symbol, int)>, p: Product): Option<(Symbol, int)> {
    if p in positions then Some(positions[p]) else None
  }

  /** `{product(symbol): (symbol, volume) for ... if volume != 0}` */
  method ByProduct(c: Contracts, lots: Lots) returns (positions: map<Product, (Symbol, int)>)
    requires c.Holdable(lots)
    ensures forall p :: p in positions <==> Position(c, lots, p).Some?
    ensures forall p :: Find(positions, p) == Position(c, lots, p)
  {
    positions := map[];
    var left := lots.Keys;
    while left != {}
      invariant left <= lots.Keys
      invariant forall p | p in positions ::
                  var (s, v) := positions[p];
                  s in lots && s !in left && lots[s] == v && c.products[s] == p
      invariant forall s | s in lots && s !in left :: c.products[s] in positions
      decreases left
    {
      var s :| s in left;
      left := left - {s};
      positions := positions[c.products[s] := (s, lots[s])];
    }
    forall p | p in positions
      ensures Position(c, lots, p) == Some(positions[p])
    {
      var holder := Holder(c, lots, p);
      assert positions[p].0 in lots && c.products[positions[p].0] == p;
      assert holder == Some(positions[p].0);
    }
  }

  method ClassifyRebalanceAction(c: Contracts, original: Lots, target: Lots, s: Symbol) returns (r: Checked<Action>)
    requires c.Holdable(original) && c.Holdable(target)
    ensures r.ValueError? <==> !c.Knows(s) || Intent(c, original, target, s).None?
    ensures r.Value? ==> Intent(c, original, target, s) == Some(r.value)
  {
    if !c.Knows(s) {
      return ValueError;
    }
    var originals := ByProduct(c, original);
    var targets := ByProduct(c, target);
    match Purpose(Find(originals, c.products[s]), Find(targets, c.products[s]))
    case Some(action) => r := Value(action);
    case None => r := ValueError;
  }

  // ---- attribute_rebalance_deltas ----

  const NORMAL_BUCKETS: set<Action> := {Roll, Resize, Reversal, Entry, Exit}

  /** Name every trade: by override, or by the intent of its product. */
  datatype Naming = Override(action: Action) | ByIntent(original: Lots, target: Lots)

  ghost predicate Named(c: Contracts, naming: Naming, s: Symbol, a: Action) {
    match naming
    case Override(action) => a == action
    case ByIntent(original, target) => c.Knows(s) && Intent(c, original, target, s) == Some(a)
  }

  /** The trades that go by one name. */
  ghost function Batch(c: Contracts, naming: Naming, deltas: Lots, a: Action): Lots {
    map s | s in deltas && Named(c, naming, s, a) :: deltas[s]
  }

  ghost function BatchTotal(c: Contracts, naming: Naming, deltas: Lots, a: Action, notionals: Weights): real {
    Total(Batch(c, naming, deltas, a), notionals)
  }

  lemma BatchGrows(c: Contracts, naming: Naming, deltas: Lots, a: Action, s: Symbol, v: int, notionals: Weights)
    requires s !in deltas
    ensures BatchTotal(c, naming, deltas[s := v], a, notionals)
         == BatchTotal(c, naming, deltas, a, notionals)
            + (if Named(c, naming, s, a) then (Abs(v) as real) * Weight(notionals, s) else 0.0)
  {
    hide Named, Total;
    var now, was := Batch(c, naming, deltas[s := v], a), Batch(c, naming, deltas, a);
    if Named(c, naming, s, a) {
      assert now == was[s := v];
      TotalUpdated(was, notionals, s, v);
    } else {
      assert now == was;
    }
  }

  lemma EmptyBatch(c: Contracts, naming: Naming, a: Action, notionals: Weights)
    ensures BatchTotal(c, naming, map[], a, notionals) == 0.0
  {
    assert Batch(c, naming, map[], a) == map[];
  }

  ghost predicate Attributable(c: Contracts, original: Lots, target: Lots, deltas: Lots, notionals: Weights) {
    forall s | s in deltas && deltas[s] != 0 ::
      Weight(notionals, s) > 0.0 && c.Knows(s) && Intent(c, original, target, s).Some?
  }

  ghost predicate Attributed(c: Contracts, original: Lots, target: Lots, deltas: Lots, notionals: Weights,
                             buckets: map<Action, real>) {
    && buckets.Keys == NORMAL_BUCKETS
    && forall a | a in NORMAL_BUCKETS :: buckets[a] == BatchTotal(c, ByIntent(original, target), deltas, a, notionals)
  }

  lemma NothingAttributed(c: Contracts, original: Lots, target: Lots, notionals: Weights)
    ensures Attributed(c, original, target, map[], notionals, map a | a in NORMAL_BUCKETS :: 0.0)
  {
    forall a
      ensures BatchTotal(c, ByIntent(original, target), map[], a, notionals) == 0.0
    {
      EmptyBatch(c, ByIntent(original, target), a, notionals);
    }
  }

  lemma AttributedStep(c: Contracts, original: Lots, target: Lots, deltas: Lots, notionals: Weights,
                       buckets: map<Action, real>, s: Symbol, v: int, bucket: Action)
    requires Attributed(c, original, target, deltas, notionals, buckets) && s !in deltas
    requires v == 0 || (c.Knows(s) && Intent(c, original, target, s) == Some(bucket))
    requires bucket in NORMAL_BUCKETS
    ensures Attributed(c, original, target, deltas[s := v], notionals,
                       Credited(buckets, bucket, v, Weight(notionals, s)))
  {
    hide BatchTotal, Intent, Weight;
    forall a
      ensures BatchTotal(c, ByIntent(original, target), deltas[s := v], a, notionals)
           == BatchTotal(c, ByIntent(original, target), deltas, a, notionals)
              + (if a == bucket then (Abs(v) as real) * Weight(notionals, s) else 0.0)
    {
      BatchGrows(c, ByIntent(original, target), deltas, a, s, v, notionals);
    }
  }

  /** The loop body for one delta. */
  method AttributeOne(c: Contracts, ghost original: Lots, ghost target: Lots, originals: map<Product, (Symbol, int)>,
                      targets: map<Product, (Symbol, int)>, delta: int, notionals: Weights, ghost done: Lots,
                      result: map<Action, real>, s: Symbol)
    returns (r: Checked<map<Action, real>>)
    requires Attributed(c, original, target, done, notionals, result) && s !in done
    requires forall p :: Find(originals, p) == Position(c, original, p)
    requires forall p :: Find(targets, p) == Position(c, target, p)
    ensures r.Value? <==>
              delta == 0 || (Weight(notionals, s) > 0.0 && c.Knows(s) && Intent(c, original, target, s).Some?)
    ensures r.Value? ==> Attributed(c, original, target, done[s := delta], notionals, r.value)
  {
    hide *;
    AttributedBuckets(c, original, target, done, notionals, result);
    if delta == 0 {
      AttributedStep(c, original, target, done, notionals, result, s, 0, Roll);
      NothingAdded(result, Roll, Weight(notionals, s));
      return Value(result);
    }
    if Weight(notionals, s) <= 0.0 {
      return ValueError;
    }
    if !c.Knows(s) {
      return ValueError;
    }
    IntentIsPurpose(c, original, target, s);
    var purpose := Purpose(Find(originals, c.products[s]), Find(targets, c.products[s]));
    if purpose.None? {
      return ValueError;
    }
    SomePurpose(c, original, target, s);
    AttributedStep(c, original, target, done, notionals, result, s, delta, purpose.value);
    r := Value(Credited(result, purpose.value, delta, Weight(notionals, s)));
  }

  function Credited(buckets: map<Action, real>, bucket: Action, delta: int, weight: real): map<Action, real>
    requires bucket in buckets
  {
    buckets[bucket := buckets[bucket] + (Abs(delta) as real) * weight]
  }

  lemma NothingAdded(buckets: map<Action, real>, bucket: Action, weight: real)
    requires bucket in buckets
    ensures Credited(buckets, bucket, 0, weight) == buckets
  {
    var credited := Credited(buckets, bucket, 0, weight);
    assert (Abs(0) as real) * weight == 0.0;
    assert credited[bucket] == buckets[bucket] && credited.Keys == buckets.Keys;
    assert forall a | a in buckets :: credited[a] == buckets[a];
  }

  lemma IntentIsPurpose(c: Contracts, original: Lots, target: Lots, s: Symbol)
    requires c.Knows(s)
    ensures s in c.products
    ensures Intent(c, original, target, s)
            == Purpose(Position(c, original, c.products[s]), Position(c, target, c.products[s]))
  {
  }

  lemma AttributedBuckets(c: Contracts, original: Lots, target: Lots, deltas: Lots, w: Weights,
                          attributed: map<Action, real>)
    requires Attributed(c, original, target, deltas, w, attributed)
    ensures attributed.Keys == NORMAL_BUCKETS && Roll in attributed
  {
  }

  method AttributeRebalanceDeltas(c: Contracts, original: Lots, target: Lots, deltas: Lots, notionals: Weights)
    returns (r: Checked<map<Action, real>>)
    requires c.Holdable(original) && c.Holdable(target)
    ensures r.Value? <==> Attributable(c, original, target, deltas, notionals)
    ensures r.Value? ==> Attributed(c, original, target, deltas, notionals, r.value)
  {
    hide BatchTotal, Position, Attributed, Weight;
    var result := map a | a in NORMAL_BUCKETS :: 0.0;
    var originals := ByProduct(c, original);
    var targets := ByProduct(c, target);
    var left := deltas.Keys;
    ghost var done: Lots := map[];
    NothingAttributed(c, original, target, notionals);
    while left != {}
      invariant left <= deltas.Keys && done == deltas - left
      invariant Attributable(c, original, target, done, notionals)
      invariant Attributed(c, original, target, done, notionals, result)
      decreases left
    {
      var s :| s in left;
      left := left - {s};
      var next := AttributeOne(c, original, target, originals, targets, deltas[s], notionals, done, result, s);
      if next.ValueError? {
        return ValueError;
      }
      result := next.value;
      done := done[s := deltas[s]];
      assert done == deltas - left;
    }
    assert done == deltas;
    r := Value(result);
  }

  ghost function FiveBuckets(c: Contracts, original: Lots, target: Lots, deltas: Lots, notionals: Weights): real {
    var naming := ByIntent(original, target);
    BatchTotal(c, naming, deltas, Roll, notionals) + BatchTotal(c, naming, deltas, Resize, notionals)
    + BatchTotal(c, naming, deltas, Reversal, notionals) + BatchTotal(c, naming, deltas, Entry, notionals)
    + BatchTotal(c, naming, deltas, Exit, notionals)
  }

  /** The five purposes partition the turnover. */
  lemma {:induction false} PurposesPartition(c: Contracts, original: Lots, target: Lots, deltas: Lots,
                                             notionals: Weights)
    requires forall s | s in deltas :: c.Knows(s) && Intent(c, original, target, s).Some?
    ensures Total(deltas, notionals) == FiveBuckets(c, original, target, deltas, notionals)
    decreases |deltas|
  {
    hide Intent, BatchTotal, Cost, Abs;
    var naming := ByIntent(original, target);
    if deltas == map[] {
      forall a
        ensures BatchTotal(c, naming, deltas, a, notionals) == 0.0
      {
        EmptyBatch(c, naming, a, notionals);
      }
    } else {
      var s := Pick(deltas);
      var rest := deltas - {s};
      assert deltas == rest[s := deltas[s]];
      PurposesPartition(c, original, target, rest, notionals);
      FiveGrow(c, original, target, rest, s, deltas[s], notionals);
      CostHere(deltas, notionals, s);
      hide *;
    }
  }

  lemma CostHere(deltas: Lots, notionals: Weights, s: Symbol)
    requires s in deltas
    ensures Cost(deltas, notionals, s) == (Abs(deltas[s]) as real) * Weight(notionals, s)
  {
  }

  lemma FiveGrow(c: Contracts, original: Lots, target: Lots, deltas: Lots, s: Symbol, v: int, notionals: Weights)
    requires s !in deltas && c.Knows(s) && Intent(c, original, target, s).Some?
    ensures FiveBuckets(c, original, target, deltas[s := v], notionals)
         == FiveBuckets(c, original, target, deltas, notionals) + (Abs(v) as real) * Weight(notionals, s)
  {
    var naming := ByIntent(original, target);
    SomePurpose(c, original, target, s);
    hide Intent, BatchTotal, Abs, Weight;
    BatchGrows(c, naming, deltas, Roll, s, v, notionals);
    BatchGrows(c, naming, deltas, Resize, s, v, notionals);
    BatchGrows(c, naming, deltas, Reversal, s, v, notionals);
    BatchGrows(c, naming, deltas, Entry, s, v, notionals);
    BatchGrows(c, naming, deltas, Exit, s, v, notionals);
  }

  lemma SomePurpose(c: Contracts, original: Lots, target: Lots, s: Symbol)
    requires c.Knows(s) && Intent(c, original, target, s).Some?
    ensures Intent(c, original, target, s).value in NORMAL_BUCKETS
  {
  }

  // ---- Event rows ----

  /** The cost of a turnover. */
  function Paid(turnover: real, costRate: real): real {
    turnover * costRate
  }

  ghost predicate TradeRow(c: Contracts, starting: Lots, deltas: Lots, prices: Weights, costRate: real,
                           naming: Naming, e: Event) {
    && e.kind == Trade && e.symbol in deltas && c.Knows(e.symbol) && e.symbol in prices
    && Named(c, naming, e.symbol, e.action)
    && e.product == c.products[e.symbol]
    && e.delta == deltas[e.symbol] != 0
    && e.before == At(starting, e.symbol) && e.after == e.before + e.delta
    && e.side == ExposureSide(if e.after != 0 then e.after else e.before)
    && e.price == prices[e.symbol]
    && e.turnover == Cost(deltas, c.Notionals(prices), e.symbol)
    && e.cost == Paid(e.turnover, costRate)
    && e.pnl == 0.0
  }

  /** What a batch of trade rows adds up to. */
  ghost predicate Recorded(c: Contracts, deltas: Lots, prices: Weights, costRate: real, naming: Naming,
                           events: seq<Event>) {
    var notionals := c.Notionals(prices);
    && Sum(events, Turnover) == Total(deltas, notionals)
    && Sum(events, TransactionCost) == Paid(Total(deltas, notionals), costRate)
    && Sum(events, GrossPnl) == 0.0
    && (forall a :: Sum(events, TurnoverOf(a)) == BatchTotal(c, naming, deltas, a, notionals))
    && (forall s :: Sum(events, LotsOf(s)) == At(deltas, s) as real)
  }

  /** One row per trade, and what the rows add up to. */
  ghost predicate Audited(c: Contracts, starting: Lots, deltas: Lots, prices: Weights, costRate: real, naming: Naming,
                          rows: seq<Event>) {
    && |rows| == |deltas|
    && Rows(c, starting, deltas, prices, costRate, naming, rows)
    && Recorded(c, deltas, prices, costRate, naming, rows)
  }

  lemma RecordedStep(c: Contracts, deltas: Lots, prices: Weights, costRate: real, naming: Naming, events: seq<Event>,
                     s: Symbol, v: int, e: Event)
    requires Recorded(c, deltas, prices, costRate, naming, events) && s !in deltas
    requires e.turnover == (Abs(v) as real) * Weight(c.Notionals(prices), s)
    requires e.cost == Paid(e.turnover, costRate) && e.pnl == 0.0 && e.symbol == s && e.delta == v
    requires forall a :: Named(c, naming, s, a) <==> a == e.action
    ensures Recorded(c, deltas[s := v], prices, costRate, naming, events + [e])
  {
    hide Total, Named, Sum, BatchTotal;
    var notionals := c.Notionals(prices);
    TotalUpdated(deltas, notionals, s, v);
    assert Total(deltas[s := v], notionals) == Total(deltas, notionals) + e.turnover;
    forall column
      ensures Sum(events + [e], column) == Sum(events, column) + Amount(e, column)
    {
      SumConcat(events, [e], column);
      SumOfOne(e, column);
    }
    SpreadCost(Total(deltas, notionals), e.turnover, costRate);
    forall a
      ensures Sum(events + [e], TurnoverOf(a)) == BatchTotal(c, naming, deltas[s := v], a, notionals)
    {
      BatchGrows(c, naming, deltas, a, s, v, notionals);
    }
    forall x
      ensures Sum(events + [e], LotsOf(x)) == At(deltas[s := v], x) as real
    {
    }
  }

  lemma SpreadCost(x: real, y: real, rate: real)
    ensures Paid(x + y, rate) == Paid(x, rate) + Paid(y, rate)
  {
  }

  lemma NothingRecorded(c: Contracts, prices: Weights, costRate: real, naming: Naming)
    ensures Recorded(c, map[], prices, costRate, naming, [])
  {
    forall a
      ensures BatchTotal(c, naming, map[], a, c.Notionals(prices)) == 0.0
    {
      EmptyBatch(c, naming, a, c.Notionals(prices));
    }
  }

  ghost predicate Auditable(c: Contracts, deltas: Lots, prices: Weights, naming: Naming) {
    forall s | s in deltas :: AuditableTrade(c, prices, naming, s)
  }

  ghost predicate AuditableTrade(c: Contracts, prices: Weights, naming: Naming, s: Symbol) {
    && Weight(prices, s) > 0.0 && c.Knows(s)
    && (naming.ByIntent? ==> Intent(c, naming.original, naming.target, s).Some?)
  }

  method NameTrade(c: Contracts, naming: Naming, s: Symbol) returns (r: Checked<Action>)
    requires c.Knows(s)
    requires naming.ByIntent? ==> c.Holdable(naming.original) && c.Holdable(naming.target)
    ensures r.ValueError? <==> naming.ByIntent? && Intent(c, naming.original, naming.target, s).None?
    ensures r.Value? ==> forall a :: Named(c, naming, s, a) <==> a == r.value
  {
    match naming
    case Override(action) => r := Value(action);
    case ByIntent(original, target) => r := ClassifyRebalanceAction(c, original, target, s);
  }

  method TradeEvent(c: Contracts, starting: Lots, deltas: Lots, prices: Weights, costRate: real, naming: Naming,
                    s: Symbol)
    returns (r: Checked<Event>)
    requires s in deltas && deltas[s] != 0 && c.Knows(s)
    requires naming.ByIntent? ==> c.Holdable(naming.original) && c.Holdable(naming.target)
    ensures r.Value? <==> AuditableTrade(c, prices, naming, s)
    ensures r.Value? ==> TradeRow(c, starting, deltas, prices, costRate, naming, r.value) && r.value.symbol == s
    ensures r.Value? ==> forall a :: Named(c, naming, s, a) <==> a == r.value.action
  {
    hide Named, Intent, ExposureSide, Paid;
    var price := Weight(prices, s);
    if price <= 0.0 {
      return ValueError;
    }
    var action := NameTrade(c, naming, s);
    if action.ValueError? {
      return ValueError;
    }
    var before, delta := At(starting, s), deltas[s];
    var after := before + delta;
    var turnover := (Abs(delta) as real) * (price * c.Multiplier(s));
    r := Value(Event(Trade, action.value, c.products[s], s, ExposureSide(if after != 0 then after else before),
                     before, after, delta, price, turnover, Paid(turnover, costRate), 0.0));
  }

  /** The rows of the trades made so far, in symbol order. */
  ghost predicate Rows(c: Contracts, starting: Lots, deltas: Lots, prices: Weights, costRate: real, naming: Naming,
                       rows: seq<Event>) {
    && (forall i | 0 <= i < |rows| :: TradeRow(c, starting, deltas, prices, costRate, naming, rows[i]))
    && (forall i, j | 0 <= i < j < |rows| :: rows[i].symbol < rows[j].symbol)
  }

  /** Event rows for executed deltas, in symbol order; nothing is written for a delta of zero. */
  method TradeAuditRows(c: Contracts, starting: Lots, deltas: Lots, prices: Weights, costRate: real, naming: Naming)
    returns (r: Checked<seq<Event>>)
    requires forall s | s in deltas :: c.Knows(s)
    requires naming.ByIntent? ==> c.Holdable(naming.original) && c.Holdable(naming.target)
    ensures r.Value? <==> Auditable(c, Normalized(deltas), prices, naming)
    ensures r.Value? ==> Audited(c, starting, Normalized(deltas), prices, costRate, naming, r.value)
  {
    hide *;
    var rows: seq<Event> := [];
    var order := SortSymbols(deltas.Keys);
    ghost var live, handled, done: Lots := Normalized(deltas), [], map[];
    NothingWritten(c, starting, live, prices, costRate, naming);
    for i := 0 to |order|
      invariant Written(c, starting, live, prices, costRate, naming, handled, done, rows)
      invariant HandledOf(live, order[..i], handled)
    {
      var s := order[i];
      assert s in deltas && order[..i + 1] == order[..i] + [s];
      LiveAt(deltas, s);
      NextHandled(live, order, i, handled);
      if deltas[s] != 0 {
        var row := TradeEvent(c, starting, deltas, prices, costRate, naming, s);
        if row.ValueError? {
          NotAuditable(c, live, prices, naming, s);
          return ValueError;
        }
        LiveRow(c, starting, deltas, prices, costRate, naming, row.value);
        WrittenGrows(c, starting, live, prices, costRate, naming, handled, done, rows, s, row.value);
        done := done[s := deltas[s]];
        handled := handled + [s];
        rows := rows + [row.value];
      }
    }
    assert order[..|order|] == order;
    AllHandled(deltas, order, handled);
    AllWritten(c, starting, live, prices, costRate, naming, handled, done, rows);
    r := Value(rows);
  }

  /** The live symbols among those seen so far, in order. */
  predicate HandledOf(live: Lots, seen: seq<Symbol>, handled: seq<Symbol>) {
    && StrictlySorted(handled)
    && (forall s | s in handled :: s in seen && s in live)
    && (forall s | s in seen && s in live :: s in handled)
  }

  lemma NextHandled(live: Lots, order: seq<Symbol>, i: nat, handled: seq<Symbol>)
    requires StrictlySorted(order) && i < |order| && HandledOf(live, order[..i], handled)
    ensures order[i] !in handled
    ensures HandledOf(live, order[..i + 1], if order[i] in live then handled + [order[i]] else handled)
  {
    assert order[..i + 1] == order[..i] + [order[i]];
    forall k | 0 <= k < |handled|
      ensures handled[k] < order[i]
    {
      assert handled[k] in order[..i];
    }
  }

  lemma LiveAt(deltas: Lots, s: Symbol)
    requires s in deltas
    ensures s in Normalized(deltas) <==> deltas[s] != 0
    ensures deltas[s] != 0 ==> Normalized(deltas)[s] == deltas[s]
  {
  }

  lemma LiveRow(c: Contracts, starting: Lots, deltas: Lots, prices: Weights, costRate: real, naming: Naming, e: Event)
    requires TradeRow(c, starting, deltas, prices, costRate, naming, e)
    ensures TradeRow(c, starting, Normalized(deltas), prices, costRate, naming, e)
  {
    hide Named;
  }

  lemma AllHandled(deltas: Lots, order: seq<Symbol>, handled: seq<Symbol>)
    requires HandledOf(Normalized(deltas), order, handled) && forall s :: s in order <==> s in deltas
    ensures StrictlySorted(handled) && |handled| == |Normalized(deltas)|
    ensures forall s :: s in handled <==> s in Normalized(deltas)
  {
    SortedSize(handled, Normalized(deltas).Keys);
  }

  /** The rows of the symbols handled so far, and what they add up to. */
  ghost predicate Written(c: Contracts, starting: Lots, deltas: Lots, prices: Weights, costRate: real, naming: Naming,
                          handled: seq<Symbol>, done: Lots, rows: seq<Event>)
  {
    && (forall s :: s in done <==> s in handled)
    && (forall s | s in done :: s in deltas && done[s] == deltas[s] && AuditableTrade(c, prices, naming, s))
    && |rows| == |handled|
    && (forall k | 0 <= k < |rows| ::
        rows[k].symbol == handled[k] && TradeRow(c, starting, deltas, prices, costRate, naming, rows[k]))
    && Recorded(c, done, prices, costRate, naming, rows)
  }

  lemma NothingWritten(c: Contracts, starting: Lots, deltas: Lots, prices: Weights, costRate: real, naming: Naming)
    ensures Written(c, starting, deltas, prices, costRate, naming, [], map[], [])
    ensures forall order: seq<Symbol> :: HandledOf(deltas, order[..0], [])
  {
    NothingRecorded(c, prices, costRate, naming);
  }

  lemma WrittenGrows(c: Contracts, starting: Lots, deltas: Lots, prices: Weights, costRate: real, naming: Naming,
                     handled: seq<Symbol>, done: Lots, rows: seq<Event>, s: Symbol, e: Event)
    requires Written(c, starting, deltas, prices, costRate, naming, handled, done, rows)
    requires s !in handled && s in deltas && AuditableTrade(c, prices, naming, s)
    requires TradeRow(c, starting, deltas, prices, costRate, naming, e) && e.symbol == s
    requires forall a :: Named(c, naming, s, a) <==> a == e.action
    ensures Written(c, starting, deltas, prices, costRate, naming, handled + [s], done[s := deltas[s]], rows + [e])
  {
    hide Recorded, AuditableTrade, TradeRow, Named, Cost, Weight, Paid, Abs, Total;
    TradeAmounts(c, starting, deltas, prices, costRate, naming, e);
    RecordedStep(c, done, prices, costRate, naming, rows, s, deltas[s], e);
    HandledGrows(handled, done, s, deltas[s]);
  }

  lemma HandledGrows(handled: seq<Symbol>, done: Lots, s: Symbol, v: int)
    requires forall x :: x in done <==> x in handled
    ensures forall x :: x in done[s := v] <==> x in handled + [s]
  {
  }

  lemma AllWritten(c: Contracts, starting: Lots, deltas: Lots, prices: Weights, costRate: real, naming: Naming,
                   order: seq<Symbol>, done: Lots, rows: seq<Event>)
    requires Written(c, starting, deltas, prices, costRate, naming, order, done, rows)
    requires StrictlySorted(order) && |order| == |deltas| && forall s :: s in order <==> s in deltas
    ensures Auditable(c, deltas, prices, naming) && Audited(c, starting, deltas, prices, costRate, naming, rows)
  {
    hide Recorded, AuditableTrade, TradeRow;
    assert done == deltas;
  }

  lemma NotAuditable(c: Contracts, deltas: Lots, prices: Weights, naming: Naming, s: Symbol)
    requires s in deltas && !AuditableTrade(c, prices, naming, s)
    ensures !Auditable(c, deltas, prices, naming)
  {
    hide AuditableTrade;
  }

  lemma TradeAmounts(c: Contracts, starting: Lots, deltas: Lots, prices: Weights, costRate: real, naming: Naming,
                     e: Event)
    requires TradeRow(c, starting, deltas, prices, costRate, naming, e)
    ensures e.turnover == (Abs(deltas[e.symbol]) as real) * Weight(c.Notionals(prices), e.symbol)
    ensures e.cost == Paid(e.turnover, costRate) && e.pnl == 0.0 && e.delta == deltas[e.symbol]
  {
  }
}
