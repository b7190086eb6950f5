/** Signed integer lots per contract, and their weighted totals. A symbol is an ordered
    identifier; amounts of money are exact reals. */
module Lots {
  type Symbol = nat
  type Lots = map<Symbol, int>
  type Weights = map<Symbol, real>

  const EPS: real := 0.0000000001

  /** A Python call that returns or raises `ValueError`. */
  datatype Checked<+T> = Value(value: T) | ValueError {
    predicate IsFailure() { ValueError? }
    function PropagateFailure<U>(): Checked<U>
      requires ValueError?
    {
      ValueError
    }
    function Extract(): T
      requires Value?
    {
      value
    }
  }

  function Abs(x: int): nat {
    if x < 0 then -x else x
  }

  /** `lots.get(symbol, 0)` */
  function At(lots: Lots, s: Symbol): int {
    if s in lots then lots[s] else 0
  }

  /** `weights.get(symbol, 0.0)` */
  function Weight(w: Weights, s: Symbol): real {
    if s in w then w[s] else 0.0
  }

  function Cost(lots: Lots, w: Weights, s: Symbol): real {
    (Abs(At(lots, s)) as real) * Weight(w, s)
  }

  function Normalized(lots: Lots): Lots {
    map s | s in lots && lots[s] != 0 :: lots[s]
  }

  predicate NoZeros(lots: Lots) {
    forall s | s in lots :: lots[s] != 0
  }

  ghost predicate PositiveOn(w: Weights, symbols: set<Symbol>) {
    forall s | s in symbols :: s in w && w[s] > 0.0
  }

  ghost function Pick(lots: Lots): Symbol
    requires lots != map[]
    ensures Pick(lots) in lots
  {
    var s :| s in lots;
    s
  }

  /** The sum of `abs(volume) * weight` over a position dictionary. */
  ghost function Total(lots: Lots, w: Weights): real
    decreases |lots|
  {
    if lots == map[] then 0.0
    else Cost(lots, w, Pick(lots)) + Total(lots - {Pick(lots)}, w)
  }

  lemma {:induction false} TotalWithout(lots: Lots, w: Weights, s: Symbol)
    requires s in lots
    ensures Total(lots, w) == Cost(lots, w, s) + Total(lots - {s}, w)
    decreases |lots|
  {
    var p := Pick(lots);
    if p != s {
      TotalWithout(lots - {p}, w, s);
      TotalWithout(lots - {s}, w, p);
      assert lots - {p} - {s} == lots - {s} - {p};
    }
  }

  lemma TotalUpdated(lots: Lots, w: Weights, s: Symbol, v: int)
    ensures Total(lots[s := v], w) == Total(lots, w) - Cost(lots, w, s) + (Abs(v) as real) * Weight(w, s)
  {
    var after := lots[s := v];
    TotalWithout(after, w, s);
    if s in lots {
      TotalWithout(lots, w, s);
      assert after - {s} == lots - {s};
    } else {
      assert after - {s} == lots;
    }
  }

  lemma PutTotal(lots: Lots, w: Weights, s: Symbol, v: int)
    requires s !in lots
    ensures Total(lots[s := v], w) == Total(lots, w) + (Abs(v) as real) * Weight(w, s)
  {
    TotalUpdated(lots, w, s, v);
  }

  lemma TotalRemoved(lots: Lots, w: Weights, s: Symbol)
    ensures Total(lots - {s}, w) == Total(lots, w) - Cost(lots, w, s)
  {
    if s in lots {
      TotalWithout(lots, w, s);
    } else {
      assert lots - {s} == lots;
    }
  }

  lemma {:induction false} TotalIsNonNegative(lots: Lots, w: Weights)
    requires forall s | s in lots :: Weight(w, s) >= 0.0
    ensures Total(lots, w) >= 0.0
    decreases |lots|
  {
    if lots != map[] {
      TotalIsNonNegative(lots - {Pick(lots)}, w);
    }
  }

  /** A total only depends on the positions it finds, wherever they are kept. */
  lemma {:induction false} TotalIgnoresZeros(lots: Lots, w: Weights)
    ensures Total(Normalized(lots), w) == Total(lots, w)
    decreases |lots|
  {
    hide *;
    if lots == map[] {
      NothingToIgnore();
    } else {
      var p := Pick(lots);
      TotalIgnoresZeros(lots - {p}, w);
      TotalWithout(lots, w, p);
      NormalizedWithout(lots, p);
      CostIgnoresZero(lots, w, p);
      TotalRemoved(Normalized(lots), w, p);
    }
  }

  lemma NothingToIgnore()
    ensures Normalized(map[]) == map[]
  {
  }

  lemma NormalizedWithout(lots: Lots, s: Symbol)
    ensures Normalized(lots - {s}) == Normalized(lots) - {s}
  {
  }

  lemma CostIgnoresZero(lots: Lots, w: Weights, s: Symbol)
    ensures Cost(Normalized(lots), w, s) == Cost(lots, w, s)
  {
  }

  /** Totals add up over magnitudes that add up. */
  lemma {:induction false} TotalIsAdditive(sum: Lots, a: Lots, b: Lots, w: Weights)
    requires a.Keys <= sum.Keys && b.Keys <= sum.Keys
    requires forall s | s in sum :: Abs(sum[s]) == Abs(At(a, s)) + Abs(At(b, s))
    ensures Total(sum, w) == Total(a, w) + Total(b, w)
    decreases |sum|
  {
    if sum == map[] {
      assert a == map[] && b == map[];
    } else {
      var p := Pick(sum);
      CostIsAdditive(sum, a, b, w, p);
      hide Cost, Abs;
      TotalIsAdditive(sum - {p}, a - {p}, b - {p}, w);
      TotalRemoved(a, w, p);
      TotalRemoved(b, w, p);
    }
  }

  lemma CostIsAdditive(sum: Lots, a: Lots, b: Lots, w: Weights, s: Symbol)
    requires Abs(At(sum, s)) == Abs(At(a, s)) + Abs(At(b, s))
    ensures Cost(sum, w, s) == Cost(a, w, s) + Cost(b, w, s)
  {
    var x, y := Abs(At(a, s)) as real, Abs(At(b, s)) as real;
    assert (x + y) * Weight(w, s) == x * Weight(w, s) + y * Weight(w, s);
  }

  lemma {:induction false} TotalOfNothing(lots: Lots, w: Weights)
    requires forall s | s in lots :: lots[s] == 0 || Weight(w, s) == 0.0
    ensures Total(lots, w) == 0.0
    decreases |lots|
  {
    if lots != map[] {
      TotalOfNothing(lots - {Pick(lots)}, w);
    }
  }

  /** Smaller positions have smaller totals. */
  lemma {:induction false} TotalIsMonotone(less: Lots, more: Lots, w: Weights)
    requires less.Keys <= more.Keys
    requires forall s | s in more :: Weight(w, s) >= 0.0 && Abs(At(less, s)) <= Abs(more[s])
    ensures Total(less, w) <= Total(more, w)
    decreases |more|
  {
    if more != map[] {
      var p := Pick(more);
      TotalIsMonotone(less - {p}, more - {p}, w);
      TotalRemoved(less, w, p);
      CostIsMonotone(less, more, w, p);
    }
  }

  lemma CostIsMonotone(less: Lots, more: Lots, w: Weights, s: Symbol)
    requires Weight(w, s) >= 0.0 && Abs(At(less, s)) <= Abs(At(more, s))
    ensures Cost(less, w, s) <= Cost(more, w, s)
  {
    var a, b := Abs(At(less, s)) as real, Abs(At(more, s)) as real;
    assert a <= b;
    assert (b - a) * Weight(w, s) >= 0.0;
  }

  /** Totals of equal positions under equal weights are equal. */
  lemma {:induction false} TotalDependsOnWeights(lots: Lots, w: Weights, w': Weights)
    requires forall s | s in lots :: Weight(w, s) == Weight(w', s)
    ensures Total(lots, w) == Total(lots, w')
    decreases |lots|
  {
    if lots != map[] {
      TotalDependsOnWeights(lots - {Pick(lots)}, w, w');
    }
  }

  /** Totals are linear in the weights. */
  lemma {:induction false} TotalScales(lots: Lots, w: Weights, w': Weights, factor: real)
    requires forall s | s in lots :: Weight(w', s) == factor * Weight(w, s)
    ensures Total(lots, w') == factor * Total(lots, w)
    decreases |lots|
  {
    hide *;
    if lots == map[] {
      ZeroScales(factor);
      NoTotal(w);
      NoTotal(w');
    } else {
      var p := Pick(lots);
      var rest := Total(lots - {p}, w);
      TotalScales(lots - {p}, w, w', factor);
      CostScales(lots, w, w', factor, p);
      Distribute(factor, Cost(lots, w, p), rest);
      TotalWithout(lots, w, p);
      TotalWithout(lots, w', p);
    }
  }

  lemma NoTotal(w: Weights)
    ensures Total(map[], w) == 0.0
  {
  }

  lemma ZeroScales(factor: real)
    ensures factor * 0.0 == 0.0
  {
  }

  lemma Distribute(factor: real, x: real, y: real)
    ensures factor * x + factor * y == factor * (x + y)
  {
  }

  lemma CostScales(lots: Lots, w: Weights, w': Weights, factor: real, s: Symbol)
    requires Weight(w', s) == factor * Weight(w, s)
    ensures Cost(lots, w', s) == factor * Cost(lots, w, s)
  {
    var n, x := Abs(At(lots, s)) as real, Weight(w, s);
    assert n * (factor * x) == factor * (n * x);
  }

  /** The total of a dictionary, added up entry by entry in any order. */
  method Measure(lots: Lots, w: Weights) returns (total: real)
    ensures total == Total(lots, w)
  {
    hide Cost;
    total := 0.0;
    var left := lots;
    while left != map[]
      invariant left.Keys <= lots.Keys && forall s | s in left :: left[s] == lots[s]
      invariant total + Total(left, w) == Total(lots, w)
      decreases |left|
    {
      var s :| s in left;
      TotalWithout(left, w, s);
      total := total + Cost(left, w, s);
      left := left - {s};
    }
  }

  // ---- sorted() over symbols ----

  predicate StrictlySorted(symbols: seq<Symbol>) {
    forall i, j | 0 <= i < j < |symbols| :: symbols[i] < symbols[j]
  }

  method SortSymbols(symbols: set<Symbol>) returns (sorted: seq<Symbol>)
    ensures StrictlySorted(sorted) && |sorted| == |symbols|
    ensures forall s :: s in sorted <==> s in symbols
  {
    sorted := [];
    var left := symbols;
    while left != {}
      invariant StrictlySorted(sorted) && left <= symbols && |sorted| + |left| == |symbols|
      invariant forall s :: s in sorted <==> s in symbols && s !in left
      invariant forall s, t | s in sorted && t in left :: s < t
      decreases left
    {
      var least :| least in left;
      var others := left - {least};
      while others != {}
        invariant least in left && others <= left
        invariant forall t | t in left && t !in others :: least <= t
        decreases others
      {
        var t :| t in others;
        if t < least {
          least := t;
        }
        others := others - {t};
      }
      forall i | 0 <= i < |sorted|
        ensures sorted[i] < least
      {
        assert sorted[i] in sorted;
      }
      sorted := sorted + [least];
      left := left - {least};
    }
  }

  /** The first `i` symbols of an order. */
  ghost function Passed(order: seq<Symbol>, i: nat): set<Symbol>
    requires i <= |order|
  {
    set k | 0 <= k < i :: order[k]
  }

  lemma NonePassed(order: seq<Symbol>)
    ensures Passed(order, 0) == {}
  {
  }

  lemma OneMorePassed(order: seq<Symbol>, i: nat)
    requires StrictlySorted(order) && i < |order|
    ensures order[i] !in Passed(order, i) && Passed(order, i + 1) == Passed(order, i) + {order[i]}
  {
  }

  lemma AllPassed(order: seq<Symbol>, symbols: set<Symbol>)
    requires forall s :: s in order <==> s in symbols
    ensures Passed(order, |order|) == symbols
  {
    forall s | s in symbols
      ensures s in Passed(order, |order|)
    {
      assert s in order;
    }
  }

  lemma {:induction false} SortedSize(sorted: seq<Symbol>, symbols: set<Symbol>)
    requires StrictlySorted(sorted) && forall s :: s in sorted <==> s in symbols
    ensures |sorted| == |symbols|
  {
    if sorted == [] {
      assert symbols == {};
    } else {
      var front, last := sorted[..|sorted| - 1], sorted[|sorted| - 1];
      assert sorted == front + [last];
      forall s
        ensures s in front <==> s in symbols - {last}
      {
      }
      SortedSize(front, symbols - {last});
    }
  }
}
