/** Whole lots from fractional ones: floors first, then one lot at a time by largest
    remainder while a limit allows it. Margin fitting awards lots under a budget; gross
    reduction restores lots while the required reduction still holds. */
module LargestRemainder {
  import opened Lots

  /** The sort key: larger remainder first, then the smaller symbol. */
  predicate Before(remainders: Weights, s: Symbol, t: Symbol) {
    Weight(remainders, s) > Weight(remainders, t) || (Weight(remainders, s) == Weight(remainders, t) && s < t)
  }

  predicate SortedByRemainder(remainders: Weights, order: seq<Symbol>) {
    forall i, j | 0 <= i < j < |order| :: Before(remainders, order[i], order[j])
  }

  /** One lot of each symbol. */
  function Ones(symbols: set<Symbol>): Lots {
    map s | s in symbols :: 1
  }

  /** The awards made before `s` was considered. */
  function AwardedBefore(remainders: Weights, awarded: set<Symbol>, s: Symbol): set<Symbol> {
    set t | t in awarded && Before(remainders, t, s)
  }

  /** A symbol gets its lot exactly when the awards before it leave room for one more. */
  ghost predicate Awards(remainders: Weights, w: Weights, start: real, limit: real, awarded: set<Symbol>) {
    && awarded <= remainders.Keys
    && (forall s | s in remainders :: AwardRule(remainders, w, start, limit, awarded, s))
  }

  lemma AwardOneMore(awarded: set<Symbol>, w: Weights, s: Symbol)
    requires s !in awarded
    ensures Total(Ones(awarded + {s}), w) == Total(Ones(awarded), w) + Weight(w, s)
  {
    assert Ones(awarded + {s}) == Ones(awarded)[s := 1];
    TotalUpdated(Ones(awarded), w, s, 1);
  }

  /** `sorted(candidates, key=lambda item: (-item[0], item[1]))` */
  method SortByRemainder(remainders: Weights) returns (order: seq<Symbol>)
    ensures SortedByRemainder(remainders, order)
    ensures forall s :: s in order <==> s in remainders
  {
    order := [];
    var left := remainders.Keys;
    while left != {}
      invariant left <= remainders.Keys && SortedByRemainder(remainders, order)
      invariant forall s :: s in order <==> s in remainders && s !in left
      invariant forall s, t | s in order && t in left :: Before(remainders, s, t)
      decreases left
    {
      var first :| first in left;
      var others := left - {first};
      while others != {}
        invariant first in left && others <= left
        invariant forall t | t in left && t !in others && t != first :: Before(remainders, first, t)
        decreases others
      {
        var t :| t in others;
        if Before(remainders, t, first) {
          first := t;
        }
        others := others - {t};
      }
      forall i | 0 <= i < |order|
        ensures Before(remainders, order[i], first)
      {
        assert order[i] in order;
      }
      order := order + [first];
      left := left - {first};
    }
  }

  /** The award rule on the first `n` symbols of an order. */
  ghost predicate AwardsUpTo(remainders: Weights, w: Weights, start: real, limit: real, awarded: set<Symbol>,
                             order: seq<Symbol>, n: nat)
  {
    forall j | 0 <= j < n && j < |order| :: AwardRule(remainders, w, start, limit, awarded, order[j])
  }

  ghost predicate AwardRule(remainders: Weights, w: Weights, start: real, limit: real, awarded: set<Symbol>,
                            s: Symbol) {
    s in awarded <==> start + Total(Ones(AwardedBefore(remainders, awarded, s)), w) + Weight(w, s) <= limit
  }

  /** The award loop: `used` grows by the weight of every symbol that still fits. */
  method AwardLots(remainders: Weights, w: Weights, start: real, limit: real)
    returns (awarded: set<Symbol>, used: real)
    ensures Awards(remainders, w, start, limit, awarded)
    ensures used == start + Total(Ones(awarded), w)
    ensures awarded != {} ==> used <= limit
  {
    hide AwardsUpTo, Weight, Before, Total;
    var order := SortByRemainder(remainders);
    awarded, used := {}, start;
    NoAwards(remainders, w, start, limit, order);
    for i := 0 to |order|
      invariant forall s | s in awarded :: s in order[..i]
      invariant used == start + Total(Ones(awarded), w)
      invariant awarded != {} ==> used <= limit
      invariant AwardsUpTo(remainders, w, start, limit, awarded, order, i)
    {
      var s := order[i];
      AwardStep(remainders, w, start, limit, awarded, order, i);
      assert order[..i + 1] == order[..i] + [s];
      if used + Weight(w, s) <= limit {
        awarded := awarded + {s};
        used := used + Weight(w, s);
      }
    }
    assert order[..|order|] == order;
    AwardsComplete(remainders, w, start, limit, awarded, order);
  }

  lemma NoAwards(remainders: Weights, w: Weights, start: real, limit: real, order: seq<Symbol>)
    ensures AwardsUpTo(remainders, w, start, limit, {}, order, 0) && Total(Ones({}), w) == 0.0
  {
  }

  lemma AwardStep(remainders: Weights, w: Weights, start: real, limit: real, awarded: set<Symbol>,
                  order: seq<Symbol>, i: nat)
    requires SortedByRemainder(remainders, order) && i < |order|
    requires forall s | s in awarded :: s in order[..i]
    requires AwardsUpTo(remainders, w, start, limit, awarded, order, i)
    ensures Total(Ones(awarded + {order[i]}), w) == Total(Ones(awarded), w) + Weight(w, order[i])
    ensures AwardsUpTo(remainders, w, start, limit,
                       if start + Total(Ones(awarded), w) + Weight(w, order[i]) <= limit
                       then awarded + {order[i]} else awarded,
                       order, i + 1)
  {
    hide Total, Before, AwardedBefore, Weight, Ones;
    AwardsBeforeAreEarlier(remainders, order, awarded, i);
    LaterAwardsDoNotMatter(remainders, order, awarded, i);
    AwardOneMore(awarded, w, order[i]);
    var fits := start + Total(Ones(awarded), w) + Weight(w, order[i]) <= limit;
    var next := if fits then awarded + {order[i]} else awarded;
    forall j | 0 <= j < i + 1
      ensures AwardRule(remainders, w, start, limit, next, order[j])
    {
      if j < i {
        assert AwardRule(remainders, w, start, limit, awarded, order[j]);
      }
    }
  }

  lemma AwardsComplete(remainders: Weights, w: Weights, start: real, limit: real, awarded: set<Symbol>,
                       order: seq<Symbol>)
    requires forall s :: s in order <==> s in remainders
    requires forall s | s in awarded :: s in order
    requires AwardsUpTo(remainders, w, start, limit, awarded, order, |order|)
    ensures Awards(remainders, w, start, limit, awarded)
  {
    hide Total, Before, AwardedBefore;
    forall s | s in remainders
      ensures AwardRule(remainders, w, start, limit, awarded, s)
    {
      var j :| 0 <= j < |order| && order[j] == s;
    }
  }

  /** When the i-th symbol is considered, all awards so far come before it. */
  lemma AwardsBeforeAreEarlier(remainders: Weights, order: seq<Symbol>, awarded: set<Symbol>, i: nat)
    requires SortedByRemainder(remainders, order) && i < |order|
    requires forall s | s in awarded :: s in order[..i]
    ensures AwardedBefore(remainders, awarded, order[i]) == awarded
    ensures order[i] !in awarded
  {
    forall s | s in awarded
      ensures Before(remainders, s, order[i]) && s != order[i]
    {
      var j :| 0 <= j < i && order[j] == s;
    }
  }

  /** An award to the i-th symbol does not count for any earlier one. */
  lemma LaterAwardsDoNotMatter(remainders: Weights, order: seq<Symbol>, awarded: set<Symbol>, i: nat)
    requires SortedByRemainder(remainders, order) && i < |order|
    ensures forall j | 0 <= j <= i ::
              AwardedBefore(remainders, awarded + {order[i]}, order[j]) == AwardedBefore(remainders, awarded, order[j])
    ensures forall j | 0 <= j < i :: order[j] != order[i]
  {
    forall j | 0 <= j <= i
      ensures !Before(remainders, order[i], order[j])
    {
      if j < i {
        assert Before(remainders, order[j], order[i]);
      }
    }
  }

  /** The greedy awards are determined by their rule. */
  lemma {:induction false} AwardsAreDetermined(remainders: Weights, w: Weights, start: real, limit: real,
                                               a: set<Symbol>, b: set<Symbol>)
    requires Awards(remainders, w, start, limit, a) && Awards(remainders, w, start, limit, b)
    ensures a == b
  {
    forall s | s in remainders
      ensures s in a <==> s in b
    {
      AwardIsDetermined(remainders, w, start, limit, a, b, s);
    }
  }

  function EarlierThan(remainders: Weights, s: Symbol): set<Symbol> {
    set t | t in remainders && Before(remainders, t, s)
  }

  lemma {:induction false} AwardIsDetermined(remainders: Weights, w: Weights, start: real, limit: real,
                                             a: set<Symbol>, b: set<Symbol>, s: Symbol)
    requires Awards(remainders, w, start, limit, a) && Awards(remainders, w, start, limit, b) && s in remainders
    ensures s in a <==> s in b
    decreases EarlierThan(remainders, s)
  {
    forall t | t in remainders && Before(remainders, t, s)
      ensures t in a <==> t in b
    {
      assert t in EarlierThan(remainders, s) && t !in EarlierThan(remainders, t);
      AwardIsDetermined(remainders, w, start, limit, a, b, t);
    }
    assert AwardedBefore(remainders, a, s) == AwardedBefore(remainders, b, s);
    assert AwardRule(remainders, w, start, limit, a, s) && AwardRule(remainders, w, start, limit, b, s);
  }

  /** Whoever got no lot would have exceeded the limit with one, also at the end. */
  lemma {:induction false} NoRoomForTheOthers(remainders: Weights, w: Weights, start: real, limit: real,
                                              awarded: set<Symbol>, s: Symbol)
    requires Awards(remainders, w, start, limit, awarded) && s in remainders && s !in awarded
    requires forall t | t in awarded :: Weight(w, t) >= 0.0
    ensures start + Total(Ones(awarded), w) + Weight(w, s) > limit
  {
    assert AwardRule(remainders, w, start, limit, awarded, s);
    TotalIsMonotone(Ones(AwardedBefore(remainders, awarded, s)), Ones(awarded), w);
  }

  /** Whoever got a lot although another one no heavier got none has the larger remainder, or an
      equal one and the smaller symbol. */
  lemma {:induction false} LargerRemainderGoesFirst(remainders: Weights, w: Weights, start: real, limit: real,
                                                    awarded: set<Symbol>, s: Symbol, t: Symbol)
    requires Awards(remainders, w, start, limit, awarded)
    requires s in remainders && s !in awarded && t in awarded && Weight(w, s) <= Weight(w, t)
    requires forall u | u in awarded :: Weight(w, u) >= 0.0
    ensures remainders[t] > remainders[s] || (remainders[t] == remainders[s] && t < s)
  {
    hide Awards, Total, AwardedBefore, Ones;
    RulesHold(remainders, w, start, limit, awarded, s, t);
    if Before(remainders, s, t) {
      EarlierAwardsWeighLess(remainders, w, awarded, s, t);
    }
  }

  lemma RulesHold(remainders: Weights, w: Weights, start: real, limit: real, awarded: set<Symbol>, s: Symbol, t: Symbol)
    requires Awards(remainders, w, start, limit, awarded) && s in remainders && t in awarded
    ensures AwardRule(remainders, w, start, limit, awarded, s) && AwardRule(remainders, w, start, limit, awarded, t)
    ensures t in remainders
  {
    hide AwardRule;
  }

  /** The awards before a symbol weigh no more than those before a later one. */
  lemma EarlierAwardsWeighLess(remainders: Weights, w: Weights, awarded: set<Symbol>, s: Symbol, t: Symbol)
    requires Before(remainders, s, t) && forall u | u in awarded :: Weight(w, u) >= 0.0
    ensures Total(Ones(AwardedBefore(remainders, awarded, s)), w)
         <= Total(Ones(AwardedBefore(remainders, awarded, t)), w)
  {
    hide Total;
    assert forall u | u in AwardedBefore(remainders, awarded, s) :: u in AwardedBefore(remainders, awarded, t);
    hide Before;
    TotalIsMonotone(Ones(AwardedBefore(remainders, awarded, s)), Ones(AwardedBefore(remainders, awarded, t)), w);
  }

  /** Awards keep to the limit; without any, the start is all there is. */
  lemma {:induction false} AwardsStayBelow(remainders: Weights, w: Weights, start: real, limit: real,
                                           awarded: set<Symbol>)
    requires Awards(remainders, w, start, limit, awarded)
    ensures awarded != {} ==> start + Total(Ones(awarded), w) <= limit
    ensures awarded == {} ==> Total(Ones(awarded), w) == 0.0
  {
    if awarded != {} {
      var last := Last(remainders, awarded);
      LastComesAfterTheOthers(remainders, awarded, last);
      hide Total, Before, AwardedBefore, Ones;
      assert AwardRule(remainders, w, start, limit, awarded, last);
      AwardOneMore(awarded - {last}, w, last);
      assert awarded - {last} + {last} == awarded;
    }
  }

  lemma LastComesAfterTheOthers(remainders: Weights, awarded: set<Symbol>, last: Symbol)
    requires last in awarded && forall s | s in awarded && s != last :: Before(remainders, s, last)
    ensures AwardedBefore(remainders, awarded, last) == awarded - {last}
  {
  }

  lemma {:induction false} Last(remainders: Weights, symbols: set<Symbol>) returns (last: Symbol)
    requires symbols != {}
    ensures last in symbols && forall s | s in symbols && s != last :: Before(remainders, s, last)
    decreases symbols
  {
    var any :| any in symbols;
    var others := symbols - {any};
    if others == {} {
      last := any;
      assert forall s | s in symbols :: s == any || s in others;
    } else {
      last := Last(remainders, others);
      assert forall s | s in symbols :: s == any || s in others;
      if Before(remainders, last, any) {
        last := any;
      }
    }
  }
}
