/** Reduction-first rebalancing: plan, apply, admit, and the construction of target lots. */
module Rebalance {
  import opened Lots
  import opened GrossReduction

  // ---- rebalance_plan ----

  datatype RebalancePlan = RebalancePlan(reductions: Lots, openings: Lots)

  /** The step towards `target` that only takes risk off: close what is unwanted or turned
      around, trim what is too large. */
  function ReductionStep(have: int, target: int): int {
    if have == 0 then 0
    else if target == 0 || (have > 0) != (target > 0) then -have
    else if Abs(target) < Abs(have) then target - have
    else 0
  }

  /** The step towards `target` that only adds to a flat or agreeing position. */
  function OpeningStep(have: int, target: int): int {
    if have == 0 then target
    else if target != 0 && (have > 0) == (target > 0) && Abs(target) > Abs(have) then target - have
    else 0
  }

  function ReductionsOver(symbols: set<Symbol>, current: Lots, target: Lots): Lots {
    map s | s in symbols && ReductionStep(At(current, s), At(target, s)) != 0 ::
          ReductionStep(At(current, s), At(target, s))
  }

  function OpeningsOver(symbols: set<Symbol>, current: Lots, target: Lots): Lots {
    map s | s in symbols && OpeningStep(At(current, s), At(target, s)) != 0 ::
          OpeningStep(At(current, s), At(target, s))
  }

  function Reductions(current: Lots, target: Lots): Lots {
    ReductionsOver(current.Keys + target.Keys, current, target)
  }

  function Openings(current: Lots, target: Lots): Lots {
    OpeningsOver(current.Keys + target.Keys, current, target)
  }

  lemma OneSymbolMore(symbols: set<Symbol>, current: Lots, target: Lots, s: Symbol)
    requires s !in symbols
    ensures ReductionsOver(symbols + {s}, current, target)
         == if ReductionStep(At(current, s), At(target, s)) == 0 then ReductionsOver(symbols, current, target)
            else ReductionsOver(symbols, current, target)[s := ReductionStep(At(current, s), At(target, s))]
    ensures OpeningsOver(symbols + {s}, current, target)
         == if OpeningStep(At(current, s), At(target, s)) == 0 then OpeningsOver(symbols, current, target)
            else OpeningsOver(symbols, current, target)[s := OpeningStep(At(current, s), At(target, s))]
  {
  }

  /** Openings wait until there is nothing left to reduce. */
  method PlanRebalance(current: Lots, target: Lots) returns (plan: RebalancePlan)
    ensures plan.reductions == Reductions(current, target)
    ensures plan.openings == if plan.reductions == map[] then Openings(current, target) else map[]
  {
    hide *;
    var reductions: Lots, openings: Lots := map[], map[];
    var order := SortSymbols(current.Keys + target.Keys);
    NonePassed(order);
    NoSteps(current, target);
    for i := 0 to |order|
      invariant reductions == ReductionsOver(Passed(order, i), current, target)
      invariant openings == OpeningsOver(Passed(order, i), current, target)
    {
      var s := order[i];
      OneMorePassed(order, i);
      OneSymbolMore(Passed(order, i), current, target, s);
      var have, wanted := At(current, s), At(target, s);
      StepCases(have, wanted);
      if have != wanted {
        if have == 0 {
          if wanted != 0 {
            openings := openings[s := wanted];
          }
        } else if wanted == 0 || (have > 0) != (wanted > 0) {
          reductions := reductions[s := -have];
        } else if Abs(wanted) < Abs(have) {
          reductions := reductions[s := wanted - have];
        } else if Abs(wanted) > Abs(have) {
          openings := openings[s := wanted - have];
        }
      }
    }
    AllPassed(order, current.Keys + target.Keys);
    AllSteps(current, target);
    plan := RebalancePlan(reductions, if reductions == map[] then openings else map[]);
  }

  /** The steps of one symbol, branch by branch. */
  lemma StepCases(have: int, wanted: int)
    ensures have == wanted ==> ReductionStep(have, wanted) == 0 == OpeningStep(have, wanted)
    ensures have == 0 ==> ReductionStep(have, wanted) == 0 && OpeningStep(have, wanted) == wanted
    ensures have != 0 && (wanted == 0 || (have > 0) != (wanted > 0)) ==>
              ReductionStep(have, wanted) == -have != 0 && OpeningStep(have, wanted) == 0
    ensures have != 0 && wanted != 0 && (have > 0) == (wanted > 0) && Abs(wanted) < Abs(have) ==>
              ReductionStep(have, wanted) == wanted - have != 0 && OpeningStep(have, wanted) == 0
    ensures have != 0 && wanted != 0 && (have > 0) == (wanted > 0) && Abs(wanted) > Abs(have) ==>
              ReductionStep(have, wanted) == 0 && OpeningStep(have, wanted) == wanted - have != 0
    ensures have != 0 && wanted != 0 && (have > 0) == (wanted > 0) && Abs(wanted) == Abs(have) ==> have == wanted
  {
  }

  lemma AllSteps(current: Lots, target: Lots)
    ensures Reductions(current, target) == ReductionsOver(current.Keys + target.Keys, current, target)
    ensures Openings(current, target) == OpeningsOver(current.Keys + target.Keys, current, target)
  {
    hide ReductionsOver, OpeningsOver;
  }

  lemma NoSteps(current: Lots, target: Lots)
    ensures ReductionsOver({}, current, target) == map[] && OpeningsOver({}, current, target) == map[]
  {
  }

  /** `_apply_deltas`: positions change one by one and are dropped at zero. */
  method ApplyDeltas(lots: Lots, deltas: Lots) returns (after: Lots)
    requires NoZeros(lots)
    ensures after == AfterDeltas(lots, deltas)
  {
    after := lots;
    var left := deltas.Keys;
    while left != {}
      invariant left <= deltas.Keys
      invariant after == map s | && s in lots.Keys + deltas.Keys
                                 && At(lots, s) + (if s in left then 0 else At(deltas, s)) != 0 ::
                           At(lots, s) + (if s in left then 0 else At(deltas, s))
      decreases left
    {
      var s :| s in left;
      left := left - {s};
      var v := At(after, s) + deltas[s];
      after := if v == 0 then after - {s} else after[s := v];
    }
  }

  ghost function AfterReductions(current: Lots, target: Lots): Lots {
    AfterDeltas(current, Reductions(current, target))
  }

  /** The reduction phase never grows or turns a position, and leaves nothing more to reduce;
      the opening phase then lands exactly on the target. */
  lemma {:induction false} TwoPhases(current: Lots, target: Lots)
    requires NoZeros(current)
    ensures Shrinks(current, Reductions(current, target))
    ensures Reductions(AfterReductions(current, target), target) == map[]
    ensures AfterDeltas(AfterReductions(current, target), Openings(AfterReductions(current, target), target))
            == Normalized(target)
  {
    var reductions := Reductions(current, target);
    var after := AfterReductions(current, target);
    forall s: Symbol
      ensures At(after, s) == At(current, s) + ReductionStep(At(current, s), At(target, s))
    {
      assert At(reductions, s) == ReductionStep(At(current, s), At(target, s));
    }
    forall s | s in after.Keys + target.Keys
      ensures ReductionStep(At(after, s), At(target, s)) == 0
    {
      assert At(after, s) == At(current, s) + ReductionStep(At(current, s), At(target, s));
    }
    AfterOpenings(after, target);
  }

  lemma AfterOpenings(current: Lots, target: Lots)
    requires NoZeros(current) && Reductions(current, target) == map[]
    ensures AfterDeltas(current, Openings(current, target)) == Normalized(target)
    ensures forall s | s in current ::
              s in target && (current[s] > 0) == (target[s] > 0) && Abs(current[s]) <= Abs(target[s])
  {
    hide *;
    var after := AfterDeltas(current, Openings(current, target));
    forall s: Symbol
      ensures At(after, s) == At(target, s)
      ensures s in current ==>
                s in target && (current[s] > 0) == (target[s] > 0) && Abs(current[s]) <= Abs(target[s])
    {
      StepAt(current, target, s);
      AfterAt(current, Openings(current, target), s);
      NothingReducedAt(current, target, s);
      OpeningLands(At(current, s), At(target, s));
      PositionAt(current, target, s);
    }
    NothingKeptAtZero(current, Openings(current, target));
    SamePositions(after, target);
  }

  lemma NothingReducedAt(current: Lots, target: Lots, s: Symbol)
    requires Reductions(current, target) == map[]
    ensures At(Reductions(current, target), s) == 0
  {
    hide Reductions;
  }

  /** With nothing to reduce, the opening step lands on the target. */
  lemma OpeningLands(have: int, wanted: int)
    requires ReductionStep(have, wanted) == 0
    ensures have + OpeningStep(have, wanted) == wanted
    ensures have != 0 ==> wanted != 0 && (have > 0) == (wanted > 0) && Abs(have) <= Abs(wanted)
  {
    StepCases(have, wanted);
  }

  lemma PositionAt(current: Lots, target: Lots, s: Symbol)
    requires NoZeros(current)
    requires At(current, s) != 0 ==>
               && At(target, s) != 0 && (At(current, s) > 0) == (At(target, s) > 0)
               && Abs(At(current, s)) <= Abs(At(target, s))
    ensures s in current ==>
              s in target && (current[s] > 0) == (target[s] > 0) && Abs(current[s]) <= Abs(target[s])
  {
  }

  lemma NothingKeptAtZero(lots: Lots, deltas: Lots)
    ensures NoZeros(AfterDeltas(lots, deltas))
  {
  }

  lemma SamePositions(lots: Lots, target: Lots)
    requires NoZeros(lots) && forall s: Symbol :: At(lots, s) == At(target, s)
    ensures lots == Normalized(target)
  {
    forall s
      ensures s in lots <==> s in Normalized(target)
      ensures s in lots ==> lots[s] == Normalized(target)[s]
    {
      assert At(lots, s) == At(target, s);
    }
  }

  /** Trades of both phases, per symbol. */
  function Merged(a: Lots, b: Lots): Lots {
    map s | s in a.Keys + b.Keys :: At(a, s) + At(b, s)
  }

  lemma StepAt(current: Lots, target: Lots, s: Symbol)
    ensures At(Reductions(current, target), s) == ReductionStep(At(current, s), At(target, s))
    ensures At(Openings(current, target), s) == OpeningStep(At(current, s), At(target, s))
    ensures s in Reductions(current, target) ==> Reductions(current, target)[s] != 0
    ensures s in Openings(current, target) ==> Openings(current, target)[s] != 0
  {
  }

  lemma AfterAt(lots: Lots, deltas: Lots, s: Symbol)
    ensures At(AfterDeltas(lots, deltas), s) == At(lots, s) + At(deltas, s)
  {
  }

  /** A symbol traded in both phases was turned around, so the two turnovers simply add up. */
  lemma {:induction false} PhasesAddUp(current: Lots, target: Lots, w: Weights)
    requires NoZeros(current)
    ensures var reductions := Reductions(current, target);
            var openings := Openings(AfterReductions(current, target), target);
            && (forall s | s in Merged(reductions, openings) ::
                  Abs(At(reductions, s) + At(openings, s)) == Abs(At(reductions, s)) + Abs(At(openings, s)) != 0)
            && Total(Merged(reductions, openings), w) == Total(reductions, w) + Total(openings, w)
  {
    var reductions := Reductions(current, target);
    var after := AfterReductions(current, target);
    var openings := Openings(after, target);
    forall s
      ensures Abs(At(reductions, s) + At(openings, s)) == Abs(At(reductions, s)) + Abs(At(openings, s))
      ensures s in reductions.Keys + openings.Keys ==> Abs(At(reductions, s)) + Abs(At(openings, s)) != 0
    {
      hide Reductions, Openings, ReductionStep, OpeningStep, AfterDeltas;
      StepAt(current, target, s);
      StepAt(after, target, s);
      AfterAt(current, reductions, s);
      StepsAddUp(At(current, s), At(target, s));
    }
    hide *;
    MergedTotals(reductions, openings, w);
  }

  /** What one symbol is reduced by and then opened by has one direction. */
  lemma StepsAddUp(have: int, target: int)
    ensures var cut := ReductionStep(have, target);
            var add := OpeningStep(have + cut, target);
            Abs(cut + add) == Abs(cut) + Abs(add)
  {
  }

  lemma MergedTotals(a: Lots, b: Lots, w: Weights)
    requires forall s | s in a.Keys + b.Keys :: Abs(At(a, s) + At(b, s)) == Abs(At(a, s)) + Abs(At(b, s))
    ensures Total(Merged(a, b), w) == Total(a, w) + Total(b, w)
    ensures Merged(a, b).Keys == a.Keys + b.Keys
  {
    hide Abs, At, Total;
    TotalIsAdditive(Merged(a, b), a, b, w);
  }
}
