/** Scaling signed integer positions down to whole lots, and the margin-budget fit that
    is built on it. */
module MarginFit {
  import opened Lots
  import opened LargestRemainder

  /** `floor(abs(volume) * scale)` */
  function FloorLots(volume: int, scale: real): nat
    requires scale >= 0.0
  {
    assert (Abs(volume) as real) * scale >= 0.0;
    ((Abs(volume) as real) * scale).Floor
  }

  function Floors(lots: Lots, scale: real): Lots
    requires scale >= 0.0
  {
    map s | s in lots :: FloorLots(lots[s], scale)
  }

  /** The fractional parts of the symbols that lost something. */
  function Remainders(lots: Lots, scale: real): Weights
    requires scale >= 0.0
  {
    map s | s in lots && FloorLots(lots[s], scale) < Abs(lots[s]) ::
      Remainder(lots[s], scale)
  }

  function Remainder(volume: int, scale: real): real
    requires scale >= 0.0
  {
    (Abs(volume) as real) * scale - (FloorLots(volume, scale) as real)
  }

  function Signed(sign: int, magnitude: nat): int {
    var whole: int := magnitude;
    if sign > 0 then whole else -whole
  }

  function ScaledVolume(lots: Lots, scale: real, awarded: set<Symbol>, s: Symbol): int
    requires scale >= 0.0 && s in lots
  {
    Signed(lots[s], FloorLots(lots[s], scale) + if s in awarded then 1 else 0)
  }

  /** The floors with one lot more for every awarded symbol, under the original signs. */
  function Scaled(lots: Lots, scale: real, awarded: set<Symbol>): Lots
    requires scale >= 0.0
  {
    map s | s in lots :: ScaledVolume(lots, scale, awarded, s)
  }

  /** Same direction as requested, and no larger. */
  predicate Within(less: Lots, more: Lots) {
    forall s | s in less ::
      && s in more
      && (less[s] == 0 || (less[s] > 0) == (more[s] > 0))
      && Abs(less[s]) <= Abs(more[s])
  }

  lemma {:induction false} WithinTotal(less: Lots, more: Lots, w: Weights)
    requires Within(less, more) && forall s | s in more :: Weight(w, s) >= 0.0
    ensures Total(less, w) <= Total(more, w)
  {
    TotalIsMonotone(less, more, w);
  }

  lemma FloorIsBelow(n: nat, scale: real)
    requires 0.0 <= scale < 1.0 && n > 0
    ensures (n as real) * scale < n as real
    ensures ((n as real) * scale).Floor < n
  {
    assert (n as real) * (1.0 - scale) > 0.0;
  }

  /** Every award goes to a symbol that lost something, so nothing ever grows. */
  lemma ScaledIsWithin(lots: Lots, scale: real, awarded: set<Symbol>)
    requires scale >= 0.0 && awarded <= Remainders(lots, scale).Keys
    requires forall s | s in lots :: FloorLots(lots[s], scale) <= Abs(lots[s])
    ensures Within(Scaled(lots, scale, awarded), lots)
  {
  }

  lemma FloorsAreWithin(lots: Lots, scale: real)
    requires 0.0 <= scale < 1.0 && NoZeros(lots)
    ensures forall s | s in lots :: FloorLots(lots[s], scale) < Abs(lots[s])
    ensures Remainders(lots, scale).Keys == lots.Keys
  {
    forall s | s in lots
      ensures FloorLots(lots[s], scale) < Abs(lots[s])
    {
      FloorIsBelow(Abs(lots[s]), scale);
    }
  }

  lemma ScaledTotal(lots: Lots, scale: real, awarded: set<Symbol>, w: Weights)
    requires scale >= 0.0 && awarded <= lots.Keys
    ensures Total(Scaled(lots, scale, awarded), w) == Total(Floors(lots, scale), w) + Total(Ones(awarded), w)
  {
    TotalIsAdditive(Scaled(lots, scale, awarded), Floors(lots, scale), Ones(awarded), w);
  }

  /** Floors never exceed the proportional share of the total. */
  lemma {:induction false} FloorsTotal(lots: Lots, scale: real, w: Weights)
    requires scale >= 0.0 && forall s | s in lots :: Weight(w, s) >= 0.0
    ensures Total(Floors(lots, scale), w) <= scale * Total(lots, w)
    decreases |lots|
  {
    hide Cost, FloorLots, Weight;
    if lots == map[] {
      assert Floors(lots, scale) == map[];
      ZeroScales(scale);
    } else {
      var p := Pick(lots);
      FloorsTotal(lots - {p}, scale, w);
      assert Floors(lots, scale) - {p} == Floors(lots - {p}, scale);
      TotalWithout(Floors(lots, scale), w, p);
      FloorCost(lots, scale, w, p);
      Distribute(scale, Cost(lots, w, p), Total(lots - {p}, w));
    }
  }

  lemma FloorCost(lots: Lots, scale: real, w: Weights, s: Symbol)
    requires scale >= 0.0 && Weight(w, s) >= 0.0 && s in lots
    ensures Cost(Floors(lots, scale), w, s) <= scale * Cost(lots, w, s)
  {
    FloorTimesWeight(Abs(lots[s]) as real, scale, Weight(w, s));
  }

  lemma FloorTimesWeight(n: real, scale: real, weight: real)
    requires scale >= 0.0 && weight >= 0.0
    ensures ((n * scale).Floor as real) * weight <= scale * (n * weight)
  {
    var ideal := n * scale;
    assert (ideal - (ideal.Floor as real)) * weight >= 0.0;
    assert ideal * weight == scale * (n * weight);
  }

  // ---- fit_target_lots_to_margin_budget ----

  /** A budget a caller may not ask for, or a requested symbol without usable margin evidence. */
  predicate RefusesToFit(target: Lots, margins: Weights, budget: real) {
    budget < 0.0 || exists s | s in target :: target[s] != 0 && Weight(margins, s) <= 0.0
  }

  /** What the fit decides about the requested non-zero lots. */
  ghost predicate Fits(requested: Lots, margins: Weights, budget: real, fitted: Lots)
    requires NoZeros(requested) && PositiveOn(margins, requested.Keys) && budget >= 0.0
  {
    if requested == map[] || budget == 0.0 then
      fitted == map[]
    else if Total(requested, margins) <= budget + EPS then
      fitted == requested
    else
      exists awarded :: FitsWith(requested, margins, budget, FitScale(requested, margins, budget), awarded, fitted)
  }

  /** The budget as a share of the requested margin. */
  ghost function FitScale(requested: Lots, margins: Weights, budget: real): (scale: real)
    requires 0.0 <= budget < Total(requested, margins)
    ensures 0.0 <= scale < 1.0
  {
    ScaleTimesTotal(budget, Total(requested, margins));
    budget / Total(requested, margins)
  }

  ghost predicate FitsWith(requested: Lots, margins: Weights, budget: real, scale: real, awarded: set<Symbol>,
                           fitted: Lots)
    requires scale >= 0.0
  {
    && Awards(Remainders(requested, scale), margins, Total(Floors(requested, scale), margins), budget + EPS, awarded)
    && fitted == Normalized(Scaled(requested, scale, awarded))
  }

  lemma ScaleTimesTotal(budget: real, total: real)
    requires 0.0 <= budget < total
    ensures budget / total * total == budget
    ensures 0.0 <= budget / total < 1.0
  {
    var scale := budget / total;
    assert scale * total == budget;
    Share(scale, total);
  }

  lemma Share(scale: real, total: real)
    requires total > 0.0
    ensures scale < 0.0 ==> scale * total < 0.0
    ensures scale >= 1.0 ==> scale * total >= total
  {
    if scale >= 1.0 {
      assert (scale - 1.0) * total >= 0.0;
    }
  }

  /** What scaling leaves is the floors and the awarded lots. */
  lemma FitParts(requested: Lots, margins: Weights, budget: real, scale: real, awarded: set<Symbol>, fitted: Lots)
    requires NoZeros(requested) && 0.0 <= scale < 1.0
    requires FitsWith(requested, margins, budget, scale, awarded, fitted)
    ensures Within(fitted, requested) && NoZeros(fitted)
    ensures Awards(Remainders(requested, scale), margins, Total(Floors(requested, scale), margins), budget + EPS,
                   awarded)
    ensures Remainders(requested, scale).Keys == requested.Keys
    ensures Total(fitted, margins) == Total(Floors(requested, scale), margins) + Total(Ones(awarded), margins)
  {
    hide FloorLots, Total, AwardRule;
    FloorsAreWithin(requested, scale);
    ScaledIsWithin(requested, scale, awarded);
    ScaledTotal(requested, scale, awarded, margins);
    TotalIgnoresZeros(Scaled(requested, scale, awarded), margins);
  }

  /** Fitting only shrinks, keeps signs and meets the budget. */
  lemma {:induction false} FitMeetsBudget(requested: Lots, margins: Weights, budget: real, fitted: Lots)
    requires NoZeros(requested) && PositiveOn(margins, requested.Keys) && budget >= 0.0
    requires Fits(requested, margins, budget, fitted)
    ensures Within(fitted, requested) && NoZeros(fitted)
    ensures Total(fitted, margins) <= budget + EPS
    ensures budget > 0.0 && Total(requested, margins) <= budget + EPS ==> fitted == requested
    ensures budget == 0.0 ==> fitted == map[]
  {
    var total := Total(requested, margins);
    if requested != map[] && budget != 0.0 && total > budget + EPS {
      var scale := FitScale(requested, margins, budget);
      var awarded :| FitsWith(requested, margins, budget, scale, awarded, fitted);
      hide *;
      ScaledMeetsBudget(requested, margins, budget, scale, awarded, fitted);
    }
  }

  lemma FloorsMeetBudget(requested: Lots, margins: Weights, budget: real)
    requires PositiveOn(margins, requested.Keys) && 0.0 <= budget < Total(requested, margins)
    ensures Total(Floors(requested, FitScale(requested, margins, budget)), margins) <= budget
  {
    ScaleTimesTotal(budget, Total(requested, margins));
    FloorsTotal(requested, FitScale(requested, margins, budget), margins);
  }

  lemma ToleranceIsPositive()
    ensures EPS > 0.0
  {
  }

  lemma ScaledMeetsBudget(requested: Lots, margins: Weights, budget: real, scale: real, awarded: set<Symbol>,
                          fitted: Lots)
    requires NoZeros(requested) && PositiveOn(margins, requested.Keys)
    requires 0.0 <= budget < Total(requested, margins) && scale == FitScale(requested, margins, budget)
    requires FitsWith(requested, margins, budget, scale, awarded, fitted)
    ensures Within(fitted, requested) && NoZeros(fitted)
    ensures Total(fitted, margins) <= budget + EPS
  {
    hide *;
    ToleranceIsPositive();
    FloorsMeetBudget(requested, margins, budget);
    FitParts(requested, margins, budget, scale, awarded, fitted);
    AwardsStayBelow(Remainders(requested, scale), margins, Total(Floors(requested, scale), margins),
                    budget + EPS, awarded);
  }

  /** On the scaled path every symbol gets the floor of its proportional ideal or one more, and a
      symbol left at its floor has no room for another lot. */
  lemma {:induction false} FitLeavesNoRoom(requested: Lots, margins: Weights, budget: real, fitted: Lots, s: Symbol)
    requires NoZeros(requested) && PositiveOn(margins, requested.Keys) && 0.0 < budget
    requires Total(requested, margins) > budget + EPS
    requires Fits(requested, margins, budget, fitted) && s in requested
    ensures var floor := ((Abs(requested[s]) as real) * (budget / Total(requested, margins))).Floor;
            && floor <= Abs(At(fitted, s)) <= floor + 1
            && (Abs(At(fitted, s)) == floor ==> Total(fitted, margins) + margins[s] > budget + EPS)
  {
    hide *;
    ToleranceIsPositive();
    var awarded := Scaling(requested, margins, budget, fitted);
    var scale := FitScale(requested, margins, budget);
    Ideal(requested, margins, budget, s);
    RoomFor(requested, margins, budget, scale, awarded, fitted, s);
  }

  /** The scaled path was taken, with these awards. */
  lemma Scaling(requested: Lots, margins: Weights, budget: real, fitted: Lots) returns (awarded: set<Symbol>)
    requires NoZeros(requested) && PositiveOn(margins, requested.Keys) && 0.0 < budget
    requires Total(requested, margins) > budget + EPS && requested != map[]
    requires Fits(requested, margins, budget, fitted)
    ensures budget < Total(requested, margins)
    ensures FitsWith(requested, margins, budget, FitScale(requested, margins, budget), awarded, fitted)
  {
    hide FitScale, FitsWith, Total;
    awarded :| FitsWith(requested, margins, budget, FitScale(requested, margins, budget), awarded, fitted);
  }

  /** The proportional ideal of a symbol, its floor and its fraction. */
  lemma Ideal(requested: Lots, margins: Weights, budget: real, s: Symbol)
    requires 0.0 < budget < Total(requested, margins) && s in requested
    ensures var ideal := (Abs(requested[s]) as real) * (budget / Total(requested, margins));
            && FloorLots(requested[s], FitScale(requested, margins, budget)) == ideal.Floor
            && Remainder(requested[s], FitScale(requested, margins, budget)) == ideal - (ideal.Floor as real)
  {
    hide Total;
  }

  /** Of two symbols, the one no heavier that stays at its floor while the other gets a lot more has
      the smaller fraction, or an equal one and the larger name. */
  lemma {:induction false} FitPrefersLargerFractions(requested: Lots, margins: Weights, budget: real, fitted: Lots,
                                                     s: Symbol, t: Symbol)
    requires NoZeros(requested) && PositiveOn(margins, requested.Keys) && 0.0 < budget
    requires Total(requested, margins) > budget + EPS && Fits(requested, margins, budget, fitted)
    requires s in requested && t in requested && margins[s] <= margins[t]
    ensures var share := budget / Total(requested, margins);
            var less, more := (Abs(requested[s]) as real) * share, (Abs(requested[t]) as real) * share;
            Abs(At(fitted, s)) == less.Floor && Abs(At(fitted, t)) == more.Floor + 1 ==>
              || more - (more.Floor as real) > less - (less.Floor as real)
              || (more - (more.Floor as real) == less - (less.Floor as real) && t < s)
  {
    hide *;
    ToleranceIsPositive();
    var awarded := Scaling(requested, margins, budget, fitted);
    var scale := FitScale(requested, margins, budget);
    Ideal(requested, margins, budget, s);
    Ideal(requested, margins, budget, t);
    LargerFractionFirst(requested, margins, budget, scale, awarded, fitted, s, t);
  }

  lemma LargerFractionFirst(requested: Lots, margins: Weights, budget: real, scale: real, awarded: set<Symbol>,
                            fitted: Lots, s: Symbol, t: Symbol)
    requires NoZeros(requested) && PositiveOn(margins, requested.Keys) && 0.0 <= scale < 1.0
    requires FitsWith(requested, margins, budget, scale, awarded, fitted)
    requires s in requested && t in requested && margins[s] <= margins[t]
    ensures var less, more := Remainder(requested[s], scale), Remainder(requested[t], scale);
            && Abs(At(fitted, s)) == FloorLots(requested[s], scale)
            && Abs(At(fitted, t)) == FloorLots(requested[t], scale) + 1 ==>
              more > less || (more == less && t < s)
  {
    hide *;
    FitParts(requested, margins, budget, scale, awarded, fitted);
    FittedVolume(requested, margins, budget, scale, awarded, fitted, s);
    FittedVolume(requested, margins, budget, scale, awarded, fitted, t);
    AwardsInside(requested, margins, budget, scale, awarded);
    AwardsArePositive(requested, margins, awarded);
    if s !in awarded && t in awarded {
      LargerRemainderGoesFirst(Remainders(requested, scale), margins, Total(Floors(requested, scale), margins),
                               budget + EPS, awarded, s, t);
    }
  }

  lemma FittedVolume(requested: Lots, margins: Weights, budget: real, scale: real, awarded: set<Symbol>,
                     fitted: Lots, s: Symbol)
    requires scale >= 0.0 && FitsWith(requested, margins, budget, scale, awarded, fitted)
    requires s in Remainders(requested, scale)
    ensures s in requested && Remainders(requested, scale)[s] == Remainder(requested[s], scale)
    ensures Abs(At(fitted, s)) == FloorLots(requested[s], scale) + if s in awarded then 1 else 0
  {
    hide FloorLots, Total, Awards, Remainder;
  }

  lemma AwardsInside(requested: Lots, margins: Weights, budget: real, scale: real, awarded: set<Symbol>)
    requires scale >= 0.0 && Remainders(requested, scale).Keys == requested.Keys
    requires Awards(Remainders(requested, scale), margins, Total(Floors(requested, scale), margins), budget + EPS,
                    awarded)
    ensures awarded <= requested.Keys
  {
    hide Remainders, AwardRule, Total, Floors;
  }

  lemma AwardsArePositive(requested: Lots, margins: Weights, awarded: set<Symbol>)
    requires PositiveOn(margins, requested.Keys) && awarded <= requested.Keys
    ensures forall u | u in awarded :: Weight(margins, u) >= 0.0
    ensures forall u | u in requested :: Weight(margins, u) == margins[u]
  {
  }

  lemma RoomFor(requested: Lots, margins: Weights, budget: real, scale: real, awarded: set<Symbol>, fitted: Lots,
                s: Symbol)
    requires NoZeros(requested) && PositiveOn(margins, requested.Keys) && 0.0 <= scale < 1.0 && s in requested
    requires FitsWith(requested, margins, budget, scale, awarded, fitted)
    ensures var floor := FloorLots(requested[s], scale);
            && floor <= Abs(At(fitted, s)) <= floor + 1
            && (Abs(At(fitted, s)) == floor ==> Total(fitted, margins) + margins[s] > budget + EPS)
  {
    hide FloorLots, Total, AwardRule, Within;
    FitParts(requested, margins, budget, scale, awarded, fitted);
    if s !in awarded {
      NoRoomForTheOthers(Remainders(requested, scale), margins, Total(Floors(requested, scale), margins),
                         budget + EPS, awarded, s);
    }
  }

  /** The fit is a function of its inputs. */
  lemma {:induction false} FitIsDetermined(requested: Lots, margins: Weights, budget: real, a: Lots, b: Lots)
    requires NoZeros(requested) && PositiveOn(margins, requested.Keys) && budget >= 0.0
    requires Fits(requested, margins, budget, a) && Fits(requested, margins, budget, b)
    ensures a == b
  {
    var total := Total(requested, margins);
    if requested != map[] && budget != 0.0 && total > budget + EPS {
      var scale := FitScale(requested, margins, budget);
      var x :| FitsWith(requested, margins, budget, scale, x, a);
      var y :| FitsWith(requested, margins, budget, scale, y, b);
      hide FitScale, Total, Floors, Remainders, Awards, Scaled;
      AwardsAreDetermined(Remainders(requested, scale), margins, Total(Floors(requested, scale), margins),
                          budget + EPS, x, y);
    }
  }

  /** The loop of `fit_target_lots_to_margin_budget` that collects the requested lots. */
  method CollectRequested(target: Lots, margins: Weights) returns (r: Checked<Lots>)
    ensures r.ValueError? <==> exists s | s in target :: target[s] != 0 && Weight(margins, s) <= 0.0
    ensures r.Value? ==> r.value == Normalized(target) && PositiveOn(margins, r.value.Keys)
  {
    hide *;
    var requested: Lots := map[];
    var order := SortSymbols(target.Keys);
    ghost var done: Lots := map[];
    NonePassed(order);
    NothingCollected(margins);
    for i := 0 to |order|
      invariant done.Keys == Passed(order, i)
      invariant forall s | s in done :: s in target && done[s] == target[s]
      invariant requested == Normalized(done) && PositiveOn(margins, requested.Keys)
    {
      var s := order[i];
      OneMorePassed(order, i);
      CollectedGrows(done, margins, s, target[s]);
      if target[s] != 0 {
        if Weight(margins, s) <= 0.0 {
          return ValueError;
        }
        requested := requested[s := target[s]];
      }
      done := done[s := target[s]];
    }
    AllPassed(order, target.Keys);
    assert done == target;
    AllCollected(target, margins);
    r := Value(requested);
  }

  lemma NothingCollected(margins: Weights)
    ensures var none: Lots := map[]; Normalized(none) == none && PositiveOn(margins, none.Keys)
  {
  }

  /** One more symbol is collected, unless it has no lots. */
  lemma CollectedGrows(done: Lots, margins: Weights, s: Symbol, v: int)
    requires s !in done && PositiveOn(margins, Normalized(done).Keys)
    ensures Normalized(done[s := v]) == if v == 0 then Normalized(done) else Normalized(done)[s := v]
    ensures v != 0 && Weight(margins, s) > 0.0 ==> PositiveOn(margins, Normalized(done)[s := v].Keys)
  {
  }

  lemma AllCollected(target: Lots, margins: Weights)
    requires PositiveOn(margins, Normalized(target).Keys)
    ensures !exists s | s in target :: target[s] != 0 && Weight(margins, s) <= 0.0
  {
    forall s | s in target && target[s] != 0
      ensures Weight(margins, s) > 0.0
    {
      assert s in Normalized(target);
    }
  }

  method FitTargetLotsToMarginBudget(target: Lots, margins: Weights, budget: real) returns (r: Checked<Lots>)
    ensures r.ValueError? <==> RefusesToFit(target, margins, budget)
    ensures r.Value? ==>
              PositiveOn(margins, Normalized(target).Keys) && Fits(Normalized(target), margins, budget, r.value)
  {
    if budget < 0.0 {
      return ValueError;
    }
    var collected := CollectRequested(target, margins);
    if collected.ValueError? {
      return ValueError;
    }
    var requested := collected.value;
    var total := Measure(requested, margins);
    if requested == map[] || budget == 0.0 {
      return Value(map[]);
    }
    if total <= budget + EPS {
      return Value(requested);
    }
    ghost var exact := FitScale(requested, margins, budget);
    var scale := budget / total;
    assert scale == exact;
    hide Awards, FloorLots, Total;
    var used := Measure(Floors(requested, scale), margins);
    // Every candidate is below its request and is visited once, so no award can exceed it.
    var awarded, _ := AwardLots(Remainders(requested, scale), margins, used, budget + EPS);
    var fitted := Normalized(Scaled(requested, scale, awarded));
    assert FitsWith(requested, margins, budget, exact, awarded, fitted);
    r := Value(fitted);
  }
}
