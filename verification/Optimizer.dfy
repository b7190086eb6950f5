/** The integer local search over targets: one-lot moves first, two-leg swaps once no
    one-lot move helps. */
module Optimizer {
  import opened Wrappers
  import opened Lots

  const HARD_MAX_GROSS_RATIO: real := 2.0
  const HARD_MAX_ABS_LOTS := 35
  const HARD_MARGIN_SHARE: real := 0.35

  /** What stays fixed during one search. */
  datatype Problem = Problem(
    requested: Lots,
    cap: nat,
    notionals: Weights,
    margins: Weights,
    grossLimit: real,
    marginBudget: real,
    objective: Lots -> Option<real>)

  datatype Fallback = NoFallback | NonFiniteObjective | ReferenceInfeasible

  datatype Optimization = Optimization(
    target: Lots,
    referenceObjective: real,
    objectiveValue: real,
    iterations: nat,
    fallback: Fallback)

  function Min(a: int, b: int): int {
    if a < b then a else b
  }

  /** `_within_requested_intent` */
  predicate WithinIntent(position: int, requested: int, cap: nat) {
    if requested > 0 then 0 <= position <= Min(requested, cap)
    else if requested < 0 then -Min(-requested, cap) <= position <= 0
    else position == 0
  }

  /** `_legal_deltas` */
  function LegalDeltas(position: int, requested: int, cap: nat): (r: seq<int>)
    ensures forall d :: d in r <==> (d == -1 || d == 1) && WithinIntent(position + d, requested, cap)
    ensures forall i, j | 0 <= i < j < |r| :: r[i] < r[j]
  {
    (if WithinIntent(position - 1, requested, cap) then [-1] else []) +
    (if WithinIntent(position + 1, requested, cap) then [1] else [])
  }

  ghost predicate Feasible(p: Problem, target: Lots) {
    && (forall s | s in Normalized(target).Keys + p.requested.Keys ::
          WithinIntent(At(target, s), At(p.requested, s), p.cap))
    && Total(target, p.notionals) <= p.grossLimit + EPS
    && Total(target, p.margins) <= p.marginBudget + EPS
  }

  /** Feasible targets hold requested contracts only, in the requested direction, within the request
      and the cap, and inside the gross limit and the margin budget. */
  lemma {:induction false} FeasibleIsInside(p: Problem, target: Lots)
    ensures Feasible(p, target) <==>
              && (forall s | s in target && target[s] != 0 ::
                    && s in p.requested && p.requested[s] != 0 && (target[s] > 0) == (p.requested[s] > 0)
                    && Abs(target[s]) <= Abs(p.requested[s]) && Abs(target[s]) <= p.cap)
              && Total(target, p.notionals) <= p.grossLimit + EPS
              && Total(target, p.margins) <= p.marginBudget + EPS
  {
    hide Total, WithinIntent, Abs;
    forall s: Symbol
      ensures WithinIntent(At(target, s), At(p.requested, s), p.cap) <==> Inside(p, target, s)
    {
      IntentIsInside(p, target, s);
    }
    assert forall s | s in target && target[s] != 0 :: s in Normalized(target) && At(target, s) == target[s];
    assert forall s | At(target, s) != 0 :: s in target && target[s] != 0;
  }

  predicate Inside(p: Problem, target: Lots, s: Symbol) {
    At(target, s) != 0 ==>
      && s in p.requested && p.requested[s] != 0 && (At(target, s) > 0) == (p.requested[s] > 0)
      && Abs(At(target, s)) <= Abs(p.requested[s]) && Abs(At(target, s)) <= p.cap
  }

  lemma IntentIsInside(p: Problem, target: Lots, s: Symbol)
    ensures WithinIntent(At(target, s), At(p.requested, s), p.cap) <==> Inside(p, target, s)
  {
  }

  /** The target after one symbol moved by `delta` lots. */
  function Moved(target: Lots, s: Symbol, delta: int): Lots {
    var proposed := At(target, s) + delta;
    if proposed != 0 then target[s := proposed] else target - {s}
  }

  ghost predicate Legal(p: Problem, target: Lots, s: Symbol, delta: int) {
    s in p.requested && (delta == -1 || delta == 1) && WithinIntent(At(target, s) + delta, p.requested[s], p.cap)
  }

  /** A feasible candidate has a value, and it is at most `bound`. */
  ghost predicate Seen(p: Problem, candidate: Lots, bound: real) {
    Feasible(p, candidate) ==> p.objective(candidate).Some? && p.objective(candidate).value <= bound
  }

  /** No legal one-lot move reaches more than `bound`. */
  ghost predicate MovesBounded(p: Problem, target: Lots, bound: real) {
    forall s: Symbol, d: int | Legal(p, target, s, d) :: Seen(p, Moved(target, s, d), bound)
  }

  /** No pair of legal moves on two different symbols reaches more than `bound`. */
  ghost predicate SwapsBounded(p: Problem, target: Lots, bound: real) {
    forall s: Symbol, d: int, t: Symbol, e: int | s != t && Legal(p, target, s, d) && Legal(p, target, t, e) ::
      Seen(p, Moved(Moved(target, s, d), t, e), bound)
  }

  // ---- The trace of a search ----

  /** A feasible candidate has a value, and it is less than `bound`. */
  ghost predicate SeenBelow(p: Problem, candidate: Lots, bound: real) {
    Feasible(p, candidate) ==> p.objective(candidate).Some? && p.objective(candidate).value < bound
  }

  /** Moves are tried by symbol, and down before up. */
  predicate TriedBefore(s: Symbol, d: int, t: Symbol, e: int) {
    s < t || (s == t && d < e)
  }

  ghost predicate EarlierMovesBelow(p: Problem, target: Lots, s: Symbol, d: int, value: real) {
    forall t: Symbol, e: int | Legal(p, target, t, e) && TriedBefore(t, e, s, d) ::
      SeenBelow(p, Moved(target, t, e), value)
  }

  ghost predicate EarlierSwapsBelow(p: Problem, target: Lots, s: Symbol, d: int, t: Symbol, e: int, value: real) {
    forall a: Symbol, b: int, x: Symbol, y: int |
      && a < x && Legal(p, target, a, b) && Legal(p, target, x, y)
      && (TriedBefore(a, b, s, d) || (a == s && b == d && TriedBefore(x, y, t, e))) ::
      SeenBelow(p, Moved(Moved(target, a, b), x, y), value)
  }

  /** The step is the legal one-lot move that reaches most, up to EPS; those tried before it reach less. */
  ghost predicate IsBestMove(p: Problem, from: Lots, to: Lots, value: real) {
    && MovesBounded(p, from, value + EPS)
    && exists s: Symbol, d: int ::
         Legal(p, from, s, d) && to == Moved(from, s, d) && EarlierMovesBelow(p, from, s, d, value)
  }

  /** The step is the pair of legal moves that reaches most, in the same sense. */
  ghost predicate IsBestSwap(p: Problem, from: Lots, to: Lots, value: real) {
    && SwapsBounded(p, from, value + EPS)
    && exists s: Symbol, d: int, t: Symbol, e: int ::
         && s < t && Legal(p, from, s, d) && Legal(p, from, t, e)
         && to == Moved(Moved(from, s, d), t, e) && EarlierSwapsBelow(p, from, s, d, t, e, value)
  }

  /** One iteration gains more than EPS: by the best one-lot move, and by the best swap only where no
      one-lot move gains. */
  ghost predicate ClimbStep(p: Problem, from: Lots, to: Lots) {
    && p.objective(from).Some? && p.objective(to).Some? && NoZeros(to) && Feasible(p, to)
    && p.objective(to).value > p.objective(from).value + EPS
    && (|| IsBestMove(p, from, to, p.objective(to).value)
        || (MovesBounded(p, from, p.objective(from).value + EPS) && IsBestSwap(p, from, to, p.objective(to).value)))
  }

  ghost predicate IsClimb(p: Problem, trace: seq<Lots>, reference: Lots, target: Lots) {
    && trace != [] && trace[0] == reference && trace[|trace| - 1] == target
    && forall i | 0 <= i < |trace| - 1 :: ClimbStep(p, trace[i], trace[i + 1])
  }

  /** A pass over the moves, or over the swaps once no move gains, meets a feasible target without
      a value. */
  ghost predicate MeetsNoValue(p: Problem, target: Lots) {
    || (exists s: Symbol, d: int :: Legal(p, target, s, d) && HasNoValue(p, Moved(target, s, d)))
    || (&& p.objective(target).Some? && MovesBounded(p, target, p.objective(target).value + EPS)
        && exists s: Symbol, d: int, t: Symbol, e: int ::
             && s < t && Legal(p, target, s, d) && Legal(p, target, t, e)
             && HasNoValue(p, Moved(Moved(target, s, d), t, e)))
  }

  ghost predicate HasNoValue(p: Problem, candidate: Lots) {
    Feasible(p, candidate) && p.objective(candidate) == None
  }

  /** A move changes the position of its symbol by its lots, and nothing else. */
  lemma MoveIsOneLot(target: Lots, s: Symbol, d: int, x: Symbol)
    ensures At(Moved(target, s, d), x) == At(target, x) + if x == s then d else 0
    ensures NoZeros(target) ==> NoZeros(Moved(target, s, d))
  {
  }

  /** Per iteration one position moves by a lot, or two positions do. */
  ghost predicate MovesOneLotOrTwo(from: Lots, to: Lots) {
    exists s: Symbol, d: int, t: Symbol, e: int ::
      (d == -1 || d == 1) && (e == 0 || (s != t && (e == -1 || e == 1))) && DifferBy(from, to, s, d, t, e)
  }

  ghost predicate DifferBy(from: Lots, to: Lots, s: Symbol, d: int, t: Symbol, e: int) {
    forall x: Symbol :: At(to, x) == At(from, x) + (if x == s then d else 0) + (if x == t then e else 0)
  }

  lemma {:induction false} ClimbMovesLots(p: Problem, from: Lots, to: Lots)
    requires ClimbStep(p, from, to)
    ensures MovesOneLotOrTwo(from, to)
  {
    hide Feasible, MovesBounded, SwapsBounded, EarlierMovesBelow, EarlierSwapsBelow, WithinIntent, Moved;
    var value := p.objective(to).value;
    if IsBestMove(p, from, to, value) {
      var s: Symbol, d: int :|
        Legal(p, from, s, d) && to == Moved(from, s, d) && EarlierMovesBelow(p, from, s, d, value);
      forall x: Symbol
        ensures At(to, x) == At(from, x) + if x == s then d else 0
      {
        MoveIsOneLot(from, s, d, x);
      }
      assert DifferBy(from, to, s, d, s, 0);
    } else {
      var s: Symbol, d: int, t: Symbol, e: int :|
        && s < t && Legal(p, from, s, d) && Legal(p, from, t, e)
        && to == Moved(Moved(from, s, d), t, e) && EarlierSwapsBelow(p, from, s, d, t, e, value);
      forall x: Symbol
        ensures At(to, x) == At(from, x) + (if x == s then d else 0) + (if x == t then e else 0)
      {
        MoveIsOneLot(from, s, d, x);
        MoveIsOneLot(Moved(from, s, d), t, e, x);
      }
      assert DifferBy(from, to, s, d, t, e);
    }
  }

  // ---- Termination ----

  function Placed(target: Lots, s: Symbol, v: int): Lots {
    target[s := v]
  }

  /** Every target of a set, with every position within the cap added on one symbol. */
  ghost function Widened(targets: set<Lots>, s: Symbol, cap: nat): set<Lots> {
    set t, v | t in targets && 0 - cap <= v <= cap :: Placed(t, s, v)
  }

  ghost function PickSymbol(symbols: set<Symbol>): Symbol
    requires symbols != {}
    ensures PickSymbol(symbols) in symbols
  {
    var s :| s in symbols;
    s
  }

  /** All targets with at most `cap` lots on the given symbols. */
  ghost function Box(symbols: set<Symbol>, cap: nat): set<Lots>
  {
    if symbols == {} then {map[]}
    else
      var rest := Box(symbols - {PickSymbol(symbols)}, cap);
      rest + Widened(rest, PickSymbol(symbols), cap)
  }

  lemma {:induction false} InBox(symbols: set<Symbol>, cap: nat, target: Lots)
    requires target.Keys <= symbols && forall s | s in target :: Abs(target[s]) <= cap
    ensures target in Box(symbols, cap)
    decreases symbols
  {
    if symbols == {} {
      assert target == map[];
    } else {
      var s := PickSymbol(symbols);
      InBox(symbols - {s}, cap, target - {s});
      if s in target {
        assert target == Placed(target - {s}, s, target[s]);
      } else {
        assert target == target - {s};
      }
    }
  }

  /** The finitely many feasible targets that beat a value. */
  ghost function Better(p: Problem, value: real): set<Lots> {
    set t | t in Box(p.requested.Keys, p.cap) && NoZeros(t) && Feasible(p, t) &&
            p.objective(t).Some? && p.objective(t).value > value
  }

  lemma FeasibleIsBoxed(p: Problem, target: Lots)
    requires Feasible(p, target) && NoZeros(target)
    ensures target in Box(p.requested.Keys, p.cap)
  {
    assert Normalized(target) == target;
    forall s | s in target
      ensures s in p.requested && Abs(target[s]) <= p.cap
    {
      assert WithinIntent(At(target, s), At(p.requested, s), p.cap);
    }
    InBox(p.requested.Keys, p.cap, target);
  }

  /** Each accepted move leaves strictly fewer better targets. */
  lemma {:induction false} ImprovementShrinksBetter(p: Problem, target: Lots, value: real, before: real)
    requires Feasible(p, target) && NoZeros(target) && p.objective(target) == Some(value) && value > before
    ensures Better(p, value) < Better(p, before)
  {
    FeasibleIsBoxed(p, target);
    assert target in Better(p, before) && target !in Better(p, value);
  }

  // ---- The search ----

  /** What one pass over the moves finds. */
  datatype Search = NothingBetter | Found(target: Lots, value: real) | NotFinite

  ghost predicate GoodFind(p: Problem, found: Search, value: real) {
    found.Found? ==>
      && NoZeros(found.target) && Feasible(p, found.target)
      && p.objective(found.target) == Some(found.value) && found.value > value + EPS
  }

  /** Compare a candidate with the best so far; a later one must win by more than EPS. */
  function Keep(best: Search, candidate: Lots, value: real, improvement: real, current: real): Search
    requires !best.NotFinite?
  {
    if improvement <= EPS then best
    else if best.NothingBetter? || improvement > best.value - current + EPS then Found(candidate, value)
    else best
  }

  /** What every candidate a pass has considered stays below. */
  function Bound(best: Search, value: real): real {
    if best.Found? then best.value + EPS else value + EPS
  }

  function Swapped(target: Lots, first: (Symbol, int), second: (Symbol, int)): Lots {
    Moved(Moved(target, first.0, first.1), second.0, second.1)
  }

  lemma MovesCommute(target: Lots, s: Symbol, d: int, t: Symbol, e: int)
    requires s != t
    ensures Moved(Moved(target, s, d), t, e) == Moved(Moved(target, t, e), s, d)
  {
  }

  /** What a finished search promises: a feasible local optimum at the end of a climb that gained
      more than EPS in every iteration, or the reference because a climb met a feasible target that
      has no value. */
  ghost predicate Outcome(p: Problem, reference: Lots, referenceValue: real, r: Optimization) {
    && r.referenceObjective == referenceValue
    && match r.fallback
       case NoFallback =>
         && NoZeros(r.target) && Feasible(p, r.target)
         && p.objective(r.target) == Some(r.objectiveValue)
         && (exists trace :: |trace| == r.iterations + 1 && IsClimb(p, trace, reference, r.target))
         && (r.iterations > 0 ==> r.objectiveValue > referenceValue + (r.iterations as real) * EPS)
         && MovesBounded(p, r.target, r.objectiveValue + EPS)
         && SwapsBounded(p, r.target, r.objectiveValue + EPS)
       case NonFiniteObjective =>
         && r == Optimization(reference, referenceValue, referenceValue, 0, NonFiniteObjective)
         && exists trace, last :: IsClimb(p, trace, reference, last) && MeetsNoValue(p, last)
       case ReferenceInfeasible => false
  }

  ghost predicate ValidInputs(symbols: set<Symbol>, notionals: Weights, margins: Weights, equity: real,
                              softMarginBudget: real, maxGrossRatio: real, maxAbsLots: int) {
    && equity > 0.0
    && 0.0 <= softMarginBudget <= equity * 0.35 + EPS
    && 0.0 < maxGrossRatio <= 2.0
    && maxAbsLots > 0
    && forall s | s in symbols :: Weight(notionals, s) > 0.0 && Weight(margins, s) > 0.0
  }

  ghost predicate SwapsSeen(p: Problem, target: Lots, bound: real, moves: seq<(Symbol, int)>, n: nat) {
    forall a, b | 0 <= a < n && a < b < |moves| && moves[a].0 != moves[b].0 ::
      Seen(p, Swapped(target, moves[a], moves[b]), bound)
  }

  ghost predicate RowSeen(p: Problem, target: Lots, bound: real, moves: seq<(Symbol, int)>, i: nat, n: nat)
    requires i < |moves|
  {
    forall b | i < b < n && b < |moves| && moves[i].0 != moves[b].0 ::
          Seen(p, Swapped(target, moves[i], moves[b]), bound)
  }

  lemma NoSwapsYet(p: Problem, target: Lots, bound: real, moves: seq<(Symbol, int)>)
    ensures SwapsSeen(p, target, bound, moves, 0)
  {
  }

  lemma EmptyRow(p: Problem, target: Lots, bound: real, moves: seq<(Symbol, int)>, i: nat)
    requires i < |moves|
    ensures RowSeen(p, target, bound, moves, i, i + 1)
  {
  }

  lemma SeenGrows(p: Problem, target: Lots, bound: real, higher: real, moves: seq<(Symbol, int)>, i: nat, j: nat)
    requires i < j < |moves| && bound <= higher
    requires SwapsSeen(p, target, bound, moves, i) && RowSeen(p, target, bound, moves, i, j)
    requires moves[i].0 != moves[j].0 ==> Seen(p, Swapped(target, moves[i], moves[j]), higher)
    ensures SwapsSeen(p, target, higher, moves, i) && RowSeen(p, target, higher, moves, i, j + 1)
  {
    hide Feasible, Swapped;
  }

  lemma RowJoins(p: Problem, target: Lots, bound: real, moves: seq<(Symbol, int)>, i: nat)
    requires i < |moves| && SwapsSeen(p, target, bound, moves, i) && RowSeen(p, target, bound, moves, i, |moves|)
    ensures SwapsSeen(p, target, bound, moves, i + 1)
  {
    hide Seen;
  }

  lemma ListedSwapsAreAll(p: Problem, target: Lots, bound: real, moves: seq<(Symbol, int)>)
    requires forall s: Symbol, d: int :: (s, d) in moves <==> Legal(p, target, s, d)
    requires SwapsSeen(p, target, bound, moves, |moves|)
    ensures SwapsBounded(p, target, bound)
  {
    hide Feasible, Legal, Seen, Moved;
    forall s: Symbol, d: int, t: Symbol, e: int | s != t && Legal(p, target, s, d) && Legal(p, target, t, e)
      ensures Seen(p, Moved(Moved(target, s, d), t, e), bound)
    {
      OneSwapSeen(p, target, bound, moves, s, d, t, e);
    }
  }

  lemma OneSwapSeen(p: Problem, target: Lots, bound: real, moves: seq<(Symbol, int)>, s: Symbol, d: int, t: Symbol,
                    e: int)
    requires SwapsSeen(p, target, bound, moves, |moves|) && s != t && (s, d) in moves && (t, e) in moves
    ensures Seen(p, Moved(Moved(target, s, d), t, e), bound)
  {
    hide Seen, Moved;
    var a :| 0 <= a < |moves| && moves[a] == (s, d);
    var b :| 0 <= b < |moves| && moves[b] == (t, e);
    MovesCommute(target, s, d, t, e);
    if a < b {
      assert Seen(p, Swapped(target, moves[a], moves[b]), bound);
    } else {
      assert Seen(p, Swapped(target, moves[b], moves[a]), bound);
    }
  }

  /** The best so far is where the pass found it, and what was tried before it reaches less. */
  ghost predicate Tracked(p: Problem, target: Lots, best: Search, at: (Symbol, int)) {
    best.Found? ==>
      && Legal(p, target, at.0, at.1) && best.target == Moved(target, at.0, at.1)
      && EarlierMovesBelow(p, target, at.0, at.1, best.value)
  }

  lemma TrackedMove(p: Problem, target: Lots, best: Search, at: (Symbol, int))
    requires Tracked(p, target, best, at) && best.Found? && MovesBounded(p, target, best.value + EPS)
    ensures IsBestMove(p, target, best.target, best.value)
  {
    hide Legal, EarlierMovesBelow, MovesBounded, Moved;
  }

  /** Everything tried before the i-th symbol's j-th move stayed below the bound it beats. */
  lemma EarlierMoves(p: Problem, target: Lots, symbols: seq<Symbol>, i: nat, deltas: seq<int>, j: nat, bound: real,
                     value: real)
    requires StrictlySorted(symbols) && (forall s :: s in symbols <==> s in p.requested)
    requires i < |symbols| && j < |deltas| && bound < value
    requires deltas == LegalDeltas(At(target, symbols[i]), p.requested[symbols[i]], p.cap)
    requires SymbolsSeen(p, target, bound, symbols, i) && DeltasSeen(p, target, bound, symbols[i], deltas, j)
    ensures EarlierMovesBelow(p, target, symbols[i], deltas[j], value)
  {
    hide Feasible, Moved, WithinIntent, LegalDeltas;
    forall t: Symbol, e: int | Legal(p, target, t, e) && TriedBefore(t, e, symbols[i], deltas[j])
      ensures SeenBelow(p, Moved(target, t, e), value)
    {
      if t == symbols[i] {
        EarlierDelta(deltas, j, e);
      } else {
        EarlierSymbol(symbols, i, t);
      }
      assert Seen(p, Moved(target, t, e), bound);
    }
  }

  // ---- What a pass has tried ----

  ghost predicate SymbolsSeen(p: Problem, target: Lots, bound: real, symbols: seq<Symbol>, i: nat)
    requires i <= |symbols|
  {
    forall s: Symbol, d: int | s in symbols[..i] && Legal(p, target, s, d) :: Seen(p, Moved(target, s, d), bound)
  }

  ghost predicate DeltasSeen(p: Problem, target: Lots, bound: real, s: Symbol, deltas: seq<int>, j: nat)
    requires j <= |deltas|
  {
    forall d | d in deltas[..j] :: Seen(p, Moved(target, s, d), bound)
  }

  lemma NothingTried(p: Problem, target: Lots, bound: real, symbols: seq<Symbol>, value: real, at: (Symbol, int))
    ensures SymbolsSeen(p, target, bound, symbols, 0)
    ensures GoodFind(p, NothingBetter, value) && Tracked(p, target, NothingBetter, at)
  {
  }

  lemma NoDeltasTried(p: Problem, target: Lots, bound: real, s: Symbol, deltas: seq<int>)
    ensures DeltasSeen(p, target, bound, s, deltas, 0)
  {
  }

  lemma MovedIsLegal(p: Problem, target: Lots, s: Symbol, deltas: seq<int>, j: nat)
    requires NoZeros(target) && s in p.requested && j < |deltas|
    requires deltas == LegalDeltas(At(target, s), p.requested[s], p.cap)
    ensures Legal(p, target, s, deltas[j]) && NoZeros(Moved(target, s, deltas[j]))
  {
    hide WithinIntent, LegalDeltas;
    assert deltas[j] in deltas;
  }

  lemma ValuelessMove(p: Problem, target: Lots, s: Symbol, d: int)
    requires Legal(p, target, s, d) && Feasible(p, Moved(target, s, d)) && p.objective(Moved(target, s, d)) == None
    ensures exists s: Symbol, d: int :: Legal(p, target, s, d) && HasNoValue(p, Moved(target, s, d))
  {
    hide Legal, Feasible, Moved;
    assert HasNoValue(p, Moved(target, s, d));
  }

  lemma TrackedAt(p: Problem, target: Lots, best: Search, at: (Symbol, int))
    requires best.Found? && Legal(p, target, at.0, at.1) && best.target == Moved(target, at.0, at.1)
    requires EarlierMovesBelow(p, target, at.0, at.1, best.value)
    ensures Tracked(p, target, best, at)
  {
  }

  lemma BoundOfFound(best: Search, value: real)
    requires best.Found?
    ensures Bound(best, value) == best.value + EPS
  {
  }

  lemma MovesSeenGrow(p: Problem, target: Lots, bound: real, higher: real, symbols: seq<Symbol>, i: nat,
                      deltas: seq<int>, j: nat)
    requires i < |symbols| && j < |deltas| && bound <= higher
    requires SymbolsSeen(p, target, bound, symbols, i) && DeltasSeen(p, target, bound, symbols[i], deltas, j)
    requires Seen(p, Moved(target, symbols[i], deltas[j]), higher)
    ensures SymbolsSeen(p, target, higher, symbols, i) && DeltasSeen(p, target, higher, symbols[i], deltas, j + 1)
  {
    hide Feasible, Moved, Legal;
    assert deltas[..j + 1] == deltas[..j] + [deltas[j]];
  }

  lemma SymbolJoins(p: Problem, target: Lots, bound: real, symbols: seq<Symbol>, i: nat, deltas: seq<int>)
    requires i < |symbols| && symbols[i] in p.requested
    requires deltas == LegalDeltas(At(target, symbols[i]), p.requested[symbols[i]], p.cap)
    requires SymbolsSeen(p, target, bound, symbols, i) && DeltasSeen(p, target, bound, symbols[i], deltas, |deltas|)
    ensures SymbolsSeen(p, target, bound, symbols, i + 1)
  {
    hide Seen, Moved, WithinIntent, LegalDeltas;
    assert deltas[..|deltas|] == deltas;
    assert symbols[..i + 1] == symbols[..i] + [symbols[i]];
  }

  lemma AllSymbolsSeen(p: Problem, target: Lots, bound: real, symbols: seq<Symbol>)
    requires (forall s :: s in symbols <==> s in p.requested) && SymbolsSeen(p, target, bound, symbols, |symbols|)
    ensures MovesBounded(p, target, bound)
  {
    hide Seen, Moved;
    assert symbols[..|symbols|] == symbols;
  }

  lemma EarlierDelta(deltas: seq<int>, j: nat, e: int)
    requires j < |deltas| && e in deltas && e < deltas[j]
    requires forall a, b | 0 <= a < b < |deltas| :: deltas[a] < deltas[b]
    ensures e in deltas[..j]
  {
    var k :| 0 <= k < |deltas| && deltas[k] == e;
    assert k < j && deltas[..j][k] == e;
  }

  lemma EarlierSymbol(symbols: seq<Symbol>, i: nat, t: Symbol)
    requires StrictlySorted(symbols) && i < |symbols| && t in symbols && t < symbols[i]
    ensures t in symbols[..i]
  {
    var k :| 0 <= k < |symbols| && symbols[k] == t;
    assert k < i && symbols[..i][k] == t;
  }

  predicate InTrialOrder(moves: seq<(Symbol, int)>) {
    forall i, j | 0 <= i < j < |moves| :: TriedBefore(moves[i].0, moves[i].1, moves[j].0, moves[j].1)
  }

  lemma LastInOrder(moves: seq<(Symbol, int)>, symbols: seq<Symbol>, i: nat, deltas: seq<int>, j: nat)
    requires StrictlySorted(symbols) && i < |symbols| && j < |deltas| && InTrialOrder(moves)
    requires forall a, b | 0 <= a < b < |deltas| :: deltas[a] < deltas[b]
    requires forall s: Symbol, d: int | (s, d) in moves :: s in symbols[..i] || (s == symbols[i] && d in deltas[..j])
    ensures InTrialOrder(moves + [(symbols[i], deltas[j])])
  {
    forall k | 0 <= k < |moves|
      ensures TriedBefore(moves[k].0, moves[k].1, symbols[i], deltas[j])
    {
      assert (moves[k].0, moves[k].1) in moves;
    }
  }

  /** The moves of the first `i` symbols, and the first `j` deltas of the next one, are listed. */
  ghost predicate Listed(p: Problem, target: Lots, symbols: seq<Symbol>, i: nat, deltas: seq<int>, j: nat,
                         moves: seq<(Symbol, int)>)
    requires i <= |symbols| && j <= |deltas|
  {
    forall s: Symbol, d: int :: (s, d) in moves <==>
      || (s in symbols[..i] && Legal(p, target, s, d))
      || (i < |symbols| && s == symbols[i] && d in deltas[..j])
  }

  lemma NoneListed(p: Problem, target: Lots, symbols: seq<Symbol>)
    ensures Listed(p, target, symbols, 0, [], 0, []) && InTrialOrder([])
  {
  }

  lemma RowStarts(p: Problem, target: Lots, symbols: seq<Symbol>, i: nat, deltas: seq<int>, moves: seq<(Symbol, int)>)
    requires i < |symbols| && Listed(p, target, symbols, i, [], 0, moves)
    ensures Listed(p, target, symbols, i, deltas, 0, moves)
  {
    hide Legal;
  }

  lemma OneMoreListed(p: Problem, target: Lots, symbols: seq<Symbol>, i: nat, deltas: seq<int>, j: nat,
                      moves: seq<(Symbol, int)>)
    requires StrictlySorted(symbols) && i < |symbols| && j < |deltas| && InTrialOrder(moves)
    requires forall a, b | 0 <= a < b < |deltas| :: deltas[a] < deltas[b]
    requires Listed(p, target, symbols, i, deltas, j, moves)
    ensures Listed(p, target, symbols, i, deltas, j + 1, moves + [(symbols[i], deltas[j])])
    ensures InTrialOrder(moves + [(symbols[i], deltas[j])])
  {
    hide Legal, InTrialOrder;
    LastInOrder(moves, symbols, i, deltas, j);
    assert deltas[..j + 1] == deltas[..j] + [deltas[j]];
  }

  lemma RowListed(p: Problem, target: Lots, symbols: seq<Symbol>, i: nat, deltas: seq<int>, moves: seq<(Symbol, int)>)
    requires i < |symbols| && symbols[i] in p.requested
    requires deltas == LegalDeltas(At(target, symbols[i]), p.requested[symbols[i]], p.cap)
    requires Listed(p, target, symbols, i, deltas, |deltas|, moves)
    ensures Listed(p, target, symbols, i + 1, [], 0, moves)
  {
    hide WithinIntent, LegalDeltas;
    assert deltas[..|deltas|] == deltas;
    assert symbols[..i + 1] == symbols[..i] + [symbols[i]];
  }

  lemma AllListed(p: Problem, target: Lots, symbols: seq<Symbol>, moves: seq<(Symbol, int)>)
    requires (forall s :: s in symbols <==> s in p.requested) && Listed(p, target, symbols, |symbols|, [], 0, moves)
    ensures forall s: Symbol, d: int :: (s, d) in moves <==> Legal(p, target, s, d)
  {
    hide WithinIntent;
    assert symbols[..|symbols|] == symbols;
  }

  ghost predicate EarlierPairsBelow(p: Problem, target: Lots, moves: seq<(Symbol, int)>, a: nat, b: nat, value: real) {
    forall i, j | 0 <= i < j < |moves| && moves[i].0 != moves[j].0 && (i < a || (i == a && j < b)) ::
      SeenBelow(p, Swapped(target, moves[i], moves[j]), value)
  }

  ghost predicate TrackedPair(p: Problem, target: Lots, best: Search, moves: seq<(Symbol, int)>, a: nat, b: nat) {
    best.Found? ==>
      && a < b < |moves| && moves[a].0 != moves[b].0 && best.target == Swapped(target, moves[a], moves[b])
      && EarlierPairsBelow(p, target, moves, a, b, best.value)
  }

  lemma EarlierPairs(p: Problem, target: Lots, bound: real, moves: seq<(Symbol, int)>, i: nat, j: nat, value: real)
    requires i < j < |moves| && bound < value
    requires SwapsSeen(p, target, bound, moves, i) && RowSeen(p, target, bound, moves, i, j)
    ensures EarlierPairsBelow(p, target, moves, i, j, value)
  {
    hide Feasible, Swapped;
    forall k, l | 0 <= k < l < |moves| && moves[k].0 != moves[l].0 && (k < i || (k == i && l < j))
      ensures SeenBelow(p, Swapped(target, moves[k], moves[l]), value)
    {
      assert Seen(p, Swapped(target, moves[k], moves[l]), bound);
    }
  }

  /** A place in the list of all moves is a place in the order of trial. */
  lemma PairBefore(p: Problem, target: Lots, moves: seq<(Symbol, int)>, a: nat, b: nat, value: real, s: Symbol, d: int,
                   t: Symbol, e: int)
    requires InTrialOrder(moves) && a < b < |moves| && EarlierPairsBelow(p, target, moves, a, b, value)
    requires (s, d) in moves && (t, e) in moves && s < t
    requires TriedBefore(s, d, moves[a].0, moves[a].1)
             || ((s, d) == moves[a] && TriedBefore(t, e, moves[b].0, moves[b].1))
    ensures SeenBelow(p, Moved(Moved(target, s, d), t, e), value)
  {
    hide SeenBelow, Moved;
    var i :| 0 <= i < |moves| && moves[i] == (s, d);
    var j :| 0 <= j < |moves| && moves[j] == (t, e);
    assert SeenBelow(p, Swapped(target, moves[i], moves[j]), value);
  }

  lemma TrackedSwap(p: Problem, target: Lots, best: Search, moves: seq<(Symbol, int)>, a: nat, b: nat)
    requires forall s: Symbol, d: int :: (s, d) in moves <==> Legal(p, target, s, d)
    requires InTrialOrder(moves) && TrackedPair(p, target, best, moves, a, b) && best.Found?
    requires SwapsBounded(p, target, best.value + EPS)
    ensures IsBestSwap(p, target, best.target, best.value)
  {
    hide Legal, SeenBelow, Moved, SwapsBounded, TriedBefore, EarlierPairsBelow;
    var (s, d) := moves[a];
    var (t, e) := moves[b];
    OrderedSymbols(moves, a, b);
    forall w: Symbol, x: int, y: Symbol, z: int |
      && w < y && Legal(p, target, w, x) && Legal(p, target, y, z)
      && (TriedBefore(w, x, s, d) || (w == s && x == d && TriedBefore(y, z, t, e)))
      ensures SeenBelow(p, Moved(Moved(target, w, x), y, z), best.value)
    {
      PairBefore(p, target, moves, a, b, best.value, w, x, y, z);
    }
    assert EarlierSwapsBelow(p, target, s, d, t, e, best.value);
    assert moves[a] in moves && moves[b] in moves;
  }

  lemma OrderedSymbols(moves: seq<(Symbol, int)>, a: nat, b: nat)
    requires InTrialOrder(moves) && a < b < |moves| && moves[a].0 != moves[b].0
    ensures moves[a].0 < moves[b].0
  {
    assert TriedBefore(moves[a].0, moves[a].1, moves[b].0, moves[b].1);
  }

  lemma NothingPaired(p: Problem, target: Lots, value: real, moves: seq<(Symbol, int)>)
    ensures GoodFind(p, NothingBetter, value) && TrackedPair(p, target, NothingBetter, moves, 0, 0)
  {
  }

  lemma SwappedHasNoZeros(target: Lots, first: (Symbol, int), second: (Symbol, int))
    requires NoZeros(target)
    ensures NoZeros(Swapped(target, first, second))
  {
  }

  lemma TrackedHere(p: Problem, target: Lots, best: Search, moves: seq<(Symbol, int)>, a: nat, b: nat)
    requires best.Found? && a < b < |moves| && moves[a].0 != moves[b].0
    requires best.target == Swapped(target, moves[a], moves[b])
    requires EarlierPairsBelow(p, target, moves, a, b, best.value)
    ensures TrackedPair(p, target, best, moves, a, b)
  {
  }

  lemma NoValueThere(p: Problem, target: Lots, moves: seq<(Symbol, int)>, a: nat, b: nat)
    requires forall s: Symbol, d: int :: (s, d) in moves <==> Legal(p, target, s, d)
    requires InTrialOrder(moves) && a < b < |moves| && moves[a].0 != moves[b].0
    requires Feasible(p, Swapped(target, moves[a], moves[b]))
    requires p.objective(Swapped(target, moves[a], moves[b])) == None
    ensures exists s: Symbol, d: int, t: Symbol, e: int ::
              && s < t && Legal(p, target, s, d) && Legal(p, target, t, e)
              && HasNoValue(p, Moved(Moved(target, s, d), t, e))
  {
    hide Feasible, Legal, Moved;
    OrderedSymbols(moves, a, b);
    assert moves[a] in moves && moves[b] in moves;
    assert HasNoValue(p, Moved(Moved(target, moves[a].0, moves[a].1), moves[b].0, moves[b].1));
  }

  /** Where a search stands: at the end of a climb from the reference. */
  ghost predicate Climbing(p: Problem, reference: Lots, referenceValue: real, trace: seq<Lots>, target: Lots,
                           value: real, iterations: int)
  {
    && NoZeros(target) && Feasible(p, target) && p.objective(target) == Some(value)
    && |trace| == iterations + 1 && IsClimb(p, trace, reference, target)
    && (iterations == 0 ==> value == referenceValue)
    && (iterations > 0 ==> value > referenceValue + (iterations as real) * EPS)
  }

  lemma ClimbStarts(p: Problem, reference: Lots, referenceValue: real)
    requires NoZeros(reference) && Feasible(p, reference) && p.objective(reference) == Some(referenceValue)
    ensures Climbing(p, reference, referenceValue, [reference], reference, referenceValue, 0)
  {
    hide Feasible;
  }

  lemma NoneBeats(value: real)
    ensures Bound(NothingBetter, value) == value + EPS
  {
  }

  lemma ClimbsOn(p: Problem, reference: Lots, referenceValue: real, trace: seq<Lots>, target: Lots, value: real,
                 iterations: nat, best: Search, swapped: bool)
    requires Climbing(p, reference, referenceValue, trace, target, value, iterations)
    requires best.Found? && GoodFind(p, best, value)
    requires if swapped then MovesBounded(p, target, value + EPS) && IsBestSwap(p, target, best.target, best.value)
             else IsBestMove(p, target, best.target, best.value)
    ensures Climbing(p, reference, referenceValue, trace + [best.target], best.target, best.value, iterations + 1)
    ensures NoZeros(best.target) && p.objective(best.target) == Some(best.value)
    ensures Better(p, best.value) < Better(p, value)
  {
    hide *;
    ClimbingParts(p, reference, referenceValue, trace, target, value, iterations);
    FoundParts(p, best, value);
    ImprovementShrinksBetter(p, best.target, best.value, value);
    StepTaken(p, target, value, best, swapped);
    TraceGrows(p, trace, reference, target, best.target);
    OneMoreGain(referenceValue, value, best.value, iterations);
    ClimbingFrom(p, reference, referenceValue, trace + [best.target], best.target, best.value, iterations + 1);
  }

  lemma ClimbingParts(p: Problem, reference: Lots, referenceValue: real, trace: seq<Lots>, target: Lots, value: real,
                      iterations: int)
    requires Climbing(p, reference, referenceValue, trace, target, value, iterations)
    ensures p.objective(target) == Some(value) && |trace| == iterations + 1 && IsClimb(p, trace, reference, target)
    ensures iterations == 0 ==> value == referenceValue
    ensures iterations > 0 ==> value > referenceValue + (iterations as real) * EPS
  {
    hide Feasible, IsClimb;
  }

  lemma ClimbingFrom(p: Problem, reference: Lots, referenceValue: real, trace: seq<Lots>, target: Lots, value: real,
                     iterations: int)
    requires NoZeros(target) && Feasible(p, target) && p.objective(target) == Some(value)
    requires |trace| == iterations + 1 && IsClimb(p, trace, reference, target)
    requires iterations > 0 && value > referenceValue + (iterations as real) * EPS
    ensures Climbing(p, reference, referenceValue, trace, target, value, iterations)
  {
    hide Feasible, IsClimb;
  }

  lemma FoundParts(p: Problem, best: Search, value: real)
    requires best.Found? && GoodFind(p, best, value)
    ensures NoZeros(best.target) && Feasible(p, best.target) && p.objective(best.target) == Some(best.value)
    ensures best.value > value + EPS > value
  {
    hide Feasible;
  }

  lemma StepTaken(p: Problem, target: Lots, value: real, best: Search, swapped: bool)
    requires p.objective(target) == Some(value) && best.Found? && GoodFind(p, best, value)
    requires if swapped then MovesBounded(p, target, value + EPS) && IsBestSwap(p, target, best.target, best.value)
             else IsBestMove(p, target, best.target, best.value)
    ensures ClimbStep(p, target, best.target)
  {
    hide Feasible, MovesBounded, IsBestMove, IsBestSwap;
  }

  lemma TraceGrows(p: Problem, trace: seq<Lots>, reference: Lots, target: Lots, next: Lots)
    requires IsClimb(p, trace, reference, target) && ClimbStep(p, target, next)
    ensures IsClimb(p, trace + [next], reference, next)
  {
    hide ClimbStep;
  }

  lemma OneMoreGain(start: real, value: real, next: real, iterations: nat)
    requires if iterations == 0 then value == start else value > start + (iterations as real) * EPS
    requires next > value + EPS
    ensures next > start + ((iterations + 1) as real) * EPS
  {
  }

  lemma ClimbEnds(p: Problem, reference: Lots, referenceValue: real, trace: seq<Lots>, r: Optimization)
    requires r.fallback == NoFallback && r.referenceObjective == referenceValue
    requires Climbing(p, reference, referenceValue, trace, r.target, r.objectiveValue, r.iterations)
    requires MovesBounded(p, r.target, r.objectiveValue + EPS) && SwapsBounded(p, r.target, r.objectiveValue + EPS)
    ensures Outcome(p, reference, referenceValue, r)
  {
    hide Feasible, MovesBounded, SwapsBounded, ClimbStep;
  }

  lemma ClimbFails(p: Problem, reference: Lots, referenceValue: real, trace: seq<Lots>, target: Lots, value: real,
                   iterations: nat, swapped: bool)
    requires Climbing(p, reference, referenceValue, trace, target, value, iterations)
    requires !swapped ==> exists s: Symbol, d: int :: Legal(p, target, s, d) && HasNoValue(p, Moved(target, s, d))
    requires swapped ==>
               && MovesBounded(p, target, value + EPS)
               && exists s: Symbol, d: int, t: Symbol, e: int ::
                    && s < t && Legal(p, target, s, d) && Legal(p, target, t, e)
                    && HasNoValue(p, Moved(Moved(target, s, d), t, e))
    ensures Outcome(p, reference, referenceValue,
                    Optimization(reference, referenceValue, referenceValue, 0, NonFiniteObjective))
  {
    hide Feasible, Legal, HasNoValue, Moved, MovesBounded, ClimbStep, IsClimb;
    assert MeetsNoValue(p, target);
  }

  class Searcher {
    const p: Problem

    constructor (p: Problem)
      ensures this.p == p
    {
      this.p := p;
    }

    /** `feasible` */
    method IsFeasible(target: Lots) returns (ok: bool)
      ensures ok <==> Feasible(p, target)
    {
      var normalized := Normalized(target);
      var left := normalized.Keys + p.requested.Keys;
      while left != {}
        invariant left <= normalized.Keys + p.requested.Keys
        invariant forall s | s in normalized.Keys + p.requested.Keys && s !in left ::
                    WithinIntent(At(target, s), At(p.requested, s), p.cap)
        decreases left
      {
        var s :| s in left;
        if !WithinIntent(At(normalized, s), At(p.requested, s), p.cap) {
          return false;
        }
        left := left - {s};
      }
      TotalIgnoresZeros(target, p.notionals);
      TotalIgnoresZeros(target, p.margins);
      var gross := Measure(normalized, p.notionals);
      if gross > p.grossLimit + EPS {
        return false;
      }
      var margin := Measure(normalized, p.margins);
      ok := margin <= p.marginBudget + EPS;
    }

    /** Evaluate one candidate of a pass. */
    method Consider(best: Search, candidate: Lots, value: real) returns (next: Search)
      requires NoZeros(candidate) && !best.NotFinite? && GoodFind(p, best, value)
      ensures GoodFind(p, next, value)
      ensures next.NotFinite? ==> Feasible(p, candidate) && p.objective(candidate) == None
      ensures !next.NotFinite? ==> Seen(p, candidate, Bound(next, value)) && Bound(best, value) <= Bound(next, value)
      ensures next == best || next.NotFinite?
              || (next.Found? && next.target == candidate && next.value > Bound(best, value))
    {
      var ok := IsFeasible(candidate);
      if !ok {
        return best;
      }
      var evaluated := p.objective(candidate);
      if evaluated == None {
        return NotFinite;
      }
      next := Keep(best, candidate, evaluated.value, evaluated.value - value, value);
    }

    /** The best legal one-lot move, in symbol order. */
    method BestMove(target: Lots, value: real, symbols: seq<Symbol>) returns (best: Search)
      requires NoZeros(target) && StrictlySorted(symbols) && forall s :: s in symbols <==> s in p.requested
      ensures GoodFind(p, best, value)
      ensures best.NotFinite? ==>
                exists s: Symbol, d: int :: Legal(p, target, s, d) && HasNoValue(p, Moved(target, s, d))
      ensures !best.NotFinite? ==> MovesBounded(p, target, Bound(best, value))
      ensures best.Found? ==> IsBestMove(p, target, best.target, best.value)
    {
      hide *;
      best := NothingBetter;
      ghost var at: (Symbol, int) := (0, 0);
      NothingTried(p, target, Bound(best, value), symbols, value, at);
      for i := 0 to |symbols|
        invariant !best.NotFinite? && GoodFind(p, best, value) && Tracked(p, target, best, at)
        invariant SymbolsSeen(p, target, Bound(best, value), symbols, i)
      {
        var deltas := LegalDeltas(At(target, symbols[i]), p.requested[symbols[i]], p.cap);
        NoDeltasTried(p, target, Bound(best, value), symbols[i], deltas);
        for j := 0 to |deltas|
          invariant !best.NotFinite? && GoodFind(p, best, value) && Tracked(p, target, best, at)
          invariant SymbolsSeen(p, target, Bound(best, value), symbols, i)
          invariant DeltasSeen(p, target, Bound(best, value), symbols[i], deltas, j)
        {
          ghost var before := best;
          MovedIsLegal(p, target, symbols[i], deltas, j);
          best := Consider(best, Moved(target, symbols[i], deltas[j]), value);
          if best.NotFinite? {
            ValuelessMove(p, target, symbols[i], deltas[j]);
            return;
          }
          if best != before {
            EarlierMoves(p, target, symbols, i, deltas, j, Bound(before, value), best.value);
            at := (symbols[i], deltas[j]);
            TrackedAt(p, target, best, at);
          }
          MovesSeenGrow(p, target, Bound(before, value), Bound(best, value), symbols, i, deltas, j);
        }
        SymbolJoins(p, target, Bound(best, value), symbols, i, deltas);
      }
      AllSymbolsSeen(p, target, Bound(best, value), symbols);
      if best.Found? {
        BoundOfFound(best, value);
        TrackedMove(p, target, best, at);
      }
    }

    /** All legal one-lot moves, in symbol order. */
    method Moves(target: Lots, symbols: seq<Symbol>) returns (moves: seq<(Symbol, int)>)
      requires StrictlySorted(symbols) && forall s :: s in symbols <==> s in p.requested
      ensures forall s: Symbol, d: int :: (s, d) in moves <==> Legal(p, target, s, d)
      ensures InTrialOrder(moves)
    {
      hide *;
      moves := [];
      NoneListed(p, target, symbols);
      for i := 0 to |symbols|
        invariant Listed(p, target, symbols, i, [], 0, moves) && InTrialOrder(moves)
      {
        var deltas := LegalDeltas(At(target, symbols[i]), p.requested[symbols[i]], p.cap);
        RowStarts(p, target, symbols, i, deltas, moves);
        for j := 0 to |deltas|
          invariant Listed(p, target, symbols, i, deltas, j, moves) && InTrialOrder(moves)
        {
          OneMoreListed(p, target, symbols, i, deltas, j, moves);
          moves := moves + [(symbols[i], deltas[j])];
        }
        RowListed(p, target, symbols, i, deltas, moves);
      }
      AllListed(p, target, symbols, moves);
    }

    /** The best pair of legal moves on two different symbols. */
    method BestSwap(target: Lots, value: real, symbols: seq<Symbol>) returns (best: Search)
      requires NoZeros(target) && StrictlySorted(symbols) && forall s :: s in symbols <==> s in p.requested
      ensures GoodFind(p, best, value)
      ensures best.NotFinite? ==>
                exists s: Symbol, d: int, t: Symbol, e: int ::
                  && s < t && Legal(p, target, s, d) && Legal(p, target, t, e)
                  && HasNoValue(p, Moved(Moved(target, s, d), t, e))
      ensures !best.NotFinite? ==> SwapsBounded(p, target, Bound(best, value))
      ensures best.Found? ==> IsBestSwap(p, target, best.target, best.value)
    {
      hide *;
      best := NothingBetter;
      ghost var a: nat, b: nat := 0, 0;
      var moves := Moves(target, symbols);
      NothingPaired(p, target, value, moves);
      NoSwapsYet(p, target, Bound(best, value), moves);
      for i := 0 to |moves|
        invariant !best.NotFinite? && GoodFind(p, best, value) && TrackedPair(p, target, best, moves, a, b)
        invariant SwapsSeen(p, target, Bound(best, value), moves, i)
      {
        EmptyRow(p, target, Bound(best, value), moves, i);
        for j := i + 1 to |moves|
          invariant !best.NotFinite? && GoodFind(p, best, value) && TrackedPair(p, target, best, moves, a, b)
          invariant SwapsSeen(p, target, Bound(best, value), moves, i)
          invariant RowSeen(p, target, Bound(best, value), moves, i, j)
        {
          ghost var before := best;
          if moves[i].0 != moves[j].0 {
            SwappedHasNoZeros(target, moves[i], moves[j]);
            best := Consider(best, Swapped(target, moves[i], moves[j]), value);
            if best.NotFinite? {
              NoValueThere(p, target, moves, i, j);
              return;
            }
            if best != before {
              EarlierPairs(p, target, Bound(before, value), moves, i, j, best.value);
              a, b := i, j;
              TrackedHere(p, target, best, moves, i, j);
            }
          }
          SeenGrows(p, target, Bound(before, value), Bound(best, value), moves, i, j);
        }
        RowJoins(p, target, Bound(best, value), moves, i);
      }
      ListedSwapsAreAll(p, target, Bound(best, value), moves);
      if best.Found? {
        BoundOfFound(best, value);
        TrackedSwap(p, target, best, moves, a, b);
      }
    }

    /** The hill climb from a feasible reference. */
    method Climb(reference: Lots, referenceValue: real) returns (r: Optimization)
      requires NoZeros(reference) && Feasible(p, reference) && p.objective(reference) == Some(referenceValue)
      ensures Outcome(p, reference, referenceValue, r)
    {
      hide *;
      var symbols := SortSymbols(p.requested.Keys);
      var target, value, iterations := reference, referenceValue, 0;
      ghost var trace := [reference];
      ClimbStarts(p, reference, referenceValue);
      while true
        invariant iterations >= 0 && NoZeros(target) && p.objective(target) == Some(value)
        invariant Climbing(p, reference, referenceValue, trace, target, value, iterations)
        decreases Better(p, value)
      {
        var best := BestMove(target, value, symbols);
        ghost var swapped := best.NothingBetter?;
        if best.NothingBetter? {
          NoneBeats(value);
          best := BestSwap(target, value, symbols);
          if best.NothingBetter? {
            r := Optimization(target, referenceValue, value, iterations, NoFallback);
            ClimbEnds(p, reference, referenceValue, trace, r);
            return;
          }
        }
        if best.NotFinite? {
          r := Optimization(reference, referenceValue, referenceValue, 0, NonFiniteObjective);
          ClimbFails(p, reference, referenceValue, trace, target, value, iterations, swapped);
          return;
        }
        ClimbsOn(p, reference, referenceValue, trace, target, value, iterations, best, swapped);
        trace := trace + [best.target];
        target, value, iterations := best.target, best.value, iterations + 1;
      }
    }
  }

  /** Every symbol in play has a positive notional and margin. */
  method HasEvidence(symbols: set<Symbol>, notionals: Weights, margins: Weights) returns (complete: bool)
    ensures complete <==> forall s | s in symbols :: Weight(notionals, s) > 0.0 && Weight(margins, s) > 0.0
  {
    var order := SortSymbols(symbols);
    for i := 0 to |order|
      invariant forall j | 0 <= j < i :: Weight(notionals, order[j]) > 0.0 && Weight(margins, order[j]) > 0.0
    {
      if Weight(notionals, order[i]) <= 0.0 || Weight(margins, order[i]) <= 0.0 {
        assert order[i] in order;
        return false;
      }
    }
    complete := true;
  }

  /** `optimize_integer_targets` */
  method OptimizeIntegerTargets(referenceLots: Lots, requested: Lots, current: Lots,
                                notionals: Weights, margins: Weights, equity: real, softMarginBudget: real,
                                maxGrossRatio: real, maxAbsLots: int, objective: Lots -> Option<real>)
    returns (r: Checked<Optimization>)
    ensures r.Value? <==> ValidInputs(Normalized(referenceLots).Keys + requested.Keys + current.Keys,
                                      notionals, margins, equity, softMarginBudget, maxGrossRatio, maxAbsLots)
    ensures r.Value? ==>
              var p := Problem(requested, if maxAbsLots < 35 then maxAbsLots else 35, notionals, margins,
                               equity * maxGrossRatio, softMarginBudget, objective);
              var reference := Normalized(referenceLots);
              match objective(reference)
              case None => r.value == Optimization(reference, 0.0, 0.0, 0, NonFiniteObjective)
              case Some(value) =>
                if Feasible(p, reference) then Outcome(p, reference, value, r.value)
                else r.value == Optimization(reference, value, value, 0, ReferenceInfeasible)
  {
    if equity <= 0.0 || softMarginBudget < 0.0 || softMarginBudget > equity * HARD_MARGIN_SHARE + EPS ||
       !(0.0 < maxGrossRatio <= HARD_MAX_GROSS_RATIO) || maxAbsLots <= 0 {
      return ValueError;
    }
    hide Outcome, Feasible, Weight;
    var reference := Normalized(referenceLots);
    var complete := HasEvidence(reference.Keys + requested.Keys + current.Keys, notionals, margins);
    if !complete {
      return ValueError;
    }
    var p := Problem(requested, Min(maxAbsLots, HARD_MAX_ABS_LOTS), notionals, margins,
                     equity * maxGrossRatio, softMarginBudget, objective);
    var searcher := new Searcher(p);
    var evaluated := objective(reference);
    if evaluated == None {
      return Value(Optimization(reference, 0.0, 0.0, 0, NonFiniteObjective));
    }
    var feasible := searcher.IsFeasible(reference);
    if !feasible {
      return Value(Optimization(reference, evaluated.value, evaluated.value, 0, ReferenceInfeasible));
    }
    var climbed := searcher.Climb(reference, evaluated.value);
    r := Value(climbed);
  }
}
