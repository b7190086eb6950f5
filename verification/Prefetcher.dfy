/** The metadata prefetcher as interleaved atomic steps: each critical section of a caller and
    each completion of a background query is one step. */
module Prefetcher {
  import opened Wrappers

  type Symbol = nat
  type Spec = nat
  type Key = set<Symbol>

  datatype Error = NoError | Failed(code: nat) | MissingRows(symbols: set<Symbol>)

  /** `timeout` marks an error of the class that `wait` catches as its own timeout. */
  datatype Result = Pending | Rows(rows: map<Symbol, Spec>) | Raised(code: nat, timeout: bool)

  /** A query, handed to the executor or made by the caller itself; `submitted` counts the
      invalidations before it. */
  datatype Query = Query(key: Key, submitted: nat, scheduled: bool, result: Result)

  /** The dictionaries under the lock, the executor's queries, and where each row came from. */
  datatype View = View(
    futures: map<Key, nat>,
    cache: map<Symbol, Spec>,
    errors: map<Key, Error>,
    queries: seq<Query>,
    invalidations: nat,
    origins: map<Symbol, nat>
  )

  function Empty(): View {
    View(map[], map[], map[], [], 0, map[])
  }

  // ---- Critical sections ----

  function Merge(cache: map<Symbol, Spec>, key: Key, rows: map<Symbol, Spec>): map<Symbol, Spec>
    requires key <= rows.Keys
  {
    cache + map s | s in key :: rows[s]
  }

  /** `_apply_rows_locked` for the rows of query `id`. */
  function ApplyRows(v: View, key: Key, rows: map<Symbol, Spec>, id: nat): View {
    if key <= rows.Keys then
      v.(cache := Merge(v.cache, key, rows), errors := v.errors - {key}, futures := v.futures - {key},
         origins := v.origins + map s | s in key :: id)
    else
      v.(errors := v.errors[key := MissingRows(key - rows.Keys)])
  }

  /** `_harvest_locked` */
  function Harvest(v: View, key: Key): View {
    if key !in v.futures || v.futures[key] >= |v.queries| then v
    else
      var id := v.futures[key];
      var popped := v.(futures := v.futures - {key});
      match v.queries[id].result
      case Pending => v
      case Raised(code, _) => popped.(errors := v.errors[key := Failed(code)])
      case Rows(rows) => ApplyRows(popped, key, rows, id)
  }

  /** The second critical section of `request`: one query per key at a time. */
  function Submit(v: View, key: Key): View {
    if key in v.futures then v
    else
      v.(errors := v.errors - {key}, futures := v.futures[key := |v.queries|],
         queries := v.queries + [Query(key, v.invalidations, true, Pending)])
  }

  /** The synchronous branch of `request` queries by itself, outside the lock. */
  function Asked(v: View, key: Key): View {
    v.(queries := v.queries + [Query(key, v.invalidations, false, Pending)])
  }

  /** The last section of `wait` and of the synchronous branch: the outcome of a query held across
      the lock is applied, whatever happened meanwhile. An unfinished one timed out, and `wait` takes
      such an error of the query for its own timeout. */
  function Delivered(v: View, id: nat): View {
    if id >= |v.queries| then v
    else
      var q := v.queries[id];
      match q.result
      case Pending => v
      case Raised(code, timeout) =>
        if q.scheduled && timeout then v
        else
          v.(errors := v.errors[q.key := Failed(code)],
             futures := if q.scheduled then v.futures - {q.key} else v.futures)
      case Rows(rows) => ApplyRows(v, q.key, rows, id)
  }

  function Invalidated(v: View): View {
    v.(cache := map[], errors := map[], futures := map[], origins := map[], invalidations := v.invalidations + 1)
  }

  function Finished(v: View, id: nat, result: Result): View {
    if id < |v.queries| && v.queries[id].result.Pending? then
      v.(queries := v.queries[id := v.queries[id].(result := result)])
    else v
  }

  function Answer(v: View, key: Key): Option<map<Symbol, Spec>> {
    if key <= v.cache.Keys then Some(map s | s in key :: v.cache[s]) else None
  }

  /** What is cached of a key. */
  function Found(v: View, key: Key): map<Symbol, Spec> {
    map s | s in key && s in v.cache :: v.cache[s]
  }

  datatype Step =
    | Look(key: Key)
    | Schedule(key: Key)
    | Invalidate
    | Finish(id: nat, result: Result)
    | Ask(key: Key)
    | Deliver(id: nat)

  /** `get`, `error` and the first sections of `request` and `wait` all harvest and look. */
  function Apply(v: View, step: Step): View {
    match step
    case Look(key) => Harvest(v, key)
    case Schedule(key) => Submit(v, key)
    case Invalidate => Invalidated(v)
    case Finish(id, result) => Finished(v, id, result)
    case Ask(key) => Asked(v, key)
    case Deliver(id) => Delivered(v, id)
  }

  function Run(v: View, steps: seq<Step>): View {
    if steps == [] then v else Apply(Run(v, steps[..|steps| - 1]), steps[|steps| - 1])
  }

  // ---- Freshness ----

  predicate FreshQuery(v: View, id: nat) {
    id < |v.queries| && v.queries[id].submitted == v.invalidations
  }

  /** The row was delivered by a query for it that was submitted after the latest invalidation. */
  predicate FreshRow(v: View, s: Symbol)
    requires s in v.cache
  {
    && s in v.origins && FreshQuery(v, v.origins[s])
    && var q := v.queries[v.origins[s]];
       q.result.Rows? && s in q.key && s in q.result.rows && q.result.rows[s] == v.cache[s]
  }

  predicate FreshCache(v: View) {
    forall s | s in v.cache :: FreshRow(v, s)
  }

  predicate Unfinished(v: View, id: nat)
    requires id < |v.queries|
  {
    v.queries[id].submitted == v.invalidations && v.queries[id].scheduled && v.queries[id].result.Pending?
  }

  /** The scheduled queries are the fresh ones still to be harvested, one per key; an unfinished
      fresh query is never forgotten, so no key is queried twice at once. */
  predicate SingleFlight(v: View) {
    && (forall key | key in v.futures :: FreshQuery(v, v.futures[key]) && v.queries[v.futures[key]].key == key)
    && (forall id | 0 <= id < |v.queries| && Unfinished(v, id) ::
          v.queries[id].key in v.futures && v.futures[v.queries[id].key] == id)
    && (forall id | 0 <= id < |v.queries| :: v.queries[id].submitted <= v.invalidations)
  }

  predicate Inv(v: View) {
    FreshCache(v) && SingleFlight(v)
  }

  lemma HarvestKeepsInvariant(v: View, key: Key)
    requires Inv(v)
    ensures Inv(Harvest(v, key))
  {
    InvParts(v);
    InvParts(Harvest(v, key));
    if key in v.futures && !v.queries[v.futures[key]].result.Pending? {
      var popped, w := v.(futures := v.futures - {key}), Harvest(v, key);
      hide *;
      FlightOf(v, key);
      HarvestIsFresh(v, key, v.futures[key]);
      PoppedFlights(v, key);
      HarvestPops(v, key);
      SameFlights(popped, w);
    }
  }

  lemma FlightOf(v: View, key: Key)
    requires SingleFlight(v) && key in v.futures
    ensures v.futures[key] < |v.queries|
    ensures !v.queries[v.futures[key]].result.Pending? ==> !Unfinished(v, v.futures[key])
  {
  }

  lemma HarvestPops(v: View, key: Key)
    requires key in v.futures && v.futures[key] < |v.queries| && !v.queries[v.futures[key]].result.Pending?
    ensures var w := Harvest(v, key);
            w.futures == v.futures - {key} && w.queries == v.queries && w.invalidations == v.invalidations
  {
  }

  lemma HarvestIsFresh(v: View, key: Key, id: nat)
    requires Inv(v) && key in v.futures && v.futures[key] == id
    ensures FreshCache(Harvest(v, key))
  {
    match v.queries[id].result
    case Pending =>
    case Raised(_, _) =>
    case Rows(rows) =>
      AppliedRowsAreFresh(v.(futures := v.futures - {key}), key, rows, id);
  }

  lemma AppliedRowsAreFresh(v: View, key: Key, rows: map<Symbol, Spec>, id: nat)
    requires FreshCache(v) && FreshQuery(v, id)
    requires v.queries[id] == Query(key, v.invalidations, v.queries[id].scheduled, Rows(rows))
    ensures FreshCache(ApplyRows(v, key, rows, id))
  {
    var w := ApplyRows(v, key, rows, id);
    forall s | s in w.cache
      ensures FreshRow(w, s)
    {
      assert s !in key || !(key <= rows.Keys) ==> FreshRow(v, s);
    }
  }

  lemma SubmitKeepsInvariant(v: View, key: Key)
    requires Inv(v)
    ensures Inv(Submit(v, key))
  {
    var w := Submit(v, key);
    forall s | s in w.cache
      ensures FreshRow(w, s)
    {
      assert FreshRow(v, s);
    }
  }

  lemma FinishKeepsInvariant(v: View, id: nat, result: Result)
    requires Inv(v)
    ensures Inv(Finished(v, id, result))
  {
    var w := Finished(v, id, result);
    forall s | s in w.cache
      ensures FreshRow(w, s)
    {
      assert FreshRow(v, s);
    }
  }

  lemma AskKeepsInvariant(v: View, key: Key)
    requires Inv(v)
    ensures Inv(Asked(v, key))
  {
    var w := Asked(v, key);
    forall s | s in w.cache
      ensures FreshRow(w, s)
    {
      assert FreshRow(v, s);
    }
  }

  /** What a held query may be when it is applied: still fresh, or without a row to leave. */
  predicate Timely(v: View, id: nat) {
    id < |v.queries| ==>
      var q := v.queries[id];
      q.submitted == v.invalidations || !q.result.Rows? || !(q.key <= q.result.rows.Keys) || q.key == {}
  }

  /** A held query takes its key out of the dictionary when it is applied. */
  predicate Pops(q: Query) {
    || (q.scheduled && q.result.Raised? && !q.result.timeout)
    || (q.result.Rows? && q.key <= q.result.rows.Keys)
  }

  /** Applying a held query throws away the unfinished query that took its place. */
  predicate Forgets(v: View, id: nat) {
    && id < |v.queries|
    && (var q := v.queries[id];
        && Pops(q)
        && q.key in v.futures && v.futures[q.key] < |v.queries| && Unfinished(v, v.futures[q.key]))
  }

  /** A delivery keeps the cache fresh and one flight per key exactly when it is timely and
      forgets nothing. */
  lemma {:induction false} DeliveryKeepsInvariant(v: View, id: nat)
    requires Inv(v)
    ensures FreshCache(Delivered(v, id)) <==> Timely(v, id)
    ensures SingleFlight(Delivered(v, id)) <==> !Forgets(v, id)
  {
    if id < |v.queries| {
      CapturedRowsMayBeStale(v, id);
      DeliveryForgets(v, id);
    }
  }

  lemma DeliveryForgets(v: View, id: nat)
    requires SingleFlight(v) && id < |v.queries|
    ensures SingleFlight(Delivered(v, id)) <==> !Forgets(v, id)
  {
    hide *;
    var w, q := Delivered(v, id), v.queries[id];
    PoppedFlights(v, q.key);
    FlightInRange(v, q.key);
    DeliveryPops(v, id);
    ForgetsByPopping(v, id);
    if Pops(q) {
      SameFlights(v.(futures := v.futures - {q.key}), w);
    } else {
      SameFlights(v, w);
    }
  }

  lemma DeliveryPops(v: View, id: nat)
    requires id < |v.queries|
    ensures var w, q := Delivered(v, id), v.queries[id];
            && w.futures == (if Pops(q) then v.futures - {q.key} else v.futures)
            && w.queries == v.queries && w.invalidations == v.invalidations
  {
  }

  lemma ForgetsByPopping(v: View, id: nat)
    requires id < |v.queries|
    ensures var q := v.queries[id];
            Forgets(v, id) <==>
              Pops(q) && q.key in v.futures && v.futures[q.key] < |v.queries| && Unfinished(v, v.futures[q.key])
  {
    hide Pops, Unfinished;
  }

  lemma FlightInRange(v: View, key: Key)
    requires SingleFlight(v)
    ensures key in v.futures ==> v.futures[key] < |v.queries|
  {
  }

  lemma SameFlights(v: View, w: View)
    requires v.futures == w.futures && v.queries == w.queries && v.invalidations == w.invalidations
    ensures SingleFlight(v) <==> SingleFlight(w)
  {
  }

  lemma PoppedFlights(v: View, key: Key)
    requires SingleFlight(v)
    ensures SingleFlight(v.(futures := v.futures - {key})) <==>
              !(key in v.futures && v.futures[key] < |v.queries| && Unfinished(v, v.futures[key]))
  {
    var w := v.(futures := v.futures - {key});
    if key in v.futures && Unfinished(v, v.futures[key]) {
      assert Unfinished(w, v.futures[key]);
    } else {
      forall i | 0 <= i < |w.queries| && Unfinished(w, i)
        ensures w.queries[i].key in w.futures && w.futures[w.queries[i].key] == i
      {
        assert Unfinished(v, i);
      }
    }
  }

  /** Every query that is held across the lock is applied in time. */
  predicate InTime(steps: seq<Step>) {
    forall i | 0 <= i < |steps| :: TimelyAt(steps, i)
  }

  predicate TimelyAt(steps: seq<Step>, i: nat)
    requires i < |steps|
  {
    var v := Run(Empty(), steps[..i]);
    steps[i].Deliver? ==> Timely(v, steps[i].id) && !Forgets(v, steps[i].id)
  }

  /** Over every interleaving: what the cache holds came from a query submitted after the latest
      invalidation, and no key has two unfinished background queries since then, at all times
      exactly when every held query is applied in time. A blocking broker's `request`, `get` and
      `error` hold none. */
  lemma {:induction false} RunsStayFresh(steps: seq<Step>)
    ensures (forall i | 0 <= i <= |steps| :: Inv(Run(Empty(), steps[..i]))) <==> InTime(steps)
  {
    hide Inv, Apply, Timely, Forgets;
    if steps == [] {
      NothingCached(Empty());
      assert steps[..0] == [];
    } else {
      var front, last := steps[..|steps| - 1], |steps| - 1;
      RunsStayFresh(front);
      forall i | 0 <= i <= |front|
        ensures front[..i] == steps[..i]
      {
      }
      assert steps[..|steps|] == steps;
      assert InTime(steps) <==> InTime(front) && TimelyAt(steps, last) by {
        PrefixInTime(steps);
      }
      if InTime(front) {
        assert Inv(Run(Empty(), steps[..last]));
        StepStaysFresh(Run(Empty(), front), steps[last]);
        assert Inv(Run(Empty(), steps)) <==> TimelyAt(steps, last);
      } else {
        var i :| 0 <= i <= |front| && !Inv(Run(Empty(), front[..i]));
        assert steps[..i] == front[..i];
      }
    }
  }

  lemma PrefixInTime(steps: seq<Step>)
    requires steps != []
    ensures InTime(steps) <==> InTime(steps[..|steps| - 1]) && TimelyAt(steps, |steps| - 1)
  {
    hide Run, Timely, Forgets;
    var front := steps[..|steps| - 1];
    forall i | 0 <= i < |front|
      ensures TimelyAt(front, i) == TimelyAt(steps, i)
    {
      assert front[..i] == steps[..i];
    }
  }

  lemma StepStaysFresh(v: View, step: Step)
    requires Inv(v)
    ensures Inv(Apply(v, step)) <==> (step.Deliver? ==> Timely(v, step.id) && !Forgets(v, step.id))
  {
    hide Inv, Harvest, Submit, Finished, Invalidated, Asked, Delivered, Timely, Forgets;
    match step
    case Look(key) => HarvestKeepsInvariant(v, key);
    case Schedule(key) => SubmitKeepsInvariant(v, key);
    case Invalidate => InvalidateKeepsInvariant(v);
    case Finish(id, result) => FinishKeepsInvariant(v, id, result);
    case Ask(key) => AskKeepsInvariant(v, key);
    case Deliver(id) =>
      DeliveryKeepsInvariant(v, id);
      InvParts(Delivered(v, id));
  }

  lemma InvParts(v: View)
    ensures Inv(v) <==> FreshCache(v) && SingleFlight(v)
  {
    hide FreshCache, SingleFlight;
  }

  lemma NothingCached(v: View)
    requires v == Empty()
    ensures Inv(v)
  {
  }

  lemma InvalidateKeepsInvariant(v: View)
    requires Inv(v)
    ensures Inv(Invalidated(v))
  {
  }

  /** When held queries are applied in time, every answer is made of rows that were delivered by
      queries made after the latest invalidation. */
  lemma {:induction false} AnswersAreFresh(steps: seq<Step>, key: Key, s: Symbol)
    requires InTime(steps)
    requires var v := Run(Empty(), steps); Answer(v, key).Some? && s in key
    ensures var v := Run(Empty(), steps);
            exists id: nat :: FreshQuery(v, id) && v.queries[id].result.Rows? && s in v.queries[id].result.rows
                         && v.queries[id].result.rows[s] == Answer(v, key).value[s]
  {
    RunsStayFresh(steps);
    assert steps[..|steps|] == steps;
    var v := Run(Empty(), steps);
    assert Inv(v);
    assert FreshRow(v, s);
    hide Run;
    assert FreshQuery(v, v.origins[s]);
  }

  /** A query from before the invalidation can finish, but unless it was held across it, what it
      brings is never cached. */
  lemma {:induction false} StaleQueriesAreIgnored(v: View, steps: seq<Step>, id: nat)
    requires Inv(v) && id < |v.queries| && v.queries[id].submitted < v.invalidations
    requires forall i | 0 <= i < |steps| :: !steps[i].Deliver?
    ensures var w := Run(v, steps);
            && Inv(w) && id < |w.queries| && w.queries[id].submitted == v.queries[id].submitted
            && v.invalidations <= w.invalidations
            && (forall key | key in w.futures :: w.futures[key] != id)
            && (forall s | s in w.cache :: w.origins[s] != id)
  {
    hide Inv, Apply, Timely, Forgets;
    if steps != [] {
      var before := Run(v, steps[..|steps| - 1]);
      StaleQueriesAreIgnored(v, steps[..|steps| - 1], id);
      StepStaysFresh(before, steps[|steps| - 1]);
      StepKeepsQuery(before, steps[|steps| - 1], id);
    }
    StaleIsForgotten(Run(v, steps), id);
  }

  lemma StepKeepsQuery(v: View, step: Step, id: nat)
    requires id < |v.queries|
    ensures id < |Apply(v, step).queries| && Apply(v, step).queries[id].submitted == v.queries[id].submitted
    ensures v.invalidations <= Apply(v, step).invalidations
  {
  }

  lemma StaleIsForgotten(v: View, id: nat)
    requires Inv(v)
    ensures id < |v.queries| && v.queries[id].submitted < v.invalidations ==>
              && (forall key | key in v.futures :: v.futures[key] != id)
              && (forall s | s in v.cache :: v.origins[s] != id)
  {
    forall s | s in v.cache
      ensures FreshRow(v, s)
    {
    }
  }

  // ---- Applying a held query: `wait` and the synchronous branch ----

  /** That keeps the cache fresh exactly when the query is still fresh, or leaves no row. */
  lemma {:induction false} CapturedRowsMayBeStale(v: View, id: nat)
    requires FreshCache(v) && id < |v.queries|
    ensures FreshCache(Delivered(v, id)) <==> Timely(v, id)
  {
    var q := v.queries[id];
    var w := Delivered(v, id);
    if !Timely(v, id) {
      var s :| s in q.key;
      assert s in w.cache && w.origins[s] == id;
      assert !FreshRow(w, s);
    } else {
      forall t | t in w.cache
        ensures FreshRow(w, t)
      {
        assert (q.result.Rows? && q.key <= q.result.rows.Keys && t in q.key) || FreshRow(v, t);
      }
    }
  }

  lemma FourSteps(v: View, a: Step, b: Step, c: Step, d: Step)
    ensures Run(v, [a, b, c, d]) == Apply(Apply(Apply(Apply(v, a), b), c), d)
  {
    hide Apply;
    assert [a, b, c, d][..3] == [a, b, c] && [a, b, c][..2] == [a, b] && [a, b][..1] == [a] && [a][..0] == [];
    assert Run(v, [a]) == Apply(v, a);
    assert Run(v, [a, b]) == Apply(Run(v, [a]), b);
    assert Run(v, [a, b, c]) == Apply(Run(v, [a, b]), c);
  }

  /** It happens: rows queried before an invalidation, by the executor or by the caller itself,
      answer for any symbol after it. */
  lemma {:induction false} StaleAnswersAreReachable(s: Symbol, spec: Spec, background: bool)
    ensures var ask := if background then Schedule({s}) else Ask({s});
            var v := Run(Empty(), [ask, Finish(0, Rows(map[s := spec])), Invalidate, Deliver(0)]);
            && Answer(v, {s}) == Some(map[s := spec])
            && s in v.origins && v.origins[s] == 0
            && |v.queries| == 1 && v.queries[0].submitted == 0 && v.invalidations == 1
  {
    var ask, rows := if background then Schedule({s}) else Ask({s}), map[s := spec];
    FourSteps(Empty(), ask, Finish(0, Rows(rows)), Invalidate, Deliver(0));
    var asked := Apply(Empty(), ask);
    assert asked.queries == [Query({s}, 0, background, Pending)];
    var finished := Apply(asked, Finish(0, Rows(rows)));
    assert finished.queries == [Query({s}, 0, background, Rows(rows))];
    var after := Apply(finished, Invalidate);
    assert after.cache == map[] && after.origins == map[] && after.queries == finished.queries;
    DeliversOne(after, s, spec, background);
    var steps := [ask, Finish(0, Rows(rows)), Invalidate, Deliver(0)];
    assert Run(Empty(), steps) == Apply(after, Deliver(0));
  }

  lemma DeliversOne(v: View, s: Symbol, spec: Spec, background: bool)
    requires v.cache == map[] && v.queries == [Query({s}, 0, background, Rows(map[s := spec]))]
    ensures var w := Apply(v, Deliver(0));
            && Answer(w, {s}) == Some(map[s := spec]) && w.invalidations == v.invalidations
            && s in w.origins && w.origins[s] == 0 && w.queries == v.queries
  {
    var rows, w := map[s := spec], Apply(v, Deliver(0));
    assert {s} <= rows.Keys && w == ApplyRows(v, {s}, rows, 0);
    assert w.cache == rows;
    var answer := Answer(w, {s});
    assert answer.Some? && answer.value.Keys == {s} && answer.value[s] == spec;
    assert answer.value == rows;
  }

  /** And a waiting caller whose query failed can throw away the query that replaced it, so that
      a third one starts while the second is unfinished. */
  lemma {:induction false} ReplacementsCanBeForgotten(key: Key, code: nat)
    ensures var failed := [Schedule(key), Finish(0, Raised(code, false)), Look(key), Schedule(key)];
            var v := Run(Run(Empty(), failed), [Deliver(0), Schedule(key)]);
            && |v.queries| == 3 && v.futures[key] == 2
            && Unfinished(v, 1) && Unfinished(v, 2) && v.queries[1].key == v.queries[2].key == key
  {
    FourSteps(Empty(), Schedule(key), Finish(0, Raised(code, false)), Look(key), Schedule(key));
    var one := Apply(Empty(), Schedule(key));
    assert one.queries == [Query(key, 0, true, Pending)];
    var two := Apply(one, Finish(0, Raised(code, false)));
    assert two.queries == [Query(key, 0, true, Raised(code, false))];
    var v := Apply(Apply(two, Look(key)), Schedule(key));
    assert v.queries == two.queries + [Query(key, 0, true, Pending)] && v.futures[key] == 1;
    TwoSteps(v, Deliver(0), Schedule(key));
  }

  lemma TwoSteps(v: View, a: Step, b: Step)
    ensures Run(v, [a, b]) == Apply(Apply(v, a), b)
  {
    hide Apply;
    assert [a, b][..1] == [a] && [a][..0] == [];
    assert Run(v, [a]) == Apply(v, a);
  }

  lemma OneStep(v: View, a: Step)
    ensures Run(v, [a]) == Apply(v, a)
  {
    assert [a][..0] == [];
  }

  lemma ThreeSteps(v: View, a: Step, b: Step, c: Step)
    ensures Run(v, [a, b, c]) == Apply(Apply(Apply(v, a), b), c)
  {
    hide Apply;
    TwoSteps(v, a, b);
    assert [a, b, c][..2] == [a, b];
  }

  // ---- The object ----

  class MetadataPrefetcher {
    var futures: map<Key, nat>
    var cache: map<Symbol, Spec>
    var errors: map<Key, Error>
    var queries: seq<Query>
    /** Bookkeeping the program does not have: how many invalidations there were, and which
        query brought each row. */
    var invalidations: nat
    ghost var origins: map<Symbol, nat>

    ghost function TheView(): View
      reads this
    {
      View(futures, cache, errors, queries, invalidations, origins)
    }

    constructor ()
      ensures TheView() == Empty() && Inv(TheView())
    {
      futures, cache, errors, queries, invalidations, origins := map[], map[], map[], [], 0, map[];
    }

    method ApplyRowsLocked(key: Key, rows: map<Symbol, Spec>, ghost id: nat)
      modifies this
      ensures TheView() == ApplyRows(old(TheView()), key, rows, id)
    {
      var missing := key - rows.Keys;
      if missing != {} {
        assert !(key <= rows.Keys);
        errors := errors[key := MissingRows(missing)];
        return;
      }
      assert key <= rows.Keys by {
        forall s | s in key
          ensures s in rows
        {
          assert s !in missing;
        }
      }
      cache := Merge(cache, key, rows);
      origins := origins + map s | s in key :: id;
      errors := errors - {key};
      futures := futures - {key};
    }

    method HarvestLocked(key: Key)
      modifies this
      ensures TheView() == Harvest(old(TheView()), key)
    {
      if key !in futures || futures[key] >= |queries| || queries[futures[key]].result.Pending? {
        return;
      }
      var id := futures[key];
      futures := futures - {key};
      match queries[id].result
      case Raised(code, _) => errors := errors[key := Failed(code)];
      case Rows(rows) => ApplyRowsLocked(key, rows, id);
    }

    /** The first critical section of `request`. */
    method LookUp(key: Key) returns (cached: bool)
      modifies this
      ensures TheView() == Apply(old(TheView()), Look(key)) && (cached <==> key <= TheView().cache.Keys)
    {
      HarvestLocked(key);
      cached := key <= cache.Keys;
    }

    /** The second critical section of `request`. */
    method Enqueue(key: Key)
      modifies this
      ensures TheView() == Apply(old(TheView()), Schedule(key))
    {
      if key !in futures {
        errors := errors - {key};
        futures := futures[key := |queries|];
        queries := queries + [Query(key, invalidations, true, Pending)];
      }
    }

    /** The query of the synchronous branch. */
    method AskBroker(key: Key) returns (id: nat)
      modifies this
      ensures TheView() == Apply(old(TheView()), Ask(key)) && id == |old(queries)|
    {
      id := |queries|;
      queries := queries + [Query(key, invalidations, false, Pending)];
    }

    /** The last section of `wait` and of the synchronous branch. */
    method DeliverHeld(id: nat)
      requires id < |queries|
      modifies this
      ensures TheView() == Apply(old(TheView()), Deliver(id))
    {
      var q := queries[id];
      match q.result
      case Pending =>
      case Raised(code, timeout) =>
        if q.scheduled && timeout {
          return;
        }
        errors := errors[q.key := Failed(code)];
        if q.scheduled {
          futures := futures - {q.key};
        }
      case Rows(rows) => ApplyRowsLocked(q.key, rows, id);
    }

    /** The first section of `wait`: the query to wait for, or the answer there is. */
    method BeginWait(key: Key) returns (held: Option<nat>, answer: Option<map<Symbol, Spec>>)
      modifies this
      ensures TheView() == Apply(old(TheView()), Look(key))
      ensures held == if key in TheView().futures then Some(TheView().futures[key]) else None
      ensures answer == if held.None? then Answer(TheView(), key) else None
    {
      HarvestLocked(key);
      if key in futures {
        return Some(futures[key]), None;
      }
      held, answer := None, if key <= cache.Keys then Some(map s | s in key :: cache[s]) else None;
    }

    /** The last section of `wait`, with what it returns: nothing after a timeout or an error, and
        otherwise whatever part of the key is cached. */
    method EndWait(id: nat) returns (answer: Option<map<Symbol, Spec>>)
      requires id < |queries|
      modifies this
      ensures TheView() == Apply(old(TheView()), Deliver(id))
      ensures var q, found := old(queries)[id], Found(TheView(), old(queries)[id].key);
              answer == if q.result.Rows? && found != map[] then Some(found) else None
    {
      var q := queries[id];
      DeliverHeld(id);
      var found := map s | s in q.key && s in cache :: cache[s];
      answer := if q.result.Rows? && found != map[] then Some(found) else None;
    }

    /** `request`, when nobody comes between its sections. A blocking broker's query goes to the
        executor; any other is asked at once and delivers or raises. */
    method Request(key: Key, blocks: bool, result: Result) returns (ready: bool)
      requires !result.Pending?
      modifies this
      ensures key == {} ==> ready && TheView() == old(TheView())
      ensures key != {} ==>
                var looked := Apply(old(TheView()), Look(key));
                var id := |looked.queries|;
                if key <= looked.cache.Keys then ready && TheView() == looked
                else if blocks then !ready && TheView() == Run(looked, [Schedule(key)])
                else
                  && TheView() == Run(looked, [Ask(key), Finish(id, result), Deliver(id)])
                  && (ready <==> result.Rows? && key <= TheView().cache.Keys)
    {
      if key == {} {
        return true;
      }
      ready := LookUp(key);
      if ready {
        return;
      }
      ghost var looked := TheView();
      if blocks {
        Enqueue(key);
        OneStep(looked, Schedule(key));
        return;
      }
      var id := AskBroker(key);
      Complete(id, result);
      DeliverHeld(id);
      ThreeSteps(looked, Ask(key), Finish(id, result), Deliver(id));
      ready := result.Rows? && key <= cache.Keys;
    }

    method Get(key: Key) returns (answer: Option<map<Symbol, Spec>>)
      modifies this
      ensures TheView() == Apply(old(TheView()), Look(key)) && answer == Answer(TheView(), key)
    {
      HarvestLocked(key);
      if !(key <= cache.Keys) {
        return None;
      }
      answer := Some(map s | s in key :: cache[s]);
    }

    method ErrorOf(key: Key) returns (error: Error)
      modifies this
      ensures TheView() == Apply(old(TheView()), Look(key))
      ensures error == if key in TheView().errors then TheView().errors[key] else NoError
    {
      HarvestLocked(key);
      error := if key in errors then errors[key] else NoError;
    }

    method InvalidateAll()
      modifies this
      ensures TheView() == Apply(old(TheView()), Invalidate)
    {
      cache, errors, futures := map[], map[], map[];
      origins, invalidations := map[], invalidations + 1;
    }

    /** The executor finishes a query. */
    method Complete(id: nat, result: Result)
      modifies this
      ensures TheView() == Apply(old(TheView()), Finish(id, result))
    {
      if id < |queries| && queries[id].result.Pending? {
        queries := queries[id := queries[id].(result := result)];
      }
    }
  }
}
