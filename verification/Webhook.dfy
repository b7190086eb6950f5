/** The bounded webhook queue: callers send, one worker delivers, and any number of threads may
    close the sink. Every access to shared state is one atomic step. */
module Webhook {
  type Event = nat
  type Thread = nat

  /** Where the worker is: at the loop condition (before and after reading the closed flag),
      waiting for an event, holding one, delivering one, or gone. */
  datatype Worker = Idle | Leaving | Getting | Holding(held: Event) | Delivering(event: Event) | Stopped

  /** Where a call of `close` is. */
  datatype Closer = Joining | Forcing | Draining(discarded: nat) | Tallying(discarded: nat) | Finished

  /** Accepted events are numbered from zero. The last five fields only record what happened. */
  datatype Sink = Sink(
    bound: nat,
    queue: seq<Event>,
    closed: bool,
    discard: bool,
    dropped: nat,
    worker: Worker,
    closers: map<Thread, Closer>,
    accepted: nat,
    refused: nat,
    attempted: seq<Event>,
    discarded: seq<Event>,
    swallowed: seq<Event>
  )

  function Start(bound: nat): Sink {
    Sink(bound, [], false, false, 0, Idle, map[], 0, 0, [], [], [])
  }

  datatype Step =
    | Send
    | Work
    | BeginClose(thread: Thread)
    | JoinReturns(thread: Thread)
    | SetDiscard(thread: Thread)
    | TakeOne(thread: Thread)

  /** `send`: after closing it raises; a full queue only counts. */
  function Sent(s: Sink): Sink {
    if s.closed then s
    else if |s.queue| < s.bound then s.(queue := s.queue + [s.accepted], accepted := s.accepted + 1)
    else s.(dropped := s.dropped + 1, refused := s.refused + 1)
  }

  /** One step of `_run`. */
  function Worked(s: Sink): Sink {
    match s.worker
    case Idle => s.(worker := if s.closed then Leaving else Getting)
    case Leaving => s.(worker := if s.queue == [] then Stopped else Getting)
    case Getting =>
      if s.queue == [] then s.(worker := Idle)
      else s.(queue := s.queue[1..], worker := Holding(s.queue[0]))
    case Holding(e) =>
      if s.discard then s.(worker := Stopped, swallowed := s.swallowed + [e]) else s.(worker := Delivering(e))
    case Delivering(e) => s.(worker := Idle, attempted := s.attempted + [e])
    case Stopped => s
  }

  function StateOf(s: Sink, t: Thread): Closer {
    if t in s.closers then s.closers[t] else Finished
  }

  /** One step of `close`: flag, join, flag, drain one, and at last count what was drained. */
  function Apply(s: Sink, step: Step): Sink {
    match step
    case Send => Sent(s)
    case Work => Worked(s)
    case BeginClose(t) =>
      if StateOf(s, t) == Finished then s.(closed := true, closers := s.closers[t := Joining]) else s
    case JoinReturns(t) =>
      if StateOf(s, t) == Joining then
        s.(closers := s.closers[t := if s.worker == Stopped then Finished else Forcing])
      else s
    case SetDiscard(t) =>
      if StateOf(s, t) == Forcing then s.(discard := true, closers := s.closers[t := Draining(0)]) else s
    case TakeOne(t) =>
      match StateOf(s, t)
      case Draining(n) =>
        if s.queue == [] then s.(closers := s.closers[t := Tallying(n)])
        else s.(queue := s.queue[1..], discarded := s.discarded + [s.queue[0]],
                closers := s.closers[t := Draining(n + 1)])
      case Tallying(n) => s.(dropped := s.dropped + n, closers := s.closers[t := Finished])
      case _ => s
  }

  function Run(s: Sink, steps: seq<Step>): Sink {
    if steps == [] then s else Apply(Run(s, steps[..|steps| - 1]), steps[|steps| - 1])
  }

  // ---- Accounting ----

  function Hand(w: Worker): multiset<Event> {
    match w
    case Holding(e) => multiset{e}
    case Delivering(e) => multiset{e}
    case _ => multiset{}
  }

  ghost function Below(n: nat): multiset<Event> {
    if n == 0 then multiset{} else Below(n - 1) + multiset{n - 1}
  }

  function Count(closer: Closer): nat {
    if closer.Draining? || closer.Tallying? then closer.discarded else 0
  }

  ghost function PickOne(closers: map<Thread, Closer>): Thread
    requires closers != map[]
    ensures PickOne(closers) in closers
  {
    var t :| t in closers;
    t
  }

  /** Events drained by calls of `close` that have not counted them yet. */
  ghost function Uncounted(closers: map<Thread, Closer>): nat
    decreases |closers|
  {
    if closers == map[] then 0
    else Count(closers[PickOne(closers)]) + Uncounted(closers - {PickOne(closers)})
  }

  lemma {:induction false} UncountedWithout(closers: map<Thread, Closer>, t: Thread)
    requires t in closers
    ensures Uncounted(closers) == Count(closers[t]) + Uncounted(closers - {t})
    decreases |closers|
  {
    var p := PickOne(closers);
    if p != t {
      UncountedWithout(closers - {p}, t);
      UncountedWithout(closers - {t}, p);
      assert closers - {p} - {t} == closers - {t} - {p};
    }
  }

  lemma UncountedUpdated(closers: map<Thread, Closer>, t: Thread, c: Closer)
    ensures Uncounted(closers[t := c]) + Count(if t in closers then closers[t] else Finished)
            == Uncounted(closers) + Count(c)
  {
    var after := closers[t := c];
    UncountedWithout(after, t);
    if t in closers {
      UncountedWithout(closers, t);
      assert after - {t} == closers - {t};
    } else {
      assert after - {t} == closers;
    }
  }

  /** The queue holds the latest accepted events, in order. */
  predicate Queued(s: Sink) {
    && |s.queue| <= s.accepted && |s.queue| <= s.bound
    && forall i | 0 <= i < |s.queue| :: s.queue[i] == s.accepted - |s.queue| + i
  }

  function Taken(s: Sink): nat {
    if |s.queue| <= s.accepted then s.accepted - |s.queue| else 0
  }

  /** Every event taken off the queue is in exactly one place. */
  ghost predicate Partitioned(s: Sink) {
    multiset(s.attempted) + Hand(s.worker) + multiset(s.discarded) + multiset(s.swallowed) == Below(Taken(s))
  }

  /** Attempts come in the order of acceptance. */
  predicate InOrder(s: Sink) {
    && (forall i, j | 0 <= i < j < |s.attempted| :: s.attempted[i] < s.attempted[j])
    && (forall i | 0 <= i < |s.attempted| :: s.attempted[i] < Taken(s))
    && (s.worker.Holding? ==>
        s.worker.held < Taken(s) && forall i | 0 <= i < |s.attempted| :: s.attempted[i] < s.worker.held)
    && (s.worker.Delivering? ==>
        s.worker.event < Taken(s) && forall i | 0 <= i < |s.attempted| :: s.attempted[i] < s.worker.event)
  }

  predicate Phases(s: Sink) {
    && (s.closers != map[] ==> s.closed)
    && (s.discard ==> s.closed)
    && (forall t | t in s.closers && (s.closers[t].Draining? || s.closers[t].Tallying?) :: s.discard)
    && (s.discarded != [] ==> s.discard)
    && (s.worker == Leaving ==> s.closed)
    && |s.swallowed| <= 1
    && (s.swallowed != [] ==> s.worker == Stopped && s.discard)
    && (s.worker == Stopped && s.swallowed == [] ==> s.closed && s.queue == [])
  }

  ghost predicate Counted(s: Sink) {
    s.dropped + Uncounted(s.closers) == s.refused + |s.discarded|
  }

  ghost predicate Inv(s: Sink) {
    Queued(s) && Partitioned(s) && InOrder(s) && Phases(s) && Counted(s)
  }

  lemma StepKeepsQueue(s: Sink, step: Step)
    requires Queued(s)
    ensures Queued(Apply(s, step))
  {
  }

  lemma StepKeepsPhases(s: Sink, step: Step)
    requires Phases(s)
    ensures Phases(Apply(s, step))
  {
  }

  lemma StepKeepsOrder(s: Sink, step: Step)
    requires Queued(s) && InOrder(s)
    ensures InOrder(Apply(s, step))
  {
    match step
    case Work =>
      WorkKeepsOrder(s);
    case _ =>
      OthersTakeNoAttempt(s, step);
      LaterTakenIsFine(s, Apply(s, step));
  }

  lemma OthersTakeNoAttempt(s: Sink, step: Step)
    requires Queued(s) && step != Work
    ensures var t := Apply(s, step);
            t.attempted == s.attempted && t.worker == s.worker && Taken(s) <= Taken(t)
  {
  }

  lemma LaterTakenIsFine(s: Sink, t: Sink)
    requires InOrder(s) && t.attempted == s.attempted && t.worker == s.worker && Taken(s) <= Taken(t)
    ensures InOrder(t)
  {
    hide Taken;
  }

  lemma WorkKeepsOrder(s: Sink)
    requires Queued(s) && InOrder(s)
    ensures InOrder(Worked(s))
  {
    match s.worker
    case Getting =>
      GettingKeepsOrder(s);
    case Delivering(_) =>
      AttemptKeepsOrder(s);
    case _ =>
      hide Queued;
  }

  lemma GettingKeepsOrder(s: Sink)
    requires Queued(s) && InOrder(s) && s.worker.Getting?
    ensures InOrder(Worked(s))
  {
    var t := Worked(s);
    if s.queue != [] {
      assert s.queue[0] == Taken(s) && Taken(t) == Taken(s) + 1 && t.attempted == s.attempted;
    }
  }

  lemma AttemptKeepsOrder(s: Sink)
    requires InOrder(s) && s.worker.Delivering?
    ensures InOrder(Worked(s))
  {
    var t := Worked(s);
    assert Taken(t) == Taken(s) && t.attempted == s.attempted + [s.worker.event] && t.worker == Idle;
    hide Taken, Worked;
  }

  lemma StepKeepsPartition(s: Sink, step: Step)
    requires Queued(s) && Partitioned(s)
    ensures Partitioned(Apply(s, step))
  {
    hide Below, Hand;
    match step
    case Work =>
      WorkKeepsPartition(s);
    case TakeOne(t) =>
      TakingKeepsPartition(s, t);
    case Send =>
      SendingTakesNothing(s);
    case _ =>
      assert Taken(Apply(s, step)) == Taken(s);
  }

  lemma SendingTakesNothing(s: Sink)
    requires Queued(s) && Partitioned(s)
    ensures Partitioned(Sent(s))
  {
    hide Below, Hand;
    assert Taken(Sent(s)) == Taken(s);
  }

  lemma TakingKeepsPartition(s: Sink, t: Thread)
    requires Queued(s) && Partitioned(s)
    ensures Partitioned(Apply(s, TakeOne(t)))
  {
    hide Below, Hand;
    if StateOf(s, t).Draining? && s.queue != [] {
      OneMore(s.queue, Taken(s));
      Reorder(multiset(s.attempted), Hand(s.worker), multiset(s.discarded), multiset(s.swallowed));
      MovesOn(multiset(s.attempted) + Hand(s.worker) + multiset(s.swallowed), s.discarded, s.queue[0], Taken(s));
      Reorder(multiset(s.attempted), Hand(s.worker), multiset(s.discarded + [s.queue[0]]), multiset(s.swallowed));
    }
  }

  lemma Reorder(a: multiset<Event>, h: multiset<Event>, d: multiset<Event>, w: multiset<Event>)
    ensures a + h + w + d == a + h + d + w
  {
  }

  lemma OneMore(queue: seq<Event>, taken: nat)
    requires queue != []
    ensures |queue[1..]| == |queue| - 1 && Below(taken + 1) == Below(taken) + multiset{taken}
  {
  }

  /** The next event joins one of the places. */
  lemma MovesOn(others: multiset<Event>, place: seq<Event>, e: Event, taken: nat)
    requires others + multiset(place) == Below(taken) && e == taken
    ensures others + multiset(place + [e]) == Below(taken + 1)
  {
    assert multiset(place + [e]) == multiset(place) + multiset{e};
  }

  lemma WorkKeepsPartition(s: Sink)
    requires Queued(s) && Partitioned(s)
    ensures Partitioned(Worked(s))
  {
    hide Below;
    match s.worker
    case Getting =>
      if s.queue != [] {
        hide *;
        GettingKeepsPartition(s);
      }
    case Holding(_) =>
      hide *;
      HoldingKeepsPartition(s);
    case Delivering(_) =>
      hide *;
      DeliveringKeepsPartition(s);
    case _ =>
      assert Hand(Worked(s).worker) == Hand(s.worker) && Taken(Worked(s)) == Taken(s);
  }

  lemma HoldingKeepsPartition(s: Sink)
    requires Partitioned(s) && s.worker.Holding?
    ensures Partitioned(Worked(s))
  {
    hide Below;
    var e := s.worker.held;
    HandGives(multiset(s.attempted), multiset(s.discarded), multiset(s.swallowed), e);
    OneAppended(s.swallowed, e);
    assert Worked(s).worker == Stopped || Worked(s).worker == Delivering(e);
    assert Taken(Worked(s)) == Taken(s);
  }

  lemma OneAppended(place: seq<Event>, e: Event)
    ensures multiset(place + [e]) == multiset(place) + multiset{e}
  {
  }

  lemma DeliveringKeepsPartition(s: Sink)
    requires Partitioned(s) && s.worker.Delivering?
    ensures Partitioned(Worked(s))
  {
    hide Below;
    HandGives(multiset(s.attempted), multiset(s.discarded), multiset(s.swallowed), s.worker.event);
    OneAppended(s.attempted, s.worker.event);
    assert Worked(s).worker == Idle && Taken(Worked(s)) == Taken(s);
  }

  lemma GettingKeepsPartition(s: Sink)
    requires Queued(s) && Partitioned(s) && s.worker == Getting && s.queue != []
    ensures Partitioned(Worked(s))
  {
    hide Below;
    OneMore(s.queue, Taken(s));
    assert s.queue[0] == Taken(s) && Taken(Worked(s)) == Taken(s) + 1;
    HandTakes(multiset(s.attempted), multiset(s.discarded), multiset(s.swallowed), Below(Taken(s)), s.queue[0]);
  }

  lemma HandTakes(a: multiset<Event>, d: multiset<Event>, w: multiset<Event>, below: multiset<Event>, e: Event)
    requires a + multiset{} + d + w == below
    ensures a + multiset{e} + d + w == below + multiset{e}
  {
  }

  lemma HandGives(a: multiset<Event>, d: multiset<Event>, w: multiset<Event>, e: Event)
    ensures a + multiset{e} + d + w == a + multiset{} + d + (w + multiset{e})
    ensures a + multiset{e} + d + w == (a + multiset{e}) + multiset{} + d + w
  {
  }

  lemma StepKeepsCount(s: Sink, step: Step)
    requires Counted(s)
    ensures Counted(Apply(s, step))
  {
    hide Uncounted;
    match step
    case Send =>
    case Work =>
      WorkCountsNothing(s);
    case BeginClose(t) =>
      UncountedUpdated(s.closers, t, Joining);
    case JoinReturns(t) =>
      UncountedUpdated(s.closers, t, if s.worker == Stopped then Finished else Forcing);
    case SetDiscard(t) =>
      UncountedUpdated(s.closers, t, Draining(0));
    case TakeOne(t) =>
      match StateOf(s, t) {
        case Draining(n) =>
          UncountedUpdated(s.closers, t, Tallying(n));
          UncountedUpdated(s.closers, t, Draining(n + 1));
        case Tallying(n) =>
          UncountedUpdated(s.closers, t, Finished);
        case _ =>
      }
  }

  lemma WorkCountsNothing(s: Sink)
    ensures Worked(s).dropped == s.dropped && Worked(s).closers == s.closers
    ensures Worked(s).refused == s.refused && Worked(s).discarded == s.discarded
  {
  }

  lemma {:induction false} RunsKeepInvariant(bound: nat, steps: seq<Step>)
    ensures Inv(Run(Start(bound), steps))
  {
    hide Apply, Queued, Partitioned, InOrder, Phases, Counted;
    if steps == [] {
      StartIsEmpty(bound);
    } else {
      RunsKeepInvariant(bound, steps[..|steps| - 1]);
      var s := Run(Start(bound), steps[..|steps| - 1]);
      var step := steps[|steps| - 1];
      StepKeepsQueue(s, step);
      StepKeepsPartition(s, step);
      StepKeepsOrder(s, step);
      StepKeepsPhases(s, step);
      StepKeepsCount(s, step);
    }
  }

  lemma StartIsEmpty(bound: nat)
    ensures Inv(Start(bound))
  {
  }

  // ---- What becomes of an accepted event ----

  lemma {:induction false} BelowSplits(low: nat, queue: seq<Event>)
    requires forall i | 0 <= i < |queue| :: queue[i] == low + i
    ensures Below(low) + multiset(queue) == Below(low + |queue|)
  {
    if queue != [] {
      hide *;
      BelowSplits(low, queue[..|queue| - 1]);
      QueueGrows(low, queue);
    } else {
      hide *;
      assert multiset(queue) == multiset{};
    }
  }

  lemma QueueGrows(low: nat, queue: seq<Event>)
    requires queue != [] && queue[|queue| - 1] == low + |queue| - 1
    requires Below(low) + multiset(queue[..|queue| - 1]) == Below(low + |queue| - 1)
    ensures Below(low) + multiset(queue) == Below(low + |queue|)
  {
    hide *;
    var init, last := queue[..|queue| - 1], queue[|queue| - 1];
    FrontAndLast(queue);
    OneAbove(low + |init|, last);
    Regroup(Below(low), multiset(init), multiset{last});
  }

  lemma FrontAndLast(queue: seq<Event>)
    requires queue != []
    ensures multiset(queue) == multiset(queue[..|queue| - 1]) + multiset{queue[|queue| - 1]}
  {
    assert queue == queue[..|queue| - 1] + [queue[|queue| - 1]];
  }

  lemma OneAbove(n: nat, e: Event)
    requires e == n
    ensures Below(n + 1) == Below(n) + multiset{e}
  {
  }

  lemma Regroup(a: multiset<Event>, b: multiset<Event>, c: multiset<Event>)
    ensures (a + b) + c == a + (b + c)
  {
  }

  /** At every moment of every interleaving, each accepted event was attempted once, is queued or
      in the worker's hands, was discarded by a close, or is the one the worker swallowed after a
      forced close; attempts keep the order of acceptance and the queue its bound. */
  lemma {:induction false} EveryEventIsAccounted(bound: nat, steps: seq<Step>)
    ensures var s := Run(Start(bound), steps);
            && multiset(s.attempted) + Hand(s.worker) + multiset(s.queue) + multiset(s.discarded)
               + multiset(s.swallowed)
               == Below(s.accepted)
            && |s.swallowed| <= 1 && |s.queue| <= bound
            && (forall i, j | 0 <= i < j < |s.attempted| :: s.attempted[i] < s.attempted[j])
            && s.dropped + Uncounted(s.closers) == s.refused + |s.discarded|
  {
    RunsKeepInvariant(bound, steps);
    BoundStays(bound, steps);
    hide Run, Below, Hand, Uncounted;
    var s := Run(Start(bound), steps);
    BelowSplits(Taken(s), s.queue);
    Shuffle(multiset(s.attempted), Hand(s.worker), multiset(s.queue), multiset(s.discarded), multiset(s.swallowed));
  }

  lemma Shuffle(a: multiset<Event>, h: multiset<Event>, q: multiset<Event>, d: multiset<Event>, w: multiset<Event>)
    ensures a + h + q + d + w == a + h + d + w + q
  {
  }

  lemma {:induction false} BoundStays(bound: nat, steps: seq<Step>)
    ensures Run(Start(bound), steps).bound == bound
  {
    if steps != [] {
      BoundStays(bound, steps[..|steps| - 1]);
      StepKeepsBound(Run(Start(bound), steps[..|steps| - 1]), steps[|steps| - 1]);
      hide Apply;
    }
  }

  lemma StepKeepsBound(s: Sink, step: Step)
    ensures Apply(s, step).bound == s.bound
  {
  }

  lemma {:induction false} NothingUncounted(closers: map<Thread, Closer>)
    requires forall t | t in closers :: closers[t] == Finished
    ensures Uncounted(closers) == 0
    decreases |closers|
  {
    if closers != map[] {
      NothingUncounted(closers - {PickOne(closers)});
    }
  }

  lemma {:induction false} AllInOrder(attempted: seq<Event>, n: nat)
    requires multiset(attempted) == Below(n)
    requires forall i, j | 0 <= i < j < |attempted| :: attempted[i] < attempted[j]
    ensures |attempted| == n && forall i | 0 <= i < n :: attempted[i] == i
  {
    hide *;
    BelowHas(n);
    if n > 0 {
      LastIsLargest(attempted, n);
      WithoutLast(attempted, n);
      AllInOrder(attempted[..|attempted| - 1], n - 1);
    } else {
      NothingBelow(attempted);
    }
  }

  lemma NothingBelow(attempted: seq<Event>)
    requires multiset(attempted) == Below(0)
    ensures attempted == []
  {
    assert |multiset(attempted)| == 0;
  }

  lemma LastIsLargest(attempted: seq<Event>, n: nat)
    requires n > 0 && forall e: Event :: e in multiset(attempted) <==> e < n
    requires forall i, j | 0 <= i < j < |attempted| :: attempted[i] < attempted[j]
    ensures attempted != [] && attempted[|attempted| - 1] == n - 1
  {
    var top: Event := n - 1;
    assert top in multiset(attempted);
    var k :| 0 <= k < |attempted| && attempted[k] == top;
    assert attempted[|attempted| - 1] in multiset(attempted);
  }

  lemma WithoutLast(attempted: seq<Event>, n: nat)
    requires n > 0 && attempted != [] && attempted[|attempted| - 1] == n - 1 && multiset(attempted) == Below(n)
    ensures multiset(attempted[..|attempted| - 1]) == Below(n - 1)
  {
    var init := attempted[..|attempted| - 1];
    var top: multiset<Event> := multiset{attempted[|attempted| - 1]};
    assert attempted == init + [attempted[|attempted| - 1]];
    assert multiset(attempted) == multiset(init) + top;
    assert Below(n) == Below(n - 1) + top;
    assert multiset(init) == Below(n) - top;
  }

  lemma {:induction false} BelowHas(n: nat)
    ensures forall e: Event :: e in Below(n) <==> e < n
  {
    if n > 0 {
      BelowHas(n - 1);
    }
  }

  // ---- What was offered ----

  /** The calls of `send` that found the sink open. */
  ghost function Offered(bound: nat, steps: seq<Step>): nat {
    if steps == [] then 0
    else
      var front, last := steps[..|steps| - 1], steps[|steps| - 1];
      Offered(bound, front) + if last == Send && !Run(Start(bound), front).closed then 1 else 0
  }

  /** Every event offered to an open sink was accepted or counted as refused, and nothing else was; a
      closed sink stays closed. */
  lemma {:induction false} OfferedIsAccounted(bound: nat, steps: seq<Step>)
    ensures var s := Run(Start(bound), steps); s.accepted + s.refused == Offered(bound, steps)
    ensures forall i | 0 <= i <= |steps| && Run(Start(bound), steps[..i]).closed :: Run(Start(bound), steps).closed
  {
    if steps == [] {
      assert steps[..0] == steps;
    } else {
      var front, last := steps[..|steps| - 1], steps[|steps| - 1];
      OfferedIsAccounted(bound, front);
      OneOffer(Run(Start(bound), front), last);
      hide Apply, Offered;
      assert Run(Start(bound), steps) == Apply(Run(Start(bound), front), last);
      forall i | 0 <= i <= |steps| && Run(Start(bound), steps[..i]).closed
        ensures Run(Start(bound), steps).closed
      {
        assert if i < |steps| then steps[..i] == front[..i] else steps[..i] == steps;
      }
      OfferedNext(bound, steps);
    }
  }

  lemma OfferedNext(bound: nat, steps: seq<Step>)
    requires steps != []
    ensures var front, last := steps[..|steps| - 1], steps[|steps| - 1];
            Offered(bound, steps)
            == Offered(bound, front) + if last == Send && !Run(Start(bound), front).closed then 1 else 0
  {
    hide Run;
  }

  lemma OneOffer(s: Sink, step: Step)
    ensures var t := Apply(s, step);
            && t.accepted + t.refused == s.accepted + s.refused + (if step == Send && !s.closed then 1 else 0)
            && (s.closed ==> t.closed)
  {
  }

  // ---- A closed sink ----

  /** How many steps a worker that is left alone still takes before it is gone. */
  ghost function Left(s: Sink): nat {
    match s.worker
    case Stopped => 0
    case Leaving => 5 * |s.queue| + 1
    case Idle => 5 * |s.queue| + 2
    case Getting => if s.queue == [] then 3 else 5 * |s.queue|
    case Holding(_) => 5 * |s.queue| + 4
    case Delivering(_) => 5 * |s.queue| + 3
  }

  /** After closing, the worker alone empties the queue and leaves: at most five steps per queued event
      and four more. */
  lemma {:induction false} ClosedWorkerStops(s: Sink, steps: seq<Step>)
    requires s.closed && (forall i | 0 <= i < |steps| :: steps[i] == Work) && |steps| >= Left(s)
    ensures Run(s, steps).worker == Stopped
  {
    WorkIsDone(s, steps);
    hide Run;
  }

  lemma {:induction false} WorkIsDone(s: Sink, steps: seq<Step>)
    requires s.closed && forall i | 0 <= i < |steps| :: steps[i] == Work
    ensures Run(s, steps).closed
    ensures Left(Run(s, steps)) <= if |steps| <= Left(s) then Left(s) - |steps| else 0
    decreases |steps|
  {
    if steps != [] {
      WorkIsDone(s, steps[..|steps| - 1]);
      OneWorkDone(Run(s, steps[..|steps| - 1]));
      hide Worked, Left;
    }
  }

  lemma OneWorkDone(s: Sink)
    requires s.closed
    ensures Worked(s).closed && (Left(s) > 0 ==> Left(Worked(s)) < Left(s)) && (Left(s) == 0 ==> Left(Worked(s)) == 0)
  {
  }

  /** A forced close that finds events drains them until there are none. */
  ghost predicate Drains(s: Sink) {
    s.discard && s.queue != [] ==> exists t :: t in s.closers && s.closers[t].Draining?
  }

  lemma StepKeepsDrains(s: Sink, step: Step)
    requires Phases(s) && Drains(s)
    ensures Drains(Apply(s, step))
  {
    var after := Apply(s, step);
    if after.discard && after.queue != [] {
      match step
      case SetDiscard(t) =>
        if StateOf(s, t) == Forcing {
          assert t in after.closers && after.closers[t].Draining?;
        } else {
          assert after == s;
        }
      case _ =>
        assert s.discard && s.queue != [];
        var t :| t in s.closers && s.closers[t].Draining?;
        assert t in after.closers && after.closers[t].Draining?;
    }
  }

  lemma {:induction false} RunsDrain(bound: nat, steps: seq<Step>)
    ensures Drains(Run(Start(bound), steps))
  {
    if steps != [] {
      RunsDrain(bound, steps[..|steps| - 1]);
      RunsKeepInvariant(bound, steps[..|steps| - 1]);
      hide Queued, Partitioned, InOrder, Counted, Apply;
      StepKeepsDrains(Run(Start(bound), steps[..|steps| - 1]), steps[|steps| - 1]);
    }
  }

  /** The worker reads the discard flag while it holds an event. */
  ghost predicate CaughtHolding(bound: nat, steps: seq<Step>) {
    exists i :: 0 <= i < |steps| && CaughtAt(bound, steps, i)
  }

  ghost predicate CaughtAt(bound: nat, steps: seq<Step>, i: nat)
    requires i < |steps|
  {
    var s := Run(Start(bound), steps[..i]);
    steps[i] == Work && s.worker.Holding? && s.discard
  }

  /** An event is swallowed exactly when the worker held one as it saw the discard flag. */
  lemma {:induction false} SwallowsExactlyWhenCaught(bound: nat, steps: seq<Step>)
    ensures Run(Start(bound), steps).swallowed != [] <==> CaughtHolding(bound, steps)
  {
    if steps != [] {
      var front := steps[..|steps| - 1];
      SwallowsExactlyWhenCaught(bound, front);
      StepSwallows(Run(Start(bound), front), steps[|steps| - 1]);
      hide Run, Apply;
      forall i | 0 <= i < |front|
        ensures CaughtAt(bound, steps, i) == CaughtAt(bound, front, i)
      {
        assert front[..i] == steps[..i];
      }
      if CaughtHolding(bound, front) {
        var i :| 0 <= i < |front| && CaughtAt(bound, front, i);
        assert CaughtAt(bound, steps, i);
      }
      assert CaughtHolding(bound, steps) <==> CaughtHolding(bound, front) || CaughtAt(bound, steps, |front|);
    }
  }

  lemma StepSwallows(s: Sink, step: Step)
    ensures Apply(s, step).swallowed != [] <==> s.swallowed != [] || (step == Work && s.worker.Holding? && s.discard)
  {
  }

  lemma {:induction false} BelowSize(n: nat)
    ensures |Below(n)| == n
  {
    if n > 0 {
      BelowSize(n - 1);
    }
  }

  /** When the worker and every close are done, nothing is left in the queue. A sink that never
      had to force its close attempted everything it accepted, in order; otherwise what was not
      attempted is counted as dropped, all but the one event the worker was caught holding. */
  lemma {:induction false} ClosedSinkIsAccounted(bound: nat, steps: seq<Step>)
    requires var s := Run(Start(bound), steps);
             s.worker == Stopped && forall t | t in s.closers :: s.closers[t] == Finished
    ensures var s := Run(Start(bound), steps);
            && s.queue == []
            && multiset(s.attempted) + multiset(s.discarded) + multiset(s.swallowed) == Below(s.accepted)
            && s.dropped == s.refused + |s.discarded|
            && |s.swallowed| <= 1
            && s.accepted == |s.attempted| + (s.dropped - s.refused) + (if CaughtHolding(bound, steps) then 1 else 0)
            && (!s.discard ==> |s.attempted| == s.accepted && (forall i | 0 <= i < s.accepted :: s.attempted[i] == i)
                               && s.dropped == s.refused)
  {
    hide *;
    var s := Run(Start(bound), steps);
    EveryEventIsAccounted(bound, steps);
    RunsKeepInvariant(bound, steps);
    RunsDrain(bound, steps);
    ClosedQueueIsEmpty(s);
    SwallowsExactlyWhenCaught(bound, steps);
    EverythingIsCounted(s);
    if !s.discard {
      UnforcedIsInOrder(s);
    }
  }

  /** The worker and every close are done. */
  predicate Closed(s: Sink) {
    s.worker == Stopped && forall t | t in s.closers :: s.closers[t] == Finished
  }

  lemma ClosedQueueIsEmpty(s: Sink)
    requires Inv(s) && Drains(s)
    requires s.worker == Stopped && forall t | t in s.closers :: s.closers[t] == Finished
    ensures s.queue == [] && Closed(s) && Hand(s.worker) == multiset{}
    ensures !s.discard ==> s.discarded == [] && s.swallowed == []
  {
    hide Queued, Partitioned, InOrder, Counted;
  }

  lemma EverythingIsCounted(s: Sink)
    requires Closed(s) && s.queue == [] && Hand(s.worker) == multiset{} && |s.swallowed| <= 1
    requires multiset(s.attempted) + Hand(s.worker) + multiset(s.queue) + multiset(s.discarded) + multiset(s.swallowed)
             == Below(s.accepted)
    requires s.dropped + Uncounted(s.closers) == s.refused + |s.discarded|
    ensures multiset(s.attempted) + multiset(s.discarded) + multiset(s.swallowed) == Below(s.accepted)
    ensures s.dropped == s.refused + |s.discarded|
    ensures s.accepted == |s.attempted| + (s.dropped - s.refused) + (if s.swallowed != [] then 1 else 0)
  {
    NothingUncounted(s.closers);
    BelowSize(s.accepted);
    hide Below, Uncounted, Hand;
    EmptyPlaces(multiset(s.attempted), s.queue, multiset(s.discarded), multiset(s.swallowed));
    SizesAdd(s.attempted, s.discarded, s.swallowed);
  }

  lemma EmptyPlaces(a: multiset<Event>, queue: seq<Event>, d: multiset<Event>, w: multiset<Event>)
    requires queue == []
    ensures a + multiset{} + multiset(queue) + d + w == a + d + w
  {
  }

  lemma UnforcedIsInOrder(s: Sink)
    requires s.discarded == [] && s.swallowed == []
    requires multiset(s.attempted) + multiset(s.discarded) + multiset(s.swallowed) == Below(s.accepted)
    requires forall i, j | 0 <= i < j < |s.attempted| :: s.attempted[i] < s.attempted[j]
    ensures |s.attempted| == s.accepted && forall i | 0 <= i < s.accepted :: s.attempted[i] == i
  {
    hide Below;
    NoneElsewhere(multiset(s.attempted), s.discarded, s.swallowed);
    AllInOrder(s.attempted, s.accepted);
  }

  lemma NoneElsewhere(a: multiset<Event>, d: seq<Event>, w: seq<Event>)
    requires d == [] && w == []
    ensures a + multiset(d) + multiset(w) == a
  {
  }

  lemma SizesAdd(a: seq<Event>, d: seq<Event>, w: seq<Event>)
    ensures |multiset(a) + multiset(d) + multiset(w)| == |a| + |d| + |w|
  {
  }

  /** The race is real: an event accepted before the close can be neither attempted nor counted. */
  lemma {:induction false} ForcedCloseCanSwallow()
    ensures exists steps :: Lost(Run(Start(1), steps))
  {
    hide Run, Apply, Lost;
    var taking := [Send, Work, Work];
    var closing := [BeginClose(0), JoinReturns(0), SetDiscard(0)];
    var ending := [Work, TakeOne(0), TakeOne(0)];
    TakesOne();
    Forces(Run(Start(1), taking));
    Swallows(Run(Run(Start(1), taking), closing));
    RunConcat(Start(1), taking, closing);
    RunConcat(Start(1), taking + closing, ending);
    ShowRun(Start(1), taking + closing + ending);
  }

  ghost predicate Lost(s: Sink) {
    && s.worker == Stopped && s.queue == [] && (forall t | t in s.closers :: s.closers[t] == Finished)
    && s.accepted == 1 && s.attempted == [] && s.dropped == 0 && s.swallowed == [0]
  }

  lemma ShowRun(s: Sink, steps: seq<Step>)
    requires Lost(Run(s, steps))
    ensures exists more :: Lost(Run(s, more))
  {
    hide Lost, Run;
  }

  lemma {:induction false} RunConcat(s: Sink, a: seq<Step>, b: seq<Step>)
    ensures Run(s, a + b) == Run(Run(s, a), b)
  {
    if b == [] {
      assert a + b == a;
    } else {
      assert (a + b)[..|a + b| - 1] == a + b[..|b| - 1];
      RunConcat(s, a, b[..|b| - 1]);
    }
  }

  lemma ThreeSteps(s: Sink, x: Step, y: Step, z: Step)
    ensures Run(s, [x, y, z]) == Apply(Apply(Apply(s, x), y), z)
  {
    assert [x, y, z][..2] == [x, y] && [x, y][..1] == [x] && [x][..0] == [];
    hide Apply;
    assert Run(s, [x]) == Apply(s, x);
    assert Run(s, [x, y]) == Apply(Run(s, [x]), y);
  }

  lemma TakesOne()
    ensures Run(Start(1), [Send, Work, Work]) == Start(1).(accepted := 1, worker := Holding(0))
  {
    ThreeSteps(Start(1), Send, Work, Work);
    assert Sent(Start(1)).queue == [0];
  }

  lemma Forces(s: Sink)
    requires s == Start(1).(accepted := 1, worker := Holding(0))
    ensures var t := Run(s, [BeginClose(0), JoinReturns(0), SetDiscard(0)]);
            && t.worker == Holding(0) && t.discard && t.queue == [] && t.closers.Keys == {0}
               && t.closers[0] == Draining(0)
            && t.accepted == 1 && t.attempted == [] && t.dropped == 0 && t.swallowed == []
  {
    ThreeSteps(s, BeginClose(0), JoinReturns(0), SetDiscard(0));
    var joining := Apply(s, BeginClose(0));
    assert StateOf(joining, 0) == Joining;
    var forcing := Apply(joining, JoinReturns(0));
    assert StateOf(forcing, 0) == Forcing;
  }

  lemma Swallows(s: Sink)
    requires s.worker == Holding(0) && s.discard && s.queue == [] && s.closers.Keys == {0}
    requires s.closers[0] == Draining(0)
    requires s.accepted == 1 && s.attempted == [] && s.dropped == 0 && s.swallowed == []
    ensures Lost(Run(s, [Work, TakeOne(0), TakeOne(0)]))
  {
    ThreeSteps(s, Work, TakeOne(0), TakeOne(0));
    var one := Apply(Worked(s), TakeOne(0));
    assert StateOf(one, 0) == Tallying(0);
  }
}
