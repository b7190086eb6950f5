/** Live market activity: the tracker's memory, its durable checkpoints, and restarts. */
module ActivityTracker {
  import opened Wrappers

  type Symbol = nat
  type TradingDay = nat

  datatype ContractActivity = ContractActivity(
    symbol: Symbol,
    exchange: nat,
    product: nat,
    day: TradingDay,
    volume: real,
    openInterest: real,
    timestamp: int
  )

  datatype Snapshot = Snapshot(day: TradingDay, contracts: map<Symbol, ContractActivity>)

  datatype State = State(completed: Option<Snapshot>, inProgress: Option<Snapshot>)

  // ---- _validate_state ----

  predicate ValidActivity(a: ContractActivity) {
    a.volume >= 0.0 && a.openInterest >= 0.0
  }

  predicate ValidSnapshot(s: Snapshot) {
    && s.contracts != map[]
    && forall x | x in s.contracts ::
         s.contracts[x].symbol == x && s.contracts[x].day == s.day && ValidActivity(s.contracts[x])
  }

  predicate ValidState(s: State) {
    && (s.completed.Some? ==> ValidSnapshot(s.completed.value))
    && (s.inProgress.Some? ==> ValidSnapshot(s.inProgress.value))
    && (s.completed.Some? && s.inProgress.Some? ==> s.completed.value.day < s.inProgress.value.day)
  }

  // ---- Memory ----

  datatype Memory = Memory(
    completed: Option<Snapshot>,
    day: Option<TradingDay>,
    current: map<Symbol, ContractActivity>,
    dirty: bool
  )

  /** What a checkpoint of this memory writes. */
  function StateOf(m: Memory): State {
    State(m.completed, if m.day.Some? then Some(Snapshot(m.day.value, m.current)) else None)
  }

  /** What a restart reads back. */
  function Boot(durable: State): Memory {
    match durable.inProgress
    case Some(s) => Memory(durable.completed, Some(s.day), s.contracts, false)
    case None => Memory(durable.completed, None, map[], false)
  }

  function Latest(m: Memory, s: Symbol): Option<ContractActivity> {
    if s in m.current then Some(m.current[s])
    else if m.completed.Some? && s in m.completed.value.contracts then Some(m.completed.value.contracts[s])
    else None
  }

  datatype Decision =
    | Reject
    | Ignore
    | Record(memory: Memory)
    | Roll(next: Memory)

  predicate MovesBackward(m: Memory, a: ContractActivity) {
    match m.day
    case Some(day) => a.day < day
    case None => m.completed.Some? && a.day <= m.completed.value.day
  }

  /** What `observe` makes of a validated observation. */
  function Decide(m: Memory, a: ContractActivity): Decision {
    var previous := Latest(m, a.symbol);
    if MovesBackward(m, a) then Reject
    else if previous.Some? && a.timestamp < previous.value.timestamp then Reject
    else if previous.Some? && a.timestamp == previous.value.timestamp && a != previous.value then Reject
    else if a.symbol in m.current && m.current[a.symbol] == a then Ignore
    else if m.day.Some? && a.day != m.day.value then
      Roll(Memory(Some(Snapshot(m.day.value, m.current)), Some(a.day), map[a.symbol := a], false))
    else
      Record(m.(day := Some(a.day), current := m.current[a.symbol := a], dirty := true))
  }

  // ---- The world: one process and one file ----

  datatype World = World(memory: Memory, durable: State)

  /** How a save ends: the file is replaced or not, and the process lives or not. */
  datatype Fate = Saves | Fails | DiesBefore | DiesAfter

  datatype Command = Observe(activity: ContractActivity, fate: Fate) | Checkpoint(fate: Fate) | Crash

  /** A memory that wants to become `next` together with its durable copy. */
  function Saving(w: World, next: Memory, fate: Fate): World {
    match fate
    case Saves => World(next, StateOf(next))
    case Fails => w
    case DiesBefore => World(Boot(w.durable), w.durable)
    case DiesAfter => World(Boot(StateOf(next)), StateOf(next))
  }

  function Step(w: World, command: Command): World {
    match command
    case Crash => World(Boot(w.durable), w.durable)
    case Checkpoint(fate) =>
      if w.memory.dirty then Saving(w, w.memory.(dirty := false), fate) else w
    case Observe(a, fate) =>
      match Decide(w.memory, a)
      case Reject => w
      case Ignore => w
      case Record(m) => w.(memory := m)
      case Roll(m) => Saving(w, m, fate)
  }

  predicate ValidMemory(m: Memory) {
    ValidState(StateOf(m)) && (m.day.None? ==> m.current == map[])
  }

  /** Completed evidence in memory is the durable one, and clean memory is entirely durable. */
  predicate Inv(w: World) {
    && ValidMemory(w.memory) && ValidState(w.durable)
    && w.memory.completed == w.durable.completed
    && (!w.memory.dirty ==> StateOf(w.memory) == w.durable)
    && LastDay(w.durable) <= LastDay(StateOf(w.memory))
  }

  predicate ValidCommand(command: Command) {
    command.Observe? ==> ValidActivity(command.activity)
  }

  /** The latest day any evidence is for. */
  function LastDay(s: State): int {
    if s.inProgress.Some? then s.inProgress.value.day
    else if s.completed.Some? then s.completed.value.day
    else -1
  }

  function CompletedDay(s: State): int {
    if s.completed.Some? then s.completed.value.day else -1
  }

  lemma BootRestores(durable: State)
    requires ValidState(durable)
    ensures StateOf(Boot(durable)) == durable && Inv(World(Boot(durable), durable))
  {
  }

  /** One command keeps the invariant, and durable evidence only moves forward. */
  lemma {:induction false} StepKeepsInvariant(w: World, command: Command)
    requires Inv(w) && ValidCommand(command)
    ensures Inv(Step(w, command)) && Advances(w.durable, Step(w, command).durable)
  {
    hide ValidState;
    match command
    case Crash =>
      BootRestores(w.durable);
    case Checkpoint(fate) =>
      if w.memory.dirty {
        SavingKeepsInvariant(w, w.memory.(dirty := false), fate);
      }
    case Observe(a, fate) =>
      match Decide(w.memory, a) {
        case Reject =>
        case Ignore =>
        case Record(m) =>
          RecordIsValid(w.memory, a);
        case Roll(m) =>
          RollIsValid(w.memory, a);
          SavingKeepsInvariant(w, m, fate);
      }
  }

  /** Durable evidence moves forward: the last day never falls, and completed evidence is only
      replaced by that of a later day. */
  predicate Advances(from: State, to: State) {
    && LastDay(from) <= LastDay(to)
    && (to.completed == from.completed || CompletedDay(from) < CompletedDay(to))
  }

  lemma SavingKeepsInvariant(w: World, next: Memory, fate: Fate)
    requires Inv(w) && ValidMemory(next) && !next.dirty
    requires LastDay(StateOf(w.memory)) <= LastDay(StateOf(next))
    requires next.completed == w.memory.completed || CompletedDay(StateOf(w.memory)) < CompletedDay(StateOf(next))
    ensures Inv(Saving(w, next, fate)) && Advances(w.durable, Saving(w, next, fate).durable)
  {
    hide ValidState;
    BootRestores(w.durable);
    BootRestores(StateOf(next));
  }

  lemma RecordIsValid(m: Memory, a: ContractActivity)
    requires ValidMemory(m) && ValidActivity(a) && Decide(m, a).Record?
    ensures ValidMemory(Decide(m, a).memory)
    ensures LastDay(StateOf(m)) <= LastDay(StateOf(Decide(m, a).memory))
  {
  }

  lemma RollIsValid(m: Memory, a: ContractActivity)
    requires ValidMemory(m) && ValidActivity(a) && Decide(m, a).Roll?
    ensures ValidMemory(Decide(m, a).next)
    ensures CompletedDay(StateOf(m)) < CompletedDay(StateOf(Decide(m, a).next)) < LastDay(StateOf(Decide(m, a).next))
    ensures LastDay(StateOf(m)) < LastDay(StateOf(Decide(m, a).next))
  {
    assert a.symbol in Decide(m, a).next.current;
  }

  /** What one observation does, outright. It is refused for an earlier day, and for the same symbol at
      an earlier time or with other figures at the same time; an observation that is held already
      changes nothing. Any other one is the one then held for its symbol: next to the others of its
      day, or, on a later day, as the first of that day, when the day before becomes the completed one
      and both are saved. */
  lemma {:induction false} ObservationIsHeld(w: World, a: ContractActivity)
    requires Inv(w) && ValidActivity(a)
    ensures var m, next := w.memory, Step(w, Observe(a, Saves));
            var known := if a.symbol in m.current then Some(m.current[a.symbol])
                         else if m.completed.Some? && a.symbol in m.completed.value.contracts
                         then Some(m.completed.value.contracts[a.symbol]) else None;
            if || (m.day.Some? && a.day < m.day.value)
               || (m.day.None? && m.completed.Some? && a.day <= m.completed.value.day)
               || (known.Some? && (a.timestamp < known.value.timestamp
                                   || (a.timestamp == known.value.timestamp && a != known.value)))
               || (a.symbol in m.current && m.current[a.symbol] == a)
            then next == w
            else if m.day.Some? && m.day.value < a.day then
              && next.memory.completed == Some(Snapshot(m.day.value, m.current))
              && next.memory.day == Some(a.day) && next.memory.current == map[a.symbol := a]
              && !next.memory.dirty
              && next.durable == State(next.memory.completed, Some(Snapshot(a.day, next.memory.current)))
            else
              && next.memory.completed == m.completed && next.memory.day == Some(a.day)
              && next.memory.current == m.current[a.symbol := a]
              && next.memory.dirty && next.durable == w.durable
  {
    hide Inv;
  }

  function Run(w: World, commands: seq<Command>): World {
    if commands == [] then w else Step(Run(w, commands[..|commands| - 1]), commands[|commands| - 1])
  }

  predicate ValidCommands(commands: seq<Command>) {
    forall i | 0 <= i < |commands| :: ValidCommand(commands[i])
  }

  /** Over every run, with failed saves and crashes anywhere. */
  lemma {:induction false} RunsKeepInvariant(durable: State, commands: seq<Command>)
    requires ValidState(durable) && ValidCommands(commands)
    ensures var w := Run(World(Boot(durable), durable), commands);
            && w.memory.completed == w.durable.completed
            && Inv(w)
            && LastDay(durable) <= LastDay(w.durable)
            && CompletedDay(durable) <= CompletedDay(w.durable)
  {
    hide Inv, Step, ValidCommand;
    if commands == [] {
      BootRestores(durable);
      assert Inv(World(Boot(durable), durable));
      CompletedIsShared(World(Boot(durable), durable));
    } else {
      var init := commands[..|commands| - 1];
      RunsKeepInvariant(durable, init);
      var before := Run(World(Boot(durable), durable), init);
      StepKeepsInvariant(before, commands[|commands| - 1]);
      CompletedIsShared(Step(before, commands[|commands| - 1]));
    }
  }

  /** Every figure a file ever holds is non-negative and filed under its own symbol and day. */
  lemma {:induction false} DurableEvidenceIsClean(durable: State, commands: seq<Command>)
    requires ValidState(durable) && ValidCommands(commands)
    ensures var s := Run(World(Boot(durable), durable), commands).durable;
            && (forall part | part in {s.completed, s.inProgress} && part.Some? ::
                  && part.value.contracts != map[]
                  && forall x | x in part.value.contracts ::
                       var a := part.value.contracts[x];
                       a.symbol == x && a.day == part.value.day && a.volume >= 0.0 && a.openInterest >= 0.0)
            && (s.completed.Some? && s.inProgress.Some? ==> s.completed.value.day < s.inProgress.value.day)
  {
    RunsKeepInvariant(durable, commands);
    hide Run;
  }

  lemma CompletedIsShared(w: World)
    requires Inv(w)
    ensures w.memory.completed == w.durable.completed
  {
  }

  /** What a crash costs: nothing of the last successful save. */
  lemma {:induction false} CrashLosesOnlyUnsaved(w: World)
    requires Inv(w)
    ensures StateOf(Step(w, Crash).memory) == w.durable
    ensures Step(w, Crash).memory.completed == w.memory.completed
    ensures !w.memory.dirty ==> Step(w, Crash) == w
  {
  }

  // ---- The tracker ----

  datatype Outcome = Done | Rejected | SaveFailed | Died

  class Store {
    var state: State

    constructor (state: State)
      ensures this.state == state
    {
      this.state := state;
    }

    /** `save_state`: refuses an invalid state; otherwise one atomic replacement. */
    method SaveState(next: State, fate: Fate) returns (outcome: Outcome)
      modifies this
      ensures outcome == Rejected <==> !ValidState(next)
      ensures outcome == Rejected ==> state == old(state)
      ensures ValidState(next) ==>
                && outcome == (match fate
                               case Saves => Done
                               case Fails => SaveFailed
                               case DiesBefore => Died
                               case DiesAfter => Died)
                && state == (if fate == Saves || fate == DiesAfter then next else old(state))
    {
      if !ValidState(next) {
        return Rejected;
      }
      match fate {
        case Saves =>
          state := next;
          outcome := Done;
        case Fails =>
          outcome := SaveFailed;
        case DiesBefore =>
          outcome := Died;
        case DiesAfter =>
          state := next;
          outcome := Died;
      }
    }
  }

  class Tracker {
    const store: Store
    var completed: Option<Snapshot>
    var day: Option<TradingDay>
    var current: map<Symbol, ContractActivity>
    var dirty: bool

    ghost function TheWorld(): World
      reads this, store
    {
      World(Memory(completed, day, current, dirty), store.state)
    }

    constructor (store: Store)
      requires ValidState(store.state)
      ensures this.store == store
      ensures TheWorld() == World(Boot(store.state), store.state) && Inv(TheWorld())
    {
      this.store := store;
      completed := store.state.completed;
      day := if store.state.inProgress.Some? then Some(store.state.inProgress.value.day) else None;
      current := if store.state.inProgress.Some? then store.state.inProgress.value.contracts else map[];
      dirty := false;
      new;
      BootRestores(store.state);
    }

    /** A dead process leaves its file; whoever survives is where the specification says. */
    method DoCheckpoint(fate: Fate) returns (outcome: Outcome)
      requires Inv(TheWorld())
      modifies this, store
      ensures outcome != Rejected
      ensures outcome != Died ==> TheWorld() == Step(old(TheWorld()), Checkpoint(fate))
      ensures outcome == Died ==> store.state == Step(old(TheWorld()), Checkpoint(fate)).durable
    {
      if !dirty {
        return Done;
      }
      ghost var w := TheWorld();
      outcome := store.SaveState(State(completed, if day.Some? then Some(Snapshot(day.value, current)) else None),
                                 fate);
      if outcome == Done {
        dirty := false;
      }
    }

    method DoObserve(a: ContractActivity, fate: Fate) returns (outcome: Outcome)
      requires Inv(TheWorld()) && ValidActivity(a)
      modifies this, store
      ensures outcome == Rejected <==> Decide(old(TheWorld()).memory, a) == Reject
      ensures outcome != Died ==> TheWorld() == Step(old(TheWorld()), Observe(a, fate))
      ensures outcome == Died ==> store.state == Step(old(TheWorld()), Observe(a, fate)).durable
    {
      if day.Some? {
        if a.day < day.value {
          return Rejected;
        }
      } else if completed.Some? && a.day <= completed.value.day {
        return Rejected;
      }
      var previous := if a.symbol in current then Some(current[a.symbol]) else None;
      if previous == None && completed.Some? && a.symbol in completed.value.contracts {
        previous := Some(completed.value.contracts[a.symbol]);
      }
      if previous.Some? && a.timestamp < previous.value.timestamp {
        return Rejected;
      }
      if previous.Some? && a.timestamp == previous.value.timestamp && a != previous.value {
        return Rejected;
      }
      if a.symbol in current && current[a.symbol] == a {
        return Done;
      }
      if day.Some? && a.day != day.value {
        RollIsValid(TheWorld().memory, a);
        var finished := Snapshot(day.value, current);
        var next := map[a.symbol := a];
        outcome := store.SaveState(State(Some(finished), Some(Snapshot(a.day, next))), fate);
        if outcome == Done {
          completed := Some(finished);
          day := Some(a.day);
          current := next;
          dirty := false;
        }
        return;
      }
      day := Some(a.day);
      current := current[a.symbol := a];
      dirty := true;
      outcome := Done;
    }
  }
}
