/** The guards of a request, told from the history alone: who is bound where, and what was ever
    retired, are read off the operations that committed. */
module RegistryGuards {
  import opened HexBits
  import opened Operations
  import opened Storage
  import opened RegistryRecords
  import opened RegistryFiles

  // ---- What the operations retire ----

  ghost function LeftAccounts(ops: seq<Operation>): set<Sha> {
    set o | o in ops && o.OpSwitch? :: o.sourceAccount
  }

  ghost function LeftRuntimes(ops: seq<Operation>): set<Runtime> {
    set o | o in ops && o.OpTransfer? :: o.sourceRuntime
  }

  ghost function LeftLineages(ops: seq<Operation>): set<Lineage> {
    set o | o in ops && o.OpSwitch? :: Lineage(o.sourceAccount, o.runtime, o.source)
  }

  /** The lists of a binding hold what the operations of its lineage left behind. */
  ghost predicate RetiresItsOwn(b: Binding, lineage: seq<Operation>) {
    && Elements(b.retiredAccounts) == LeftAccounts(lineage)
    && Elements(b.retiredRuntimes) == LeftRuntimes(lineage)
    && Elements(b.retiredLineages) == LeftLineages(lineage)
  }

  ghost function Elements<T>(items: seq<T>): set<T> {
    set x | x in items
  }

  lemma {:induction false} ElementsOfDistinct<T>(items: seq<T>)
    requires NoDuplicates(items)
    ensures |Elements(items)| == |items|
  {
    if items != [] {
      var front, last := items[..|items| - 1], items[|items| - 1];
      ElementsOfDistinct(front);
      assert Elements(items) == Elements(front) + {last};
      assert last !in Elements(front);
    }
  }

  lemma ElementsGrow<T>(items: seq<T>, x: T)
    ensures Elements(items + [x]) == Elements(items) + {x}
    ensures Elements(AppendOnce(items, x)) == Elements(items) + {x}
  {
  }

  lemma LeftGrows(ops: seq<Operation>, op: Operation)
    ensures LeftAccounts(ops + [op]) == LeftAccounts(ops) + if op.OpSwitch? then {op.sourceAccount} else {}
    ensures LeftRuntimes(ops + [op]) == LeftRuntimes(ops) + if op.OpTransfer? then {op.sourceRuntime} else {}
    ensures LeftLineages(ops + [op])
         == LeftLineages(ops) + if op.OpSwitch? then {Lineage(op.sourceAccount, op.runtime, op.source)} else {}
  {
    assert forall o :: o in ops + [op] <==> o in ops || o == op;
  }

  lemma ChangedRetiresItsOwn(bindings: Bindings, op: Operation, lineage: seq<Operation>)
    requires !op.OpBind? && SourceAccount(op) in bindings && RetiresItsOwn(bindings[SourceAccount(op)], lineage)
    ensures RetiresItsOwn(ChangedBinding(bindings, op), lineage + [op])
  {
    var b := bindings[SourceAccount(op)];
    LeftGrows(lineage, op);
    hide LeftAccounts, LeftRuntimes, LeftLineages;
    if op.OpSwitch? {
      ElementsGrow(b.retiredAccounts, op.sourceAccount);
      ElementsGrow(b.retiredLineages, Lineage(op.sourceAccount, op.runtime, op.source));
    } else if op.OpTransfer? {
      ElementsGrow(b.retiredRuntimes, op.sourceRuntime);
    }
  }

  lemma BoundRetiresNothing(op: Operation)
    requires op.OpBind?
    ensures RetiresItsOwn(FreshBinding(op), [op])
  {
  }

  // ---- Over histories ----

  ghost predicate AllRetireTheirOwn(bindings: Bindings, lineages: map<Sha, seq<Operation>>) {
    && bindings.Keys == lineages.Keys
    && forall a | a in lineages :: RetiresItsOwn(bindings[a], lineages[a])
  }

  /** No operation is lost: each one is in the lineage of some bound account. */
  ghost predicate NoneLost(lineages: map<Sha, seq<Operation>>, ops: seq<Operation>) {
    && (forall o | o in ops :: exists a :: a in lineages && o in lineages[a])
    && (forall a, o | a in lineages && o in lineages[a] :: o in ops)
  }

  lemma {:induction false} BindingsRetireTheirOwn(ops: seq<Operation>)
    requires History(ops)
    ensures AllRetireTheirOwn(Replayed(ops), Lineages(ops)) && NoneLost(Lineages(ops), ops)
    decreases |ops|
  {
    if ops == [] {
      assert Replayed(ops) == map[] && Lineages(ops) == map[];
    } else {
      hide *;
      var front, op := Front(ops), Last(ops);
      HistoryEnds(ops);
      FrontIsShorter(ops);
      BindingsRetireTheirOwn(front);
      HistoryExtends(front, op);
      AdmittedHasSource(Replayed(front), op);
      RetiredStep(Replayed(front), front, op);
    }
  }

  lemma RetiredStep(bindings: Bindings, ops: seq<Operation>, op: Operation)
    requires AllRetireTheirOwn(bindings, Lineages(ops)) && NoneLost(Lineages(ops), ops)
    requires op.OpBind? || SourceAccount(op) in bindings
    requires op.OpBind? || TargetAccount(op) == SourceAccount(op) || TargetAccount(op) !in bindings
    requires op.OpBind? ==> TargetAccount(op) !in bindings
    ensures AllRetireTheirOwn(Applied(bindings, op), Lineages(ops + [op])) && NoneLost(Lineages(ops + [op]), ops + [op])
  {
    hide *;
    OwnParts(bindings, Lineages(ops), op);
    ChangedLineage(ops, op);
    OtherBindingsStay(bindings, ops, op);
    ChangedIsItsOwn(bindings, ops, op);
    OwnAgain(bindings, Applied(bindings, op), ops, op);
    NoneLostAgain(Lineages(ops), Lineages(ops + [op]), ops, op);
  }

  lemma OwnParts(bindings: Bindings, lineages: map<Sha, seq<Operation>>, op: Operation)
    requires AllRetireTheirOwn(bindings, lineages) && (op.OpBind? || SourceAccount(op) in bindings)
    ensures bindings.Keys == lineages.Keys
    ensures !op.OpBind? ==> RetiresItsOwn(bindings[SourceAccount(op)], lineages[SourceAccount(op)])
  {
    hide RetiresItsOwn;
  }

  /** Where an operation goes, and what stays. */
  lemma ChangedLineage(ops: seq<Operation>, op: Operation)
    requires op.OpBind? || SourceAccount(op) in Lineages(ops)
    ensures var before, after := Lineages(ops), Lineages(ops + [op]);
            && TargetAccount(op) in after
            && after[TargetAccount(op)] == (if op.OpBind? then [op] else before[SourceAccount(op)] + [op])
            && (forall a | a in after && a != TargetAccount(op) :: a in before && after[a] == before[a])
            && (forall a | a in before && a != TargetAccount(op) && (op.OpBind? || a != SourceAccount(op)) ::
                  a in after && after[a] == before[a])
  {
    assert (ops + [op])[..|ops|] == ops;
  }

  lemma ChangedIsItsOwn(bindings: Bindings, ops: seq<Operation>, op: Operation)
    requires op.OpBind? || SourceAccount(op) in bindings
    requires bindings.Keys == Lineages(ops).Keys
    requires !op.OpBind? ==> RetiresItsOwn(bindings[SourceAccount(op)], Lineages(ops)[SourceAccount(op)])
    ensures RetiresItsOwn(ChangedBinding(bindings, op),
                          if op.OpBind? then [op] else Lineages(ops)[SourceAccount(op)] + [op])
  {
    hide RetiresItsOwn, Lineages, FreshBinding, Advanced;
    if op.OpBind? {
      BoundRetiresNothing(op);
    } else {
      ChangedRetiresItsOwn(bindings, op, Lineages(ops)[SourceAccount(op)]);
    }
  }

  lemma OwnAgain(bindings: Bindings, after: Bindings, ops: seq<Operation>, op: Operation)
    requires AllRetireTheirOwn(bindings, Lineages(ops)) && after.Keys == Lineages(ops + [op]).Keys
    requires TargetAccount(op) in after
             && RetiresItsOwn(after[TargetAccount(op)], Lineages(ops + [op])[TargetAccount(op)])
    requires forall a | a in after && a != TargetAccount(op) ::
               && a in bindings && a in Lineages(ops) && after[a] == bindings[a]
               && Lineages(ops + [op])[a] == Lineages(ops)[a]
    ensures AllRetireTheirOwn(after, Lineages(ops + [op]))
  {
    hide RetiresItsOwn, Lineages, TargetAccount;
  }

  lemma NoneLostAgain(before: map<Sha, seq<Operation>>, after: map<Sha, seq<Operation>>, ops: seq<Operation>,
                      op: Operation)
    requires NoneLost(before, ops) && (op.OpBind? || SourceAccount(op) in before)
    requires TargetAccount(op) in after
    requires after[TargetAccount(op)] == (if op.OpBind? then [op] else before[SourceAccount(op)] + [op])
    requires forall a | a in after && a != TargetAccount(op) :: a in before && after[a] == before[a]
    requires forall a | a in before && a != TargetAccount(op) && (op.OpBind? || a != SourceAccount(op)) ::
               a in after && after[a] == before[a]
    requires op.OpBind? || TargetAccount(op) == SourceAccount(op) || TargetAccount(op) !in before
    requires op.OpBind? ==> TargetAccount(op) !in before
    ensures NoneLost(after, ops + [op])
  {
    hide SourceAccount, TargetAccount;
    var t := TargetAccount(op);
    assert op in after[t];
    forall o | o in ops + [op]
      ensures exists a :: a in after && o in after[a]
    {
      if o in ops {
        var a :| a in before && o in before[a];
        assert o in after[if !op.OpBind? && a == SourceAccount(op) then t else a];
      }
    }
    forall a, o | a in after && o in after[a]
      ensures o in ops + [op]
    {
      assert a != t ==> o in before[a];
    }
  }

  // ---- The guards ----

  /** The lineage of the account is on this runtime in this epoch. */
  predicate Stands(ops: seq<Operation>, account: Sha, runtime: Runtime, epoch: Sha) {
    && account in Lineages(ops)
    && var lineage := Lineages(ops)[account];
       && lineage != []
       && TargetRuntime(lineage[|lineage| - 1]) == runtime && TargetEpoch(lineage[|lineage| - 1]) == epoch
  }

  /** What an operation demands of the operations before it. */
  ghost predicate Eligible(ops: seq<Operation>, op: Operation) {
    var lineages := Lineages(ops);
    match op
    case OpBind(_, account, runtime, epoch) =>
      && account !in lineages && |lineages| < MAX_ACCOUNTS
      && (forall a, e :: !Stands(ops, a, runtime, e))
      && account !in LeftAccounts(ops) && runtime !in LeftRuntimes(ops)
      && Lineage(account, runtime, epoch) !in LeftLineages(ops)
    case OpSwitch(_, from, to, runtime, source, target) =>
      && Stands(ops, from, runtime, source) && to !in lineages && from != to && source != target
      && |LeftAccounts(lineages[from])| < MAX_OPERATION_HISTORY
      && |LeftLineages(lineages[from])| < MAX_OPERATION_HISTORY
      && Lineage(to, runtime, target) !in LeftLineages(lineages[from])
    case OpAdvance(_, account, runtime, source, target) =>
      Stands(ops, account, runtime, source) && source != target
    case OpTransfer(_, account, sourceRuntime, targetRuntime, source, target, _) =>
      && Stands(ops, account, sourceRuntime, source) && sourceRuntime != targetRuntime && source != target
      && targetRuntime !in LeftRuntimes(lineages[account])
      && |LeftRuntimes(lineages[account])| < MAX_OPERATION_HISTORY
    case _ =>
      Stands(ops, op.account, op.runtime, op.epoch)
  }

  /** What one binding has in common with its lineage. */
  ghost predicate Mirrors(b: Binding, lineage: seq<Operation>) {
    && lineage != []
    && b.runtime == TargetRuntime(lineage[|lineage| - 1]) && b.epoch == TargetEpoch(lineage[|lineage| - 1])
    && RetiresItsOwn(b, lineage)
    && |b.retiredAccounts| == |LeftAccounts(lineage)|
    && |b.retiredRuntimes| == |LeftRuntimes(lineage)|
    && |b.retiredLineages| == |LeftLineages(lineage)|
  }

  lemma EachMirrors(ops: seq<Operation>)
    requires History(ops)
    ensures Replayed(ops).Keys == Lineages(ops).Keys
    ensures forall a | a in Lineages(ops) :: Mirrors(Replayed(ops)[a], Lineages(ops)[a])
  {
    hide History, Replayed, Lineages;
    HistoryIsConsistent(ops);
    BindingsRetireTheirOwn(ops);
    forall a | a in Lineages(ops)
      ensures Mirrors(Replayed(ops)[a], Lineages(ops)[a])
    {
      assert Faithful(a, Replayed(ops)[a], Lineages(ops)[a], ops);
      FaithfulMirrors(a, Replayed(ops)[a], Lineages(ops)[a], ops);
    }
  }

  lemma FaithfulMirrors(account: Sha, b: Binding, lineage: seq<Operation>, ops: seq<Operation>)
    requires Faithful(account, b, lineage, ops) && RetiresItsOwn(b, lineage)
    ensures Mirrors(b, lineage)
  {
    ElementsOfDistinct(b.retiredAccounts);
    ElementsOfDistinct(b.retiredRuntimes);
    ElementsOfDistinct(b.retiredLineages);
    hide Elements, LeftAccounts, LeftRuntimes, LeftLineages, Nonces, Kinds, LastOf;
  }

  lemma MirrorsAt(b: Binding, lineage: seq<Operation>)
    requires Mirrors(b, lineage)
    ensures forall x :: x in b.retiredAccounts <==> x in LeftAccounts(lineage)
    ensures forall x :: x in b.retiredRuntimes <==> x in LeftRuntimes(lineage)
    ensures forall x :: x in b.retiredLineages <==> x in LeftLineages(lineage)
  {
    hide LeftAccounts, LeftRuntimes, LeftLineages;
    assert forall x :: x in b.retiredAccounts <==> x in Elements(b.retiredAccounts);
    assert forall x :: x in b.retiredRuntimes <==> x in Elements(b.retiredRuntimes);
    assert forall x :: x in b.retiredLineages <==> x in Elements(b.retiredLineages);
  }

  /** Retired anywhere is left behind by some operation. */
  lemma RetiredSomewhere(ops: seq<Operation>, account: Sha, runtime: Runtime, epoch: Sha)
    requires NoneLost(Lineages(ops), ops) && Replayed(ops).Keys == Lineages(ops).Keys
    requires forall a | a in Lineages(ops) :: Mirrors(Replayed(ops)[a], Lineages(ops)[a])
    ensures IsRetired(Replayed(ops), account, runtime, epoch)
            <==> || account in LeftAccounts(ops) || runtime in LeftRuntimes(ops)
                 || Lineage(account, runtime, epoch) in LeftLineages(ops)
  {
    hide Replayed, Lineages, Mirrors;
    var bindings, lineages := Replayed(ops), Lineages(ops);
    forall a | a in lineages
      ensures forall x :: x in bindings[a].retiredAccounts <==> x in LeftAccounts(lineages[a])
      ensures forall x :: x in bindings[a].retiredRuntimes <==> x in LeftRuntimes(lineages[a])
      ensures forall x :: x in bindings[a].retiredLineages <==> x in LeftLineages(lineages[a])
    {
      MirrorsAt(bindings[a], lineages[a]);
    }
    LeftByLineages(ops, account, runtime, epoch);
    hide LeftAccounts, LeftRuntimes, LeftLineages, NoneLost;
  }

  ghost predicate LeftBehind(ops: seq<Operation>, account: Sha, runtime: Runtime, epoch: Sha) {
    || account in LeftAccounts(ops) || runtime in LeftRuntimes(ops)
    || Lineage(account, runtime, epoch) in LeftLineages(ops)
  }

  lemma LeftByLineages(ops: seq<Operation>, account: Sha, runtime: Runtime, epoch: Sha)
    requires NoneLost(Lineages(ops), ops)
    ensures LeftBehind(ops, account, runtime, epoch)
            <==> exists a :: a in Lineages(ops) && LeftBehind(Lineages(ops)[a], account, runtime, epoch)
  {
    hide Lineages;
    LeftByOne(ops, account, runtime, epoch);
    forall a | a in Lineages(ops)
      ensures LeftBehind(Lineages(ops)[a], account, runtime, epoch)
              <==> exists o :: o in Lineages(ops)[a] && LeavesBehind(o, account, runtime, epoch)
    {
      LeftByOne(Lineages(ops)[a], account, runtime, epoch);
    }
    hide LeftBehind, LeavesBehind;
    if LeftBehind(ops, account, runtime, epoch) {
      var o :| o in ops && LeavesBehind(o, account, runtime, epoch);
      var a :| a in Lineages(ops) && o in Lineages(ops)[a];
      assert LeftBehind(Lineages(ops)[a], account, runtime, epoch);
    }
  }

  lemma LeftByOne(ops: seq<Operation>, account: Sha, runtime: Runtime, epoch: Sha)
    ensures LeftBehind(ops, account, runtime, epoch)
            <==> exists o :: o in ops && LeavesBehind(o, account, runtime, epoch)
  {
    if account in LeftAccounts(ops) {
      var o :| o in ops && o.OpSwitch? && o.sourceAccount == account;
      assert LeavesBehind(o, account, runtime, epoch);
    }
    if runtime in LeftRuntimes(ops) {
      var o :| o in ops && o.OpTransfer? && o.sourceRuntime == runtime;
      assert LeavesBehind(o, account, runtime, epoch);
    }
    if Lineage(account, runtime, epoch) in LeftLineages(ops) {
      var o :|
        o in ops && o.OpSwitch? && Lineage(o.sourceAccount, o.runtime, o.source) == Lineage(account, runtime, epoch);
      assert LeavesBehind(o, account, runtime, epoch);
    }
  }

  predicate LeavesBehind(o: Operation, account: Sha, runtime: Runtime, epoch: Sha) {
    || (o.OpSwitch? && (o.sourceAccount == account || Lineage(o.sourceAccount, o.runtime, o.source)
                                                      == Lineage(account, runtime, epoch)))
    || (o.OpTransfer? && o.sourceRuntime == runtime)
  }

  lemma TakenStands(ops: seq<Operation>, runtime: Runtime)
    requires Replayed(ops).Keys == Lineages(ops).Keys
    requires forall a | a in Lineages(ops) :: Mirrors(Replayed(ops)[a], Lineages(ops)[a])
    ensures RuntimeTaken(Replayed(ops), runtime) <==> exists a, e :: Stands(ops, a, runtime, e)
  {
    hide Replayed, Lineages, RetiresItsOwn;
    if RuntimeTaken(Replayed(ops), runtime) {
      var a :| a in Replayed(ops) && Replayed(ops)[a].runtime == runtime;
      assert Stands(ops, a, runtime, Replayed(ops)[a].epoch);
    }
  }

  lemma BindGuards(ops: seq<Operation>, op: Operation)
    requires op.OpBind? && Replayed(ops).Keys == Lineages(ops).Keys
    requires IsRetired(Replayed(ops), op.account, op.runtime, op.epoch)
             <==> || op.account in LeftAccounts(ops) || op.runtime in LeftRuntimes(ops)
                  || Lineage(op.account, op.runtime, op.epoch) in LeftLineages(ops)
    requires RuntimeTaken(Replayed(ops), op.runtime) <==> exists a, e :: Stands(ops, a, op.runtime, e)
    ensures Admitted(Replayed(ops), op) <==> Eligible(ops, op)
  {
    hide Replayed, Lineages, Stands, IsRetired, RuntimeTaken, LeftAccounts, LeftRuntimes, LeftLineages;
    assert |Replayed(ops)| == |Replayed(ops).Keys| && |Lineages(ops)| == |Lineages(ops).Keys|;
  }

  lemma LineageGuards(ops: seq<Operation>, op: Operation)
    requires !op.OpBind? && Replayed(ops).Keys == Lineages(ops).Keys
    requires forall a | a in Lineages(ops) :: Mirrors(Replayed(ops)[a], Lineages(ops)[a])
    ensures Admitted(Replayed(ops), op) <==> Eligible(ops, op)
  {
    hide Replayed, Lineages, RetiresItsOwn, LeftAccounts, LeftRuntimes, LeftLineages;
    var s := SourceAccount(op);
    if s in Lineages(ops) {
      MirrorsAt(Replayed(ops)[s], Lineages(ops)[s]);
    }
  }

  /** The guards a request passes are exactly what the history demands. */
  lemma {:induction false} AdmittedIsEligible(ops: seq<Operation>, op: Operation)
    requires History(ops)
    ensures Admitted(Replayed(ops), op) <==> Eligible(ops, op)
  {
    hide *;
    EachMirrors(ops);
    BindingsRetireTheirOwn(ops);
    if op.OpBind? {
      RetiredSomewhere(ops, op.account, op.runtime, op.epoch);
      TakenStands(ops, op.runtime);
      BindGuards(ops, op);
    } else {
      LineageGuards(ops, op);
    }
  }
}
