/** Fresh target epochs: when no operation brings its lineage an epoch back, no lineage is ever
    retired twice, and every record that is saved can be loaded again. */
module RegistryEpochs {
  import opened HexBits
  import opened Operations
  import opened Storage
  import opened RegistryRecords
  import opened RegistryFiles
  import opened RegistryRuns

  /** The operation brings an epoch that no operation of its lineage had, or none at all. */
  predicate BringsFreshEpoch(ops: seq<Operation>, op: Operation) {
    op.OpBind? || IsAcknowledgement(op) || SourceAccount(op) !in Lineages(ops)
    || forall o | o in Lineages(ops)[SourceAccount(op)] :: TargetEpoch(o) != TargetEpoch(op)
  }

  predicate FreshEpochs(ops: seq<Operation>) {
    forall i | 0 <= i < |ops| :: BringsFreshEpoch(ops[..i], ops[i])
  }

  /** The retired lineages of a binding carry epochs its lineage brought, and none is current. */
  ghost predicate NeverReturned(b: Binding, lineage: seq<Operation>) {
    && lineage != [] && b.epoch == TargetEpoch(lineage[|lineage| - 1])
    && forall l | l in b.retiredLineages :: l.epoch != b.epoch && Brought(lineage, l.epoch)
  }

  predicate Brought(lineage: seq<Operation>, epoch: Sha) {
    exists o | o in lineage :: TargetEpoch(o) == epoch
  }

  ghost predicate NoneReturned(bindings: Bindings, ops: seq<Operation>) {
    && bindings.Keys == Lineages(ops).Keys
    && forall a | a in bindings :: NeverReturned(bindings[a], Lineages(ops)[a])
  }

  lemma BroughtEarlier(lineage: seq<Operation>, op: Operation, epoch: Sha)
    requires Brought(lineage, epoch)
    ensures Brought(lineage + [op], epoch)
  {
    var o :| o in lineage && TargetEpoch(o) == epoch;
    assert o in lineage + [op];
  }

  /** The changed binding of an admitted operation whose epoch is fresh. */
  lemma ChangedNeverReturned(bindings: Bindings, ops: seq<Operation>, op: Operation)
    requires NoneReturned(bindings, ops) && Admitted(bindings, op) && BringsFreshEpoch(ops, op)
    ensures TargetAccount(op) in Lineages(ops + [op])
    ensures NeverReturned(ChangedBinding(bindings, op), Lineages(ops + [op])[TargetAccount(op)])
  {
    assert (ops + [op])[..|ops|] == ops;
    if !op.OpBind? {
      var b, lineage := bindings[SourceAccount(op)], Lineages(ops)[SourceAccount(op)];
      assert NeverReturned(b, lineage);
      var last := lineage[|lineage| - 1];
      assert last in lineage && Brought(lineage, b.epoch);
      var after := ChangedBinding(bindings, op);
      forall l | l in after.retiredLineages
        ensures l.epoch != after.epoch && Brought(lineage + [op], l.epoch)
      {
        assert l in b.retiredLineages || l.epoch == b.epoch;
        assert Brought(lineage, l.epoch);
        BroughtEarlier(lineage, op, l.epoch);
      }
    }
  }

  /** An admitted operation never retires its lineage twice if no epoch came back before it. */
  lemma NoReturnMeansNoDoubleRetirement(bindings: Bindings, ops: seq<Operation>, op: Operation)
    requires NoneReturned(bindings, ops) && Admitted(bindings, op)
    ensures !RetiresTwice(bindings, op)
  {
    if op.OpSwitch? {
      assert NeverReturned(bindings[op.sourceAccount], Lineages(ops)[op.sourceAccount]);
    }
  }

  lemma {:induction false} FreshEpochsNeverReturn(ops: seq<Operation>)
    requires History(ops) && FreshEpochs(ops)
    ensures NoneReturned(Replayed(ops), ops)
    decreases |ops|
  {
    hide Admitted, RetiresTwice, Applied, BringsFreshEpoch, NeverReturned, Lineages;
    if ops == [] {
      NothingReturned();
    } else {
      var front, op := Front(ops), Last(ops);
      forall i | 0 <= i < |front|
        ensures BringsFreshEpoch(front[..i], front[i])
      {
        assert front[..i] == ops[..i];
      }
      FreshEpochsNeverReturn(front);
      assert ops == front + [op] && ops[..|front|] == front;
      ReturnedStep(Replayed(front), front, op);
    }
  }

  lemma NothingReturned()
    ensures NoneReturned(map[], []) && Replayed([]) == map[]
  {
  }

  lemma ReturnedStep(bindings: Bindings, ops: seq<Operation>, op: Operation)
    requires NoneReturned(bindings, ops) && Admitted(bindings, op) && BringsFreshEpoch(ops, op)
    ensures NoneReturned(Applied(bindings, op), ops + [op])
  {
    ChangedNeverReturned(bindings, ops, op);
    AdmittedHasSource(bindings, op);
    OtherBindingsStay(bindings, ops, op);
    hide Admitted, NeverReturned, Applied, Lineages, ChangedBinding, BringsFreshEpoch;
    var after := Applied(bindings, op);
    forall a | a in after
      ensures NeverReturned(after[a], Lineages(ops + [op])[a])
    {
      if a != TargetAccount(op) {
        assert NeverReturned(bindings[a], Lineages(ops)[a]);
      }
    }
  }

  /** After a history of fresh epochs every admitted operation extends the history: nothing is
      retired twice. */
  lemma {:induction false} FreshEpochsRetireOnce(ops: seq<Operation>, op: Operation, gates: Gates)
    requires History(ops) && FreshEpochs(ops) && Commits(ops, op, gates)
    ensures !RetiresTwice(Replayed(ops), op)
    ensures History(ops + [op]) && DecodableBindings(Replayed(ops + [op]))
    ensures FreshEpochs(ops + [op]) <==> BringsFreshEpoch(ops, op)
  {
    hide History, Replayed, Admitted, RetiresTwice, BringsFreshEpoch, NoneReturned, DecodableBindings, Commits;
    CommitExtendsHistory(ops, op, gates);
    FreshEpochsNeverReturn(ops);
    NoReturnMeansNoDoubleRetirement(Replayed(ops), ops, op);
    EpochsExtend(ops, op);
  }

  lemma EpochsExtend(ops: seq<Operation>, op: Operation)
    requires FreshEpochs(ops)
    ensures FreshEpochs(ops + [op]) <==> BringsFreshEpoch(ops, op)
  {
    hide BringsFreshEpoch;
    var all := ops + [op];
    assert all[..|ops|] == ops && all[|ops|] == op;
    forall i | 0 <= i < |ops|
      ensures BringsFreshEpoch(all[..i], all[i])
    {
      assert all[..i] == ops[..i];
    }
  }

  // ---- Runs ----

  /** A request that, should it commit, brings an epoch its lineage never had. */
  ghost predicate FreshStep(d: Disk, after: Disk, r: Request) {
    exists ops, phase ::
      && Inv(d, ops, phase)
      && (Commits(ops, r.op, r.gates) ==> BringsFreshEpoch(ops, r.op))
      && after == DiskAfter(d, ops, phase, r.op, r.gates, r.fuel).disk
  }

  ghost predicate IsFreshRun(disks: seq<Disk>, requests: seq<Request>) {
    && |disks| == |requests| + 1
    && (forall i | 0 <= i < |requests| :: FreshStep(disks[i], disks[i + 1], requests[i]))
  }

  lemma FreshStepKeeps(d: Disk, after: Disk, r: Request, ops: seq<Operation>, phase: Phase)
    returns (ops': seq<Operation>, phase': Phase)
    requires FreshStep(d, after, r) && Inv(d, ops, phase) && FreshEpochs(ops)
    ensures Step(d, after, r)
    ensures Inv(after, ops', phase') && FreshEpochs(ops')
    ensures ops' == ops || ops' == ops + [r.op]
  {
    hide Inv, Commits, RetiresTwice, DiskAfter, Replayed, FreshEpochs, BringsFreshEpoch, History, DecodableBindings;
    var o, p :| Inv(d, o, p) && (Commits(o, r.op, r.gates) ==> BringsFreshEpoch(o, r.op))
                && after == DiskAfter(d, o, p, r.op, r.gates, r.fuel).disk;
    HistoryIsDetermined(d, ops, phase, o, p);
    HistoryUnderInv(d, ops, phase);
    if Commits(ops, r.op, r.gates) {
      FreshEpochsRetireOnce(ops, r.op, r.gates);
    }
    ops', phase' := RequestKeepsInvariant(d, ops, phase, r.op, r.gates, r.fuel);
  }

  /** With fresh epochs no run needs to be told that a lineage is not retired twice: every
      request, stopped anywhere, is one the registry's invariant survives, and every record that
      is ever current loads. */
  lemma {:induction false} FreshRunsKeepInvariant(disks: seq<Disk>, requests: seq<Request>, ops: seq<Operation>,
                                                  phase: Phase)
    returns (ops': seq<Operation>, phase': Phase)
    requires IsFreshRun(disks, requests) && Inv(disks[0], ops, phase) && FreshEpochs(ops)
    ensures IsRun(disks, requests)
    ensures Inv(disks[|requests|], ops', phase') && FreshEpochs(ops')
    ensures forall i | 0 <= i <= |requests| :: Load(disks[i]).Ok? && Load(disks[i]).value.Some?
    decreases |requests|
  {
    hide Inv, Load, FreshStep, Step, RecordAt, FreshEpochs;
    LoadReturnsCommitted(disks[0], ops, phase);
    if requests == [] {
      return ops, phase;
    }
    var next, phaseNext := FreshStepKeeps(disks[0], disks[1], requests[0], ops, phase);
    ops', phase' := FreshRunsKeepInvariant(disks[1..], requests[1..], next, phaseNext);
    forall i | 0 <= i < |requests|
      ensures Step(disks[i], disks[i + 1], requests[i])
    {
      if i > 0 {
        assert Step(disks[1..][i - 1], disks[1..][i], requests[1..][i - 1]);
      }
    }
    forall i | 0 <= i <= |requests|
      ensures Load(disks[i]).Ok? && Load(disks[i]).value.Some?
    {
      if i > 0 {
        assert disks[1..][i - 1] == disks[i];
      }
    }
  }
}
