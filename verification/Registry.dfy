/** The registry itself: lifecycle methods that load, reconcile, judge and save, one
    durable write after the other. */
module Registry {
  import opened Wrappers
  import opened HexBits
  import opened Operations
  import opened NonceTrie
  import opened Storage
  import opened NonceLedger
  import opened RegistryRecords
  import opened RegistryFiles
  import opened RegistryCommit
  import opened RegistryRuns

  /** The saved state is sound, the operation is new, and this is what it commits. */
  ghost predicate Saves(d: Disk, ops: seq<Operation>, phase: Phase, op: Operation,
                        current: Record, bindings: Bindings, receipt: Receipt) {
    && Inv(d, ops, phase) && Fresh(ops, op.nonce) && |ops| < MAX_NONCE_RECEIPTS
    && current == RecordAt(ops) && bindings == Applied(Replayed(ops), op) && receipt == ReceiptOf(op)
  }

  /** The transition of a new operation passes validation once its receipt is on disk. */
  lemma NewLinkValidates(d: Disk, ops: seq<Operation>, phase: Phase, op: Operation)
    requires Inv(d, ops, phase) && Fresh(ops, op.nonce)
    requires LoadReceipt(d, op.nonce) == Ok(ReceiptOf(op))
    ensures ValidateProof(d, TransitionAt(ops + [op])) == Ok(TransitionAt(ops + [op]))
  {
    hide History, RecordAt, TransitionAt, RootOf, Anchored, CanonicalRoot, LoadReceipt, Contents, Extends,
         ExtendsAnchor,
         StartsAt, EndsAt, ValidateProof, LoadTransition, RootsAnchored, PreviousIs, PendingIs;
    var all := ops + [op];
    assert Front(all) == ops && Last(all) == op;
    LinksExtend(all);
    NewRootIsInsertRoot(d, ops, phase, op);
    if ops != [] {
      PreviousLinkIsRaw(d, ops, phase);
    }
    LinkValidates(d, TransitionAt(all));
  }

  lemma PreviousLinkIsRaw(d: Disk, ops: seq<Operation>, phase: Phase)
    requires Inv(d, ops, phase) && ops != []
    ensures LoadTransitionRaw(d, |ops|) == Ok(Some(TransitionAt(ops)))
  {
    hide History, RecordAt, TransitionAt, RootOf, RootsAnchored, Extends, ExtendsAnchor, StartsAt, EndsAt,
         PreviousIs, PendingIs;
    assert LinkedOps(ops, phase)[..|ops|] == ops;
    LinksExtend(ops);
  }

  lemma NewRootIsInsertRoot(d: Disk, ops: seq<Operation>, phase: Phase, op: Operation)
    requires Inv(d, ops, phase) && Fresh(ops, op.nonce)
    ensures CanonicalRoot(d.nodes, RootOf(ops), ReceiptOf(op)) == Ok(RootOf(ops + [op]))
    ensures op.nonce !in Contents(RootOf(ops))
  {
    hide Inv, RecordAt, TransitionAt, Anchored, CanonicalRoot, Contents;
    assert Front(ops + [op]) == ops && Last(ops + [op]) == op;
    SoundRoot(d, ops, phase);
    RootHoldsHistory(ops);
    FreshIsNotMember(RootOf(ops), ops, op.nonce);
    CanonicalRootIsInsertRoot(d, RootOf(ops), ReceiptOf(op));
  }

  lemma SoundRoot(d: Disk, ops: seq<Operation>, phase: Phase)
    requires Inv(d, ops, phase)
    ensures Intact(d) && Anchored(d, RootOf(ops)) && History(ops)
    ensures d.ready == Some(READY) && d.current == Some(RecordAt(ops))
  {
    hide History, RecordAt, TransitionAt, RootOf, Anchored, ChainStored, PreviousIs, PendingIs;
    RootIsAnchored(d, ops, phase);
    HistoryOfCommitted(ops, phase);
  }

  /** The new root, once anchored, vouches for the new receipt. */
  lemma NewReceiptIsMember(d: Disk, ops: seq<Operation>, op: Operation)
    requires Intact(d) && Anchored(d, RootOf(ops + [op])) && History(ops) && Fresh(ops, op.nonce)
    ensures RequireReceipt(d, RootOf(ops + [op]), op.nonce) == Ok(ReceiptOf(op))
    ensures LoadReceipt(d, op.nonce) == Ok(ReceiptOf(op))
  {
    hide Contents, RequireReceipt, Stored, WellFormed, InsertRoot;
    assert Front(ops + [op]) == ops && Last(ops + [op]) == op;
    RootHoldsHistory(ops);
    FreshIsNotMember(RootOf(ops), ops, op.nonce);
    InsertRefinesMap(RootOf(ops), ReceiptOf(op));
    assert op.nonce in Contents(RootOf(ops + [op]));
    MemberReceiptLoads(d, RootOf(ops + [op]), op);
  }

  /** The evidence of a new operation is on disk and only the commit is left. */
  ghost predicate Committable(d: Disk, ops: seq<Operation>, phase: Phase, op: Operation) {
    Inv(d, ops, phase) && Fresh(ops, op.nonce) && Anchored(d, RootOf(ops + [op]))
  }

  /** The record and transition that commit the operation. */
  ghost predicate Commissions(current: Record, bindings: Bindings, target: Record, t: Transition,
                              ops: seq<Operation>, op: Operation) {
    && current == RecordAt(ops) && bindings == Replayed(ops + [op])
    && target == RecordAt(ops + [op]) && t == TransitionAt(ops + [op])
  }

  lemma CommitWritesAre(sound: bool, whole: Outcome, d: Disk, fuel: nat, current: Record, bindings: Bindings,
                        target: Record, t: Transition, ops: seq<Operation>, op: Operation)
    requires sound ==> Commissions(current, bindings, target, t, ops, op)
    requires whole == Run(d, [CreatePending(Pending(t, t))] + ([CreateTransition(t)] +
                             ([ReplacePrevious(current), ReplaceCurrent(target)] + [UnlinkPending])), fuel)
    ensures sound ==> whole == Run(d, CommitWrites(ops, op), fuel)
  {
    hide RecordAt, TransitionAt, Replayed;
    if sound {
      assert CommitWrites(ops, op) ==
             [CreatePending(Pending(t, t))] + ([CreateTransition(t)] +
               ([ReplacePrevious(current), ReplaceCurrent(target)] + [UnlinkPending]));
    }
  }

  lemma CommissionedTarget(current: Record, bindings: Bindings, target: Record, t: Transition,
                           ops: seq<Operation>, op: Operation)
    requires Commissions(current, bindings, target, t, ops, op)
    ensures target == Record(current.sequence + 1, Some(current), bindings, target.nonceRoot, target.nonceCount)
  {
    hide Replayed, TransitionAt, RecordAt;
    RecordFields(ops);
    RecordFields(ops + [op]);
    assert Front(ops + [op]) == ops;
  }

  lemma ReplacingKeepsEvidence(d: Disk, current: Record, target: Record, fuel: nat)
    ensures var after := Run(d, [ReplacePrevious(current), ReplaceCurrent(target)], fuel).disk;
            after.reserved == d.reserved && after.receipts == d.receipts && after.nodes == d.nodes
  {
    var rest := [ReplaceCurrent(target)];
    assert [ReplacePrevious(current), ReplaceCurrent(target)] == [ReplacePrevious(current)] + rest;
    assert rest == rest + [];
    if fuel > 0 {
      RunHead(d, ReplacePrevious(current), rest, fuel);
      if fuel > 1 {
        RunHead(d.(previous := Some(current)), ReplaceCurrent(target), [], fuel - 1);
      }
    }
  }

  lemma CommittableLinkValidates(d: Disk, announced: Disk, ops: seq<Operation>, phase: Phase, op: Operation)
    requires Committable(d, ops, phase, op) && announced == d.(pending := announced.pending)
    ensures ValidateProof(announced, TransitionAt(ops + [op])) == Ok(TransitionAt(ops + [op]))
    ensures announced.current == Some(RecordAt(ops))
  {
    hide Inv, RecordAt, TransitionAt, Anchored, Fresh, ValidateProof, LoadReceipt;
    SoundRoot(d, ops, phase);
    NewReceiptIsMember(d, ops, op);
    NewLinkValidates(d, ops, phase, op);
    AnnouncingKeepsProofs(d, announced, TransitionAt(ops + [op]));
  }

  lemma AnnouncingKeepsProofs(d: Disk, announced: Disk, t: Transition)
    requires announced == d.(pending := announced.pending)
    ensures ValidateProof(announced, t) == ValidateProof(d, t)
  {
    hide CanonicalRoot, Extends, ExtendsAnchor;
  }

  lemma CommittedReceiptStands(d: Disk, after: Disk, ops: seq<Operation>, phase: Phase, op: Operation)
    requires Committable(d, ops, phase, op)
    requires after.reserved == d.reserved && after.receipts == d.receipts && after.nodes == d.nodes
    ensures RequireReceipt(after, RootOf(ops + [op]), op.nonce) == Ok(ReceiptOf(op))
    ensures RecordAt(ops + [op]).nonceRoot == RootOf(ops + [op]) && TransitionAt(ops + [op]).nonce == op.nonce
  {
    hide Inv, Anchored, Fresh, RootOf, ProofOf;
    SoundRoot(d, ops, phase);
    NewReceiptIsMember(d, ops, op);
    RecordFields(ops + [op]);
  }

  lemma NewNonceIsNoMember(d: Disk, ops: seq<Operation>, phase: Phase, op: Operation)
    requires Inv(d, ops, phase) && Fresh(ops, op.nonce)
    ensures op.nonce !in Contents(RootOf(ops)) && ReceiptOf(op).nonce == op.nonce
    ensures InsertRoot(RootOf(ops), ReceiptOf(op)) == RootOf(ops + [op])
  {
    NewRootIsInsertRoot(d, ops, phase, op);
    hide Inv, Contents, InsertRoot;
    assert Front(ops + [op]) == ops && Last(ops + [op]) == op;
  }

  lemma NewRecordIs(ops: seq<Operation>, op: Operation, target: Record)
    requires target == Record(|ops| + 2, Some(RecordAt(ops)), Applied(Replayed(ops), op), RootOf(ops + [op]), |ops| + 1)
    ensures target == RecordAt(ops + [op]) && target.bindings == Replayed(ops + [op])
  {
    hide Applied, RootOf;
    assert Front(ops + [op]) == ops && Last(ops + [op]) == op;
    RecordFields(ops + [op]);
  }

  lemma NewTransitionIs(ops: seq<Operation>, op: Operation, t: Transition)
    requires t == Transition(if ops == [] then ReadyAnchor(READY) else Previous(TransitionAt(ops)),
                             |ops| + 1, RecordAt(ops), RootOf(ops), |ops|,
                             |ops| + 2, RecordAt(ops + [op]), RootOf(ops + [op]), |ops| + 1, op.nonce, ReceiptOf(op))
    ensures t == TransitionAt(ops + [op])
  {
    hide RecordAt, RootOf;
    assert Front(ops + [op]) == ops && Last(ops + [op]) == op;
  }

  lemma IsCommittable(d: Disk, ops: seq<Operation>, phase: Phase, op: Operation)
    requires Inv(d, ops, phase) && Fresh(ops, op.nonce) && Anchored(d, RootOf(ops + [op]))
    ensures Committable(d, ops, phase, op)
  {
  }

  /** A request past its argument checks first clears a finished commit, then goes on as
      from a quiet registry. */
  lemma SplitPlan(d: Disk, ops: seq<Operation>, phase: Phase, op: Operation, gates: Gates, fuel: nat)
    requires Inv(d, ops, phase) && Precheck(op, gates) == None
    ensures phase == Cleanup ==>
              var plan, idle := PlanFor(ops, phase, op, gates), PlanFor(ops, Idle, op, gates);
              && plan.answer == idle.answer
              && Run(d, plan.writes, fuel) ==
                 (if fuel == 0 then Outcome(d, Crashed, 0) else Run(d.(pending := None), idle.writes, fuel - 1))
              && Inv(d.(pending := None), ops, Idle)
  {
    if phase == Cleanup {
      CleanupIsPrepended(ops, op, gates);
      CleanupFirst(d, ops, PlanFor(ops, Idle, op, gates).writes, fuel);
    }
    hide Inv, PlanFor;
  }

  /** A request that does not commit writes nothing once the cleanup is done. */
  lemma QuietPlan(ops: seq<Operation>, phase: Phase, op: Operation, gates: Gates)
    requires Precheck(op, gates) == None
    ensures var quiet := if phase == Cleanup then Idle else phase;
            var plan := PlanFor(ops, quiet, op, gates);
            && (VerdictFor(ops, op).Err? ==> plan == Plan([], Err(VerdictFor(ops, op).error)))
            && (VerdictFor(ops, op) == Ok(Unchanged) ==> plan == Plan([], Ok(RecordAt(ops))))
    ensures forall d: Disk, fuel :: Run(d, [], fuel) == Outcome(d, Done, fuel)
  {
    hide VerdictFor, RecordAt;
  }

  lemma RefusedPlan(ops: seq<Operation>, phase: Phase, op: Operation, gates: Gates, d: Disk, fuel: nat)
    requires Precheck(op, gates).Some?
    ensures var plan := PlanFor(ops, phase, op, gates);
            && plan.answer == Err(Refused(Precheck(op, gates).value))
            && Run(d, plan.writes, fuel) == Outcome(d, Done, fuel)
  {
    hide VerdictFor, RecordAt, Precheck;
  }

  /** The lookup of a loaded registry answers the dictionary of its root. */
  lemma QuietLookup(d: Disk, ops: seq<Operation>, phase: Phase, nonce: Sha)
    requires Inv(d, ops, phase)
    ensures Lookup(d, RootOf(ops), nonce) == Ok(Member(RootOf(ops), nonce))
  {
    SoundRoot(d, ops, phase);
    hide Inv, Lookup, RootOf, Contents, Anchored, Intact;
    LookupAnswersContents(d, RootOf(ops), nonce);
  }

  lemma CommittingVerdict(d: Disk, ops: seq<Operation>, phase: Phase, op: Operation, gates: Gates,
                          current: Record, bindings: Bindings)
    requires Inv(d, ops, phase) && phase != Cleanup && current == RecordAt(ops)
    requires Precheck(op, gates) == None && VerdictFor(ops, op) == Ok(Commit(bindings))
    ensures |ops| < MAX_NONCE_RECEIPTS ==>
              && Saves(d, ops, phase, op, current, bindings, ReceiptOf(op))
              && PlanFor(ops, phase, op, gates) == Plan(SaveWrites(ops, op), Ok(RecordAt(ops + [op])))
    ensures |ops| >= MAX_NONCE_RECEIPTS ==> PlanFor(ops, phase, op, gates) == Plan([], Err(CapacityExhausted))
  {
    hide *;
    if |ops| < MAX_NONCE_RECEIPTS {
      HistoryUnderInv(d, ops, phase);
      VerdictCommits(ops, op, gates, bindings);
      CommitExtendsHistory(ops, op, gates);
      CommittingPlan(ops, phase, op, gates);
      CommittedBindingsAreApplied(ops, op, gates, bindings);
      SavesParts(d, ops, phase, op, current, bindings);
    } else {
      FullPlan(ops, phase, op, gates, bindings);
    }
  }

  lemma VerdictCommits(ops: seq<Operation>, op: Operation, gates: Gates, bindings: Bindings)
    requires Precheck(op, gates) == None && VerdictFor(ops, op) == Ok(Commit(bindings)) && |ops| < MAX_NONCE_RECEIPTS
    ensures Commits(ops, op, gates)
  {
    hide VerdictFor, Precheck;
  }

  lemma SavesParts(d: Disk, ops: seq<Operation>, phase: Phase, op: Operation, current: Record, bindings: Bindings)
    requires Inv(d, ops, phase) && Fresh(ops, op.nonce) && |ops| < MAX_NONCE_RECEIPTS
    requires current == RecordAt(ops) && bindings == Applied(Replayed(ops), op)
    ensures Saves(d, ops, phase, op, current, bindings, ReceiptOf(op))
  {
    hide Inv, RecordAt, Replayed, Applied, Fresh;
  }

  lemma FullPlan(ops: seq<Operation>, phase: Phase, op: Operation, gates: Gates, bindings: Bindings)
    requires phase != Cleanup && |ops| >= MAX_NONCE_RECEIPTS
    requires Precheck(op, gates) == None && VerdictFor(ops, op) == Ok(Commit(bindings))
    ensures PlanFor(ops, phase, op, gates) == Plan([], Err(CapacityExhausted))
  {
    hide VerdictFor, Precheck, SaveWrites, RecordAt;
  }

  lemma CommittedBindingsAreApplied(ops: seq<Operation>, op: Operation, gates: Gates, bindings: Bindings)
    requires Precheck(op, gates) == None && VerdictFor(ops, op) == Ok(Commit(bindings))
    ensures bindings == Applied(Replayed(ops), op)
  {
    hide Replayed, RootOf, Contents, Applied, Admitted, Precheck;
    match Member(RootOf(ops), op.nonce)
    case Some(used) => JudgeNeverReusesNonce(Replayed(ops), used, op);
    case None =>
      JudgeCommitsTheAdmitted(Replayed(ops), op, gates);
  }

  lemma BlankIsNoRegistry(ops: seq<Operation>, phase: Phase)
    ensures !Inv(BLANK, ops, phase)
    ensures ops == [] ==> Replayed(ops) == map[]
  {
  }

  class Registry {
    const device: Device
    const ledger: Ledger
    var nextNonceAnchor: Option<(Hash, nat)>

    constructor (device: Device)
      ensures this.device == device && ledger.device == device && nextNonceAnchor == None
    {
      this.device := device;
      this.ledger := new Ledger(device);
      this.nextNonceAnchor := None;
    }

    /** `_save_unlocked`: keep the current file as the previous one, then replace it. */
    method SaveUnlocked(previous: Option<Record>, bindings: Bindings) returns (r: Result<Record>)
      modifies device
      ensures var root := if nextNonceAnchor.Some? then nextNonceAnchor.value.0
                          else if previous.Some? then previous.value.nonceRoot else EmptyRoot;
              var count := if nextNonceAnchor.Some? then nextNonceAnchor.value.1
                           else if previous.Some? then previous.value.nonceCount else 0;
              var sequence := if previous.Some? then previous.value.sequence + 1 else 1;
              var record := Record(sequence, previous, bindings, root, count);
              (previous.Some? ==> old(device.disk).current.Some?) ==>
                var keep := if previous.Some? then [ReplacePrevious(old(device.disk).current.value)] else [];
                var o := Run(old(device.disk), keep + [ReplaceCurrent(record)], old(device.fuel));
                && device.disk == o.disk && device.fuel == o.fuel
                && r == if o.status == Done then Ok(record) else Err(StatusError(o.status))
    {
      var root := if nextNonceAnchor.Some? then nextNonceAnchor.value.0
                  else if previous.Some? then previous.value.nonceRoot else EmptyRoot;
      var count := if nextNonceAnchor.Some? then nextNonceAnchor.value.1
                   else if previous.Some? then previous.value.nonceCount else 0;
      var record := Record(if previous.Some? then previous.value.sequence + 1 else 1, previous, bindings, root, count);
      if previous.Some? {
        if device.disk.current == None {
          return Err(RegistryInvalid);
        }
        RunFirst(device.disk, ReplacePrevious(device.disk.current.value), [ReplaceCurrent(record)], device.fuel);
        var kept := device.Commit(ReplacePrevious(device.disk.current.value));
        if kept != Done {
          return Err(StatusError(kept));
        }
      } else {
        assert [] + [ReplaceCurrent(record)] == [ReplaceCurrent(record)];
      }
      var replaced := device.Commit(ReplaceCurrent(record));
      r := if replaced == Done then Ok(record) else Err(StatusError(replaced));
    }

    /** The writing end of `_save_with_nonce_unlocked`: announce, link, replace, clear. */
    method CommitTransition(current: Record, bindings: Bindings, target: Record, t: Transition,
                            ghost ops: seq<Operation>, ghost phase: Phase, ghost op: Operation)
      returns (r: Result<Record>)
      requires ledger.device == device
      modifies this, device
      ensures Committable(old(device.disk), ops, phase, op) && Commissions(current, bindings, target, t, ops, op) ==>
                var o := Run(old(device.disk), CommitWrites(ops, op), old(device.fuel));
                && device.disk == o.disk && device.fuel == o.fuel
                && r == if o.status == Done then Ok(RecordAt(ops + [op])) else Err(StatusError(o.status))
      ensures nextNonceAnchor == None
    {
      hide Inv, RecordAt, TransitionAt, Replayed, CommitWrites, Committable, Anchored, ValidateProof, RequireReceipt;
      nextNonceAnchor := None;
      ghost var sound := Committable(device.disk, ops, phase, op) && Commissions(current, bindings, target, t, ops, op);
      ghost var d0 := device.disk;
      ghost var announce, link, clear := CreatePending(Pending(t, t)), CreateTransition(t), UnlinkPending;
      ghost var replace := [ReplacePrevious(current), ReplaceCurrent(target)];
      ghost var whole := Run(device.disk, [announce] + ([link] + (replace + [clear])), device.fuel);
      RunFirst(device.disk, announce, [link] + (replace + [clear]), device.fuel);
      var status := device.Commit(CreatePending(Pending(t, t)));
      if status != Done {
        CommitWritesAre(sound, whole, d0, old(device.fuel), current, bindings, target, t, ops, op);
        return Err(StatusError(status));
      }
      if sound {
        CommittableLinkValidates(d0, device.disk, ops, phase, op);
      }
      var valid :- ValidateProof(device.disk, t);
      RunFirst(device.disk, link, replace + [clear], device.fuel);
      status := device.Commit(CreateTransition(t));
      if status != Done {
        CommitWritesAre(sound, whole, d0, old(device.fuel), current, bindings, target, t, ops, op);
        return Err(StatusError(status));
      }
      assert sound ==> whole == Run(device.disk, replace + [clear], device.fuel);
      RunConcat(device.disk, replace, [clear], device.fuel);
      assert sound ==> device.disk.current == Some(current);
      nextNonceAnchor := Some((target.nonceRoot, target.nonceCount));
      assert [ReplacePrevious(current)] + [ReplaceCurrent(target)] == replace;
      if sound {
        CommissionedTarget(current, bindings, target, t, ops, op);
      }
      ReplacingKeepsEvidence(device.disk, current, target, device.fuel);
      var saved := SaveUnlocked(Some(current), bindings);
      nextNonceAnchor := None;
      assert sound ==>
            d0.receipts == device.disk.receipts && d0.nodes == device.disk.nodes && d0.reserved == device.disk.reserved;
      if saved.Err? {
        CommitWritesAre(sound, whole, d0, old(device.fuel), current, bindings, target, t, ops, op);
        return saved;
      }
      if saved.value != target {
        return Err(RevalidationFailed);
      }
      if sound {
        CommittedReceiptStands(d0, device.disk, ops, phase, op);
      }
      var member :- RequireReceipt(device.disk, target.nonceRoot, t.nonce);
      status := device.Commit(UnlinkPending);
      CommitWritesAre(sound, whole, d0, old(device.fuel), current, bindings, target, t, ops, op);
      r := if status == Done then Ok(saved.value) else Err(StatusError(status));
    }

    /** `_save_with_nonce_unlocked`: consume the nonce, then commit the record. */
    method SaveWithNonce(current: Record, bindings: Bindings, receipt: Receipt,
                         ghost ops: seq<Operation>, ghost phase: Phase, ghost op: Operation)
      returns (r: Result<Record>)
      requires ledger.device == device
      modifies this, device
      ensures Saves(old(device.disk), ops, phase, op, current, bindings, receipt) ==>
                var o := Run(old(device.disk), SaveWrites(ops, op), old(device.fuel));
                && device.disk == o.disk && device.fuel == o.fuel
                && r == if o.status == Done then Ok(RecordAt(ops + [op])) else Err(StatusError(o.status))
    {
      hide Inv, RecordAt, TransitionAt, Replayed, CommitWrites, Committable, Anchored, Intact, RequireReceipt,
           LoadTransition,
           InsertWrites, Contents, RootOf, InsertRoot, Fresh, Applied, ReceiptOf;
      ghost var d0, f0 := device.disk, device.fuel;
      ghost var sound := Saves(d0, ops, phase, op, current, bindings, receipt);
      if sound {
        SoundRoot(d0, ops, phase);
        NewNonceIsNoMember(d0, ops, phase, op);
        RecordFields(ops);
        EvidenceOutcome(d0, ops, phase, op, f0);
        RunConcat(d0, InsertWrites(RootOf(ops), ReceiptOf(op)), CommitWrites(ops, op), f0);
      }
      var insertion :- ledger.Insert(current.nonceRoot, current.nonceCount, receipt);
      var target := Record(current.sequence + 1, Some(current), bindings, insertion.newRoot, insertion.newCount);
      if sound {
        NewRecordIs(ops, op, target);
        SoundRoot(device.disk, ops, phase);
        assert Committable(device.disk, ops, phase, op) by { IsCommittable(device.disk, ops, phase, op); }
      }
      if device.disk.ready == None {
        return Err(ReadyMissing);
      }
      var anchor := device.disk.ready.value;
      var parent;
      if insertion.newCount == anchor.initialCount + 1 {
        parent := ReadyAnchor(anchor);
      } else {
        if insertion.newCount == 0 {
          return Err(TransitionInvalid);
        }
        if sound {
          CommittedHeadLoads(device.disk, ops, phase);
        }
        var previous :- LoadTransition(device.disk, insertion.newCount - 1);
        if previous == None {
          return Err(ChainBroken);
        }
        parent := Previous(previous.value);
      }
      var t := Transition(parent, current.sequence, current, insertion.oldRoot, insertion.oldCount,
                          target.sequence, target, insertion.newRoot, insertion.newCount, receipt.nonce, receipt);
      if sound {
        NewTransitionIs(ops, op, t);
      }
      r := CommitTransition(current, bindings, target, t, ops, phase, op);
    }

    /** A lifecycle method: check the arguments, load, finish an earlier commit, judge, save. */
    method Execute(op: Operation, gates: Gates, ghost ops: seq<Operation>, ghost phase: Phase)
      returns (r: Result<Record>)
      requires ledger.device == device
      modifies this, device
      ensures Inv(old(device.disk), ops, phase) ==>
                var plan := PlanFor(ops, phase, op, gates);
                var o := Run(old(device.disk), plan.writes, old(device.fuel));
                && device.disk == o.disk && device.fuel == o.fuel
                && r == if o.status == Done then plan.answer
                        else Err(if o.status == Crashed then MachineStopped else EvidenceConflict)
    {
      hide Inv, RecordAt, Replayed, Load, Reconcile, Lookup, Judge, Precheck, SaveWrites, RootOf, Contents, Applied,
           Commits, PlanFor, Run;
      var refusal := Precheck(op, gates);
      if refusal.Some? {
        RefusedPlan(ops, phase, op, gates, device.disk, device.fuel);
        return Err(Refused(refusal.value));
      }
      ghost var d0, f0 := device.disk, device.fuel;
      ghost var sound := Inv(d0, ops, phase);
      if sound {
        LoadReturnsCommitted(d0, ops, phase);
        ReconcileClearsCommitted(d0, ops, phase);
        RecordFields(ops);
        SplitPlan(d0, ops, phase, op, gates, f0);
        QuietPlan(ops, phase, op, gates);
        Unlinked(d0, f0);
      }
      var loaded :- Load(device.disk);
      if loaded == None {
        return Err(RegistryInvalid);
      }
      var current := loaded.value;
      var cleanup :- Reconcile(device.disk, current);
      if cleanup != [] {
        var status := device.Commit(UnlinkPending);
        if status != Done {
          return Err(StatusError(status));
        }
      }
      ghost var quiet := if phase == Cleanup then Idle else phase;
      assert sound ==> Inv(device.disk, ops, quiet);
      if sound {
        QuietLookup(device.disk, ops, quiet, op.nonce);
      }
      var verdict :- Judge(current.bindings, Lookup(device.disk, current.nonceRoot, op.nonce), op);
      match verdict
      case Unchanged =>
        r := Ok(current);
      case Commit(bindings) =>
        if sound {
          CommittingVerdict(device.disk, ops, quiet, op, gates, current, bindings);
        }
        if current.nonceCount >= MAX_NONCE_RECEIPTS {
          return Err(CapacityExhausted);
        }
        r := SaveWithNonce(current, bindings, ReceiptOf(op), ops, quiet, op);
    }

    /** Provision a blank machine once; an untouched registry is returned as it is. */
    method Initialize(confirmed: bool, ghost ops: seq<Operation>, ghost phase: Phase) returns (r: Result<Record>)
      requires ledger.device == device
      modifies this, device
      ensures !confirmed ==> r.Err? && device.disk == old(device.disk)
      ensures confirmed && old(device.disk) == BLANK ==>
                var o := Run(BLANK, INITIALIZE, old(device.fuel));
                && device.disk == o.disk && device.fuel == o.fuel
                && r == if o.status == Done then Ok(INITIAL) else Err(StatusError(o.status))
      ensures Inv(old(device.disk), ops, phase) ==>
                device.disk == old(device.disk) && (r.Ok? <==> confirmed && ops == [])
    {
      hide Inv, RecordAt, Replayed, Load;
      if Inv(device.disk, ops, phase) {
        SoundRoot(device.disk, ops, phase);
      }
      if !confirmed || device.disk.reserved {
        return Err(RegistryInvalid);
      }
      if Inv(device.disk, ops, phase) {
        LoadReturnsCommitted(device.disk, ops, phase);
        RecordFields(ops);
        BlankIsNoRegistry(ops, phase);
      }
      InitializationIsAllOrRefused(0);
      InitializationWrites(device.fuel);
      var loaded :- Load(device.disk);
      if loaded.Some? {
        if loaded.value.sequence == 1 && loaded.value.bindings == map[] {
          return Ok(loaded.value);
        }
        return Err(RegistryInvalid);
      }
      ghost var f0 := device.fuel;
      var status := device.Commit(CreateLineage);
      if status != Done {
        return Err(StatusError(status));
      }
      status := device.Commit(CreateReady(READY));
      if status != Done {
        return Err(StatusError(status));
      }
      nextNonceAnchor := Some((EmptyRoot, 0));
      var saved := SaveUnlocked(None, map[]);
      nextNonceAnchor := None;
      if saved.Err? {
        return saved;
      }
      if old(device.disk) == BLANK {
        InitializationIsAllOrRefused(f0);
        LoadReturnsCommitted(device.disk, [], Idle);
        InitialRecord();
      }
      var durable :- Load(device.disk);
      if durable != Some(saved.value) {
        return Err(RevalidationFailed);
      }
      r := Ok(durable.value);
    }
  }
}
