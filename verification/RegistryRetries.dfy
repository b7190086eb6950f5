/** Exact retries after crashes: however often a request stops, and whoever else is refused in
    between, retrying it reaches the record it was to commit. */
module RegistryRetries {
  import opened Wrappers
  import opened Operations
  import opened NonceTrie
  import opened Storage
  import opened NonceLedger
  import opened RegistryRecords
  import opened RegistryFiles
  import opened RegistryCommit
  import opened RegistryRuns

  /** With enough fuel, the request run from `d` answers with the record it was to commit
      and leaves that record current and nothing announced. */
  ghost predicate Completes(d: Disk, ops: seq<Operation>, phase: Phase, op: Operation, gates: Gates, fuel: nat,
                            committed: seq<Operation>) {
    && PlanFor(ops, phase, op, gates).answer == Ok(RecordAt(committed))
    && (fuel >= |PlanFor(ops, phase, op, gates).writes| ==>
          var o := DiskAfter(d, ops, phase, op, gates, fuel);
          && o.status == Done
          && Inv(o.disk, committed, Idle)
          && o.disk.current == Some(RecordAt(committed))
          && o.disk.pending == None)
  }

  /** The request can commit: it is admitted, and no other receipt sits at its nonce. */
  ghost predicate CanCommit(ops: seq<Operation>, op: Operation) {
    && VerdictFor(ops, op).Ok? && VerdictFor(ops, op).value.Commit?
    && |ops| < MAX_NONCE_RECEIPTS && !RetiresTwice(Replayed(ops), op)
  }

  /** How far a request has come: not committed, with nothing or itself announced, or committed
      with at most its own cleanup left. */
  ghost predicate UnderWay(d: Disk, before: seq<Operation>, op: Operation, ops: seq<Operation>, phase: Phase) {
    && Inv(d, ops, phase)
    && if ops == before then (phase == Cleanup || NotAnother(phase, op)) && !ReceiptConflicts(d, op)
       else ops == before + [op] && (phase == Idle || phase == Cleanup)
  }

  lemma GatedCommit(ops: seq<Operation>, op: Operation, gates: Gates)
    ensures Commits(ops, op, gates) && !RetiresTwice(Replayed(ops), op) <==>
              Precheck(op, gates) == None && CanCommit(ops, op)
    ensures Commits(ops, op, gates) ==> Precheck(op, gates) == None
  {
    hide VerdictFor, RetiresTwice, Replayed, Precheck;
  }

  lemma PrecheckedPlan(ops: seq<Operation>, phase: Phase, op: Operation, gates: Gates)
    requires Precheck(op, gates).Some?
    ensures PlanFor(ops, phase, op, gates).writes == []
  {
    hide VerdictFor, SaveWrites, Precheck;
  }

  lemma NothingWritten(d: Disk, ops: seq<Operation>, phase: Phase, op: Operation, gates: Gates, fuel: nat)
    requires PlanFor(ops, phase, op, gates).writes == []
    ensures DiskAfter(d, ops, phase, op, gates, fuel).disk == d
  {
    hide PlanFor;
  }

  /** An exact retry, stopped anywhere, only ever brings the request further. */
  lemma {:induction false} RetryKeepsUnderWay(d: Disk, before: seq<Operation>, op: Operation, ops: seq<Operation>,
                                              phase: Phase, gates: Gates, fuel: nat)
    returns (ops': seq<Operation>, phase': Phase)
    requires UnderWay(d, before, op, ops, phase) && CanCommit(before, op)
    ensures UnderWay(DiskAfter(d, ops, phase, op, gates, fuel).disk, before, op, ops', phase')
  {
    hide *;
    UnderWayParts(d, before, op, ops, phase);
    GatedCommit(before, op, gates);
    if Precheck(op, gates).Some? {
      PrecheckedPlan(ops, phase, op, gates);
      NothingWritten(d, ops, phase, op, gates, fuel);
      return ops, phase;
    }
    if ops != before {
      phase' := RecognisedAgain(d, before, phase, op, gates, fuel);
      return ops, phase';
    }
    if phase == Cleanup {
      if fuel == 0 {
        NoFuel(d, ops, phase, op, gates);
        return ops, phase;
      }
      CleanedUp(d, ops, op, gates, fuel);
      SameReceipts(d, op);
      ops', phase' := Stopped(d.(pending := None), ops, Idle, op, gates, fuel - 1);
    } else {
      ops', phase' := Stopped(d, ops, phase, op, gates, fuel);
    }
  }

  lemma NoFuel(d: Disk, ops: seq<Operation>, phase: Phase, op: Operation, gates: Gates)
    ensures DiskAfter(d, ops, phase, op, gates, 0).disk == d
  {
    hide PlanFor;
  }

  lemma UnderWayParts(d: Disk, before: seq<Operation>, op: Operation, ops: seq<Operation>, phase: Phase)
    requires UnderWay(d, before, op, ops, phase)
    ensures Inv(d, ops, phase) && NotAnother(Idle, op)
    ensures ops == before ==> (phase == Cleanup || NotAnother(phase, op)) && !ReceiptConflicts(d, op)
    ensures ops != before ==> ops == before + [op] && (phase == Idle || phase == Cleanup)
  {
    hide Inv, ReceiptConflicts;
  }

  /** Where a request stops that has not committed yet. */
  lemma Stopped(d: Disk, ops: seq<Operation>, phase: Phase, op: Operation, gates: Gates, fuel: nat)
    returns (ops': seq<Operation>, phase': Phase)
    requires Inv(d, ops, phase) && NotAnother(phase, op) && Commits(ops, op, gates)
    requires !RetiresTwice(Replayed(ops), op) && !ReceiptConflicts(d, op)
    ensures UnderWay(DiskAfter(d, ops, phase, op, gates, fuel).disk, ops, op, ops', phase')
  {
    hide Inv, Commits, RecordAt, RetiresTwice, SaveWrites, CommitDepth, ReceiptConflicts, PlanFor, History,
         Admitted, DecodableBindings, Replayed;
    CommittingPlan(ops, phase, op, gates);
    HistoryUnderInv(d, ops, phase);
    CommitExtendsHistory(ops, op, gates);
    SaveSurvivesCrash(d, ops, phase, op, fuel);
    var after := AfterWrites(ops, phase, op, CommitDepth(ops, op, fuel));
    ops', phase' := after.0, after.1;
  }

  /** A committed request, seen again, at most finishes its cleanup. */
  lemma RecognisedAgain(d: Disk, before: seq<Operation>, phase: Phase, op: Operation, gates: Gates, fuel: nat)
    returns (phase': Phase)
    requires Inv(d, before + [op], phase) && (phase == Idle || phase == Cleanup) && Precheck(op, gates) == None
    ensures UnderWay(DiskAfter(d, before + [op], phase, op, gates, fuel).disk, before, op, before + [op], phase')
  {
    hide *;
    HistoryUnderInv(d, before + [op], phase);
    CommittedRequestIsAnswered(before, phase, op, gates);
    phase' := phase;
    if phase == Idle || fuel == 0 {
      if phase == Idle {
        NothingWritten(d, before + [op], phase, op, gates, fuel);
      } else {
        NoFuel(d, before + [op], phase, op, gates);
      }
      StillCommitted(d, before, op, phase);
    } else {
      CleanedUp(d, before + [op], op, gates, fuel);
      CommittedRequestIsAnswered(before, Idle, op, gates);
      NothingWritten(d.(pending := None), before + [op], Idle, op, gates, fuel - 1);
      phase' := Idle;
      StillCommitted(d.(pending := None), before, op, phase');
    }
  }

  lemma StillCommitted(d: Disk, before: seq<Operation>, op: Operation, phase: Phase)
    requires Inv(d, before + [op], phase) && (phase == Idle || phase == Cleanup)
    ensures UnderWay(d, before, op, before + [op], phase)
  {
    hide Inv, ReceiptConflicts;
    assert |before + [op]| != |before|;
  }

  /** A request that is under way completes with enough fuel. */
  lemma {:induction false} UnderWayCompletes(d: Disk, before: seq<Operation>, op: Operation, ops: seq<Operation>,
                                             phase: Phase, gates: Gates, fuel: nat)
    requires UnderWay(d, before, op, ops, phase) && CanCommit(before, op) && Precheck(op, gates) == None
    ensures Completes(d, ops, phase, op, gates, fuel, before + [op])
  {
    hide *;
    UnderWayParts(d, before, op, ops, phase);
    GatedCommit(before, op, gates);
    HistoryUnderInv(d, ops, phase);
    if ops != before {
      RetryIsRecognised(d, before, phase, op, gates, fuel);
    } else if phase == Cleanup {
      if fuel > 0 {
        CleanedUp(d, ops, op, gates, fuel);
        SameReceipts(d, op);
        ResumesExtending(d.(pending := None), ops, Idle, op, gates, fuel - 1);
      }
      ResumesAfterCleanup(d, ops, op, gates, fuel);
    } else {
      ResumesExtending(d, ops, phase, op, gates, fuel);
    }
  }

  lemma ResumesExtending(d: Disk, ops: seq<Operation>, phase: Phase, op: Operation, gates: Gates, fuel: nat)
    requires Inv(d, ops, phase) && NotAnother(phase, op)
    requires Commits(ops, op, gates) && !RetiresTwice(Replayed(ops), op) && !ReceiptConflicts(d, op)
    ensures Completes(d, ops, phase, op, gates, fuel, ops + [op])
  {
    hide *;
    HistoryUnderInv(d, ops, phase);
    CommitExtendsHistory(ops, op, gates);
    RetryResumes(d, ops, phase, op, gates, fuel);
  }

  lemma ResumesAfterCleanup(d: Disk, ops: seq<Operation>, op: Operation, gates: Gates, fuel: nat)
    requires Commits(ops, op, gates)
    requires fuel > 0 ==>
               && DiskAfter(d, ops, Cleanup, op, gates, fuel)
                  == DiskAfter(d.(pending := None), ops, Idle, op, gates, fuel - 1)
               && Completes(d.(pending := None), ops, Idle, op, gates, fuel - 1, ops + [op])
    ensures Completes(d, ops, Cleanup, op, gates, fuel, ops + [op])
  {
    hide PlanFor, DiskAfter, Inv, RecordAt, Commits;
    CommitsPrecheck(ops, op, gates);
    CleanupIsPrepended(ops, op, gates);
    CommittingPlan(ops, Idle, op, gates);
  }

  lemma RetryResumes(d: Disk, ops: seq<Operation>, phase: Phase, op: Operation, gates: Gates, fuel: nat)
    requires Inv(d, ops, phase) && NotAnother(phase, op) && History(ops + [op])
    requires Commits(ops, op, gates) && !ReceiptConflicts(d, op)
    ensures Completes(d, ops, phase, op, gates, fuel, ops + [op])
  {
    hide Inv, Commits, RecordAt, SaveWrites, CommitDepth, ReceiptConflicts, PlanFor, History;
    CommittingPlan(ops, phase, op, gates);
    SaveSurvivesCrash(d, ops, phase, op, fuel);
    DepthWhenDone(ops, op, fuel);
    if fuel >= |SaveWrites(ops, op)| {
      CurrentUnderInv(DiskAfter(d, ops, phase, op, gates, fuel).disk, ops + [op]);
    }
  }

  lemma RetryIsRecognised(d: Disk, ops: seq<Operation>, phase: Phase, op: Operation, gates: Gates, fuel: nat)
    requires Inv(d, ops + [op], phase) && (phase == Idle || phase == Cleanup)
    requires History(ops + [op]) && Precheck(op, gates) == None
    ensures Completes(d, ops + [op], phase, op, gates, fuel, ops + [op])
  {
    hide Inv, RecordAt, PlanFor, History;
    CommittedRequestIsAnswered(ops, phase, op, gates);
    if phase == Idle {
      CurrentUnderInv(d, ops + [op]);
    } else if fuel > 0 {
      assert [UnlinkPending] + [] == [UnlinkPending];
      CleanupFirst(d, ops + [op], [], fuel);
      CurrentUnderInv(d.(pending := None), ops + [op]);
    }
  }

  /** Retrying a crashed request exactly, from wherever it stopped, reaches the record the
      request was to commit and clears its announcement. */
  lemma {:induction false} ExactRetryCompletes(d: Disk, ops: seq<Operation>, phase: Phase, op: Operation, gates: Gates,
                                               fuel: nat, retryFuel: nat)
    returns (ops1: seq<Operation>, phase1: Phase)
    requires Inv(d, ops, phase) && (phase == Cleanup || NotAnother(phase, op)) && Commits(ops, op, gates)
    requires !RetiresTwice(Replayed(ops), op) && !ReceiptConflicts(d, op)
    ensures var crashed := DiskAfter(d, ops, phase, op, gates, fuel).disk;
            Inv(crashed, ops1, phase1) && Completes(crashed, ops1, phase1, op, gates, retryFuel, ops + [op])
  {
    hide Inv, Commits, RetiresTwice, ReceiptConflicts, DiskAfter, CanCommit, Completes;
    GatedCommit(ops, op, gates);
    var crashed := DiskAfter(d, ops, phase, op, gates, fuel).disk;
    ops1, phase1 := RetryKeepsUnderWay(d, ops, op, ops, phase, gates, fuel);
    UnderWayCompletes(crashed, ops, op, ops1, phase1, gates, retryFuel);
  }

  // ---- Any number of crashes ----

  /** Consecutive disks of attempts at one operation: each is an exact retry, under any gates,
      or another request that comes while the operation is announced. Any of them may stop
      anywhere. */
  ghost predicate Attempts(disks: seq<Disk>, requests: seq<Request>, op: Operation) {
    && |disks| == |requests| + 1
    && forall i | 0 <= i < |requests| :: Attempt(disks[i], disks[i + 1], requests[i], op)
  }

  ghost predicate Attempt(d: Disk, after: Disk, r: Request, op: Operation) {
    exists ops, phase ::
      && Inv(d, ops, phase)
      && (r.op == op || phase == Prepared(op) || phase == Linked(op))
      && after == DiskAfter(d, ops, phase, r.op, r.gates, r.fuel).disk
  }

  /** An announced operation already has its receipt, so nobody else can take its nonce. */
  lemma AnnouncedKeepsItsReceipt(d: Disk, after: Disk, ops: seq<Operation>, phase: Phase)
    requires Inv(d, ops, phase) && (phase.Prepared? || phase.Linked?) && EvidenceGrew(d, after)
    ensures !ReceiptConflicts(after, phase.op)
  {
    hide History, RootOf, TransitionAt, RecordAt, ChainStored, PreviousIs, PendingIs, Intact, Contents;
    var all := ops + [phase.op];
    assert all == Announced(ops, phase) && all[..|all|] == all;
    assert Anchored(d, RootOf(all));
    RootHoldsHistory(all);
    assert phase.op in all by { assert all[|ops|] == phase.op; }
  }

  /** Every attempt leaves the request under way. */
  lemma {:induction false} AttemptKeepsUnderWay(d: Disk, after: Disk, r: Request, before: seq<Operation>,
                                                op: Operation, ops: seq<Operation>, phase: Phase)
    returns (ops': seq<Operation>, phase': Phase)
    requires Attempt(d, after, r, op) && UnderWay(d, before, op, ops, phase) && CanCommit(before, op)
    ensures UnderWay(after, before, op, ops', phase')
  {
    hide *;
    UnderWayParts(d, before, op, ops, phase);
    AttemptFrom(d, after, r, op, ops, phase);
    if r.op == op {
      ops', phase' := RetryKeepsUnderWay(d, before, op, ops, phase, r.gates, r.fuel);
    } else {
      OthersAreRefusedWhilePending(d, ops, phase, r.op, r.gates, r.fuel);
      AnnouncedKeepsItsReceipt(d, after, ops, phase);
      ops', phase' := ops, phase;
      StillUnderWay(d, after, before, op, ops, phase);
    }
  }

  lemma AttemptFrom(d: Disk, after: Disk, r: Request, op: Operation, ops: seq<Operation>, phase: Phase)
    requires Attempt(d, after, r, op) && Inv(d, ops, phase)
    ensures after == DiskAfter(d, ops, phase, r.op, r.gates, r.fuel).disk
    ensures r.op == op || phase == Prepared(op) || phase == Linked(op)
  {
    hide Inv, DiskAfter;
    var o, p :| Inv(d, o, p) && (r.op == op || p == Prepared(op) || p == Linked(op))
                && after == DiskAfter(d, o, p, r.op, r.gates, r.fuel).disk;
    HistoryIsDetermined(d, ops, phase, o, p);
  }

  lemma StillUnderWay(d: Disk, after: Disk, before: seq<Operation>, op: Operation, ops: seq<Operation>, phase: Phase)
    requires UnderWay(d, before, op, ops, phase) && Inv(after, ops, phase)
    requires (phase == Prepared(op) || phase == Linked(op)) && !ReceiptConflicts(after, op)
    ensures UnderWay(after, before, op, ops, phase)
  {
    hide Inv, ReceiptConflicts;
  }

  /** However many attempts were made and wherever each stopped, one more exact retry with
      enough fuel commits the operation once, and only it, and clears its announcement. */
  lemma {:induction false} RetriesComplete(disks: seq<Disk>, requests: seq<Request>, before: seq<Operation>,
                                           op: Operation, ops: seq<Operation>, phase: Phase, gates: Gates, fuel: nat)
    returns (ops': seq<Operation>, phase': Phase)
    requires Attempts(disks, requests, op) && UnderWay(disks[0], before, op, ops, phase)
    requires CanCommit(before, op) && Precheck(op, gates) == None
    ensures var last := disks[|requests|];
            && UnderWay(last, before, op, ops', phase')
            && Completes(last, ops', phase', op, gates, fuel, before + [op])
    decreases |requests|
  {
    hide UnderWay, CanCommit, Completes, Attempt, Precheck;
    if requests == [] {
      ops', phase' := ops, phase;
      UnderWayCompletes(disks[0], before, op, ops, phase, gates, fuel);
    } else {
      var next, phaseNext := AttemptKeepsUnderWay(disks[0], disks[1], requests[0], before, op, ops, phase);
      assert Attempts(disks[1..], requests[1..], op);
      ops', phase' := RetriesComplete(disks[1..], requests[1..], before, op, next, phaseNext, gates, fuel);
    }
  }
}
