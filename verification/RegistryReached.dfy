/** Every history is the history of a run: from the disk that provisioning leaves, its operations
    can be requested one after the other, and the two cases the guards leave open are reached. */
module RegistryReached {
  import opened Wrappers
  import opened HexBits
  import opened Operations
  import opened NonceTrie
  import opened Storage
  import opened NonceLedger
  import opened RegistryRecords
  import opened RegistryFiles
  import opened RegistryCommit
  import opened RegistryRuns
  import opened RegistryWitnesses

  /** Every mechanical gate of a transfer is open. */
  const OPEN: Gates := Gates(true, true, true, true, true, true)

  /** The disk that provisioning leaves. */
  function Provisioned(): Disk {
    Run(BLANK, INITIALIZE, 3).disk
  }

  /** A transfer is asked for with a reason that passes its checks. */
  predicate Requestable(op: Operation) {
    op.OpTransfer? ==> ReasonValid(op.reason)
  }

  /** Only committed operations have receipts on the disk. */
  ghost predicate OnlyItsReceipts(d: Disk, ops: seq<Operation>) {
    forall k | k in d.receipts :: !Fresh(ops, k)
  }

  /** A run of requests that commits exactly these operations, in order. */
  ghost predicate Reaches(disks: seq<Disk>, requests: seq<Request>, ops: seq<Operation>) {
    && IsRun(disks, requests) && disks[0] == Provisioned()
    && Inv(disks[|requests|], ops, Idle) && OnlyItsReceipts(disks[|requests|], ops)
    && |requests| == |ops| && forall i | 0 <= i < |ops| :: requests[i].op == ops[i]
  }

  // ---- One request ----

  lemma AdmittedPassesItsChecks(bindings: Bindings, op: Operation)
    requires Admitted(bindings, op) && Requestable(op)
    ensures Precheck(op, OPEN) == None
  {
    hide ReasonValid, IsRetired, RuntimeTaken;
  }

  /** A fresh, admitted operation commits when it is asked for. */
  lemma AdmittedCommits(ops: seq<Operation>, op: Operation)
    requires History(ops) && |ops| < MAX_NONCE_RECEIPTS && Fresh(ops, op.nonce)
    requires Admitted(Replayed(ops), op) && Requestable(op)
    ensures Commits(ops, op, OPEN)
  {
    hide *;
    AdmittedPassesItsChecks(Replayed(ops), op);
    RootHoldsHistory(ops);
    FreshIsNotMember(RootOf(ops), ops, op.nonce);
    JudgeCommitsTheAdmitted(Replayed(ops), op, OPEN);
    UnusedVerdict(ops, op);
  }

  lemma UnusedVerdict(ops: seq<Operation>, op: Operation)
    requires op.nonce !in Contents(RootOf(ops)) && |ops| < MAX_NONCE_RECEIPTS && Precheck(op, OPEN) == None
    requires Judge(Replayed(ops), Ok(None), op) == Ok(Commit(Applied(Replayed(ops), op)))
    ensures Commits(ops, op, OPEN)
  {
    hide Judge, Contents, RootOf, Replayed, Precheck, Applied;
  }

  lemma NothingConflicts(d: Disk, ops: seq<Operation>, op: Operation)
    requires OnlyItsReceipts(d, ops) && Fresh(ops, op.nonce)
    ensures !ReceiptConflicts(d, op)
  {
    hide Fresh;
  }

  /** Writes that create no receipt but this one add no other. */
  lemma {:induction false} RunAddsOneReceipt(d: Disk, writes: seq<Write>, nonce: Sha, fuel: nat)
    requires forall w | w in writes && w.CreateReceipt? :: w.receipt.nonce == nonce
    ensures Run(d, writes, fuel).disk.receipts.Keys <= d.receipts.Keys + {nonce}
    decreases |writes|
  {
    if writes != [] && fuel > 0 && Perform(d, writes[0]).Some? {
      assert writes[0] in writes;
      PerformAddsOneReceipt(d, writes[0], nonce);
      hide Perform;
      forall w | w in writes[1..] && w.CreateReceipt?
        ensures w.receipt.nonce == nonce
      {
        assert w in writes;
      }
      RunAddsOneReceipt(Perform(d, writes[0]).value, writes[1..], nonce, fuel - 1);
    }
  }

  lemma PerformAddsOneReceipt(d: Disk, w: Write, nonce: Sha)
    requires Perform(d, w).Some? && (w.CreateReceipt? ==> w.receipt.nonce == nonce)
    ensures Perform(d, w).value.receipts.Keys <= d.receipts.Keys + {nonce}
  {
  }

  lemma SaveCreatesOneReceipt(ops: seq<Operation>, op: Operation)
    ensures forall w | w in SaveWrites(ops, op) && w.CreateReceipt? :: w.receipt.nonce == op.nonce
  {
    var evidence := InsertWrites(RootOf(ops), ReceiptOf(op));
    FiveCommitWrites(ops, op);
    InsertWritesAreEvidence(RootOf(ops), ReceiptOf(op));
    assert evidence[0] == CreateReceipt(ReceiptOf(op));
    hide InsertWrites, CommitWrites, RootOf;
    forall w | w in SaveWrites(ops, op) && w.CreateReceipt?
      ensures w.receipt.nonce == op.nonce
    {
      assert w in evidence;
      assert w !in evidence[1..];
      assert evidence == [evidence[0]] + evidence[1..];
    }
  }

  /** The committed request leaves its own receipt and no other. */
  lemma StillItsReceipts(d: Disk, after: Disk, ops: seq<Operation>, op: Operation)
    requires OnlyItsReceipts(d, ops) && after.receipts.Keys <= d.receipts.Keys + {op.nonce}
    ensures OnlyItsReceipts(after, ops + [op])
  {
    forall k | k in after.receipts
      ensures !Fresh(ops + [op], k)
    {
      if k == op.nonce {
        assert op in ops + [op];
      } else {
        var o :| o in ops && o.nonce == k;
        assert o in ops + [op];
      }
    }
  }

  /** From an idle registry a request for an admitted operation commits it. */
  lemma CommitNext(d: Disk, ops: seq<Operation>, op: Operation) returns (r: Request, after: Disk)
    requires Inv(d, ops, Idle) && OnlyItsReceipts(d, ops) && Requestable(op) && History(ops + [op])
    ensures r.op == op && Step(d, after, r)
    ensures Inv(after, ops + [op], Idle) && OnlyItsReceipts(after, ops + [op])
  {
    hide *;
    FrontAndLast(ops, op);
    HistoryEnds(ops + [op]);
    AdmittedCommits(ops, op);
    NothingConflicts(d, ops, op);
    var fuel := |PlanFor(ops, Idle, op, OPEN).writes|;
    r := Request(op, OPEN, fuel);
    after := DiskAfter(d, ops, Idle, op, OPEN, fuel).disk;
    IdleIsFree(op);
    CommittedRecordReloads(d, ops, Idle, op, OPEN, fuel);
    var next, phase := RequestKeepsInvariant(d, ops, Idle, op, OPEN, fuel);
    CommittingPlan(ops, Idle, op, OPEN);
    SaveCreatesOneReceipt(ops, op);
    RunAddsOneReceipt(d, SaveWrites(ops, op), op.nonce, fuel);
    RunOfPlan(d, ops, Idle, op, OPEN, fuel);
    StillItsReceipts(d, after, ops, op);
    StepOf(d, ops, Idle, r);
  }

  lemma IdleIsFree(op: Operation)
    ensures NotAnother(Idle, op)
  {
  }

  lemma RunOfPlan(d: Disk, ops: seq<Operation>, phase: Phase, op: Operation, gates: Gates, fuel: nat)
    ensures DiskAfter(d, ops, phase, op, gates, fuel) == Run(d, PlanFor(ops, phase, op, gates).writes, fuel)
  {
    hide PlanFor, Run;
  }

  lemma StepOf(d: Disk, ops: seq<Operation>, phase: Phase, r: Request)
    requires Inv(d, ops, phase) && !(Commits(ops, r.op, r.gates) && RetiresTwice(Replayed(ops), r.op))
    ensures Step(d, DiskAfter(d, ops, phase, r.op, r.gates, r.fuel).disk, r)
  {
    hide Inv, Commits, RetiresTwice, Replayed, DiskAfter;
  }

  // ---- Whole histories ----

  /** Every history whose transfers give a valid reason is reached by asking for its operations
      one after the other. */
  lemma {:induction false} HistoriesAreReached(ops: seq<Operation>)
    returns (disks: seq<Disk>, requests: seq<Request>)
    requires History(ops) && forall op | op in ops :: Requestable(op)
    ensures Reaches(disks, requests, ops)
    decreases |ops|
  {
    hide *;
    if ops == [] {
      disks, requests := [Provisioned()], [];
      NothingAsked();
    } else {
      var front, op := Front(ops), Last(ops);
      HistoryEnds(ops);
      FrontIsRequestable(ops);
      disks, requests := HistoriesAreReached(front);
      ReachesParts(disks, requests, front);
      var r, after := CommitNext(disks[|requests|], front, op);
      ReachesNext(disks, requests, front, r, after, op);
      disks, requests := disks + [after], requests + [r];
    }
  }

  lemma NothingAsked()
    ensures Reaches([Provisioned()], [], [])
  {
    InitializationIsAllOrRefused(3);
    assert Provisioned().receipts == map[] by {
      InitializationKeepsReceipts();
    }
    hide Inv, Run;
  }

  lemma InitializationKeepsReceipts()
    ensures Run(BLANK, INITIALIZE, 3).disk.receipts == map[]
  {
    OtherWritesKeepReceipts(BLANK, INITIALIZE, 3);
  }

  lemma FrontIsRequestable(ops: seq<Operation>)
    requires ops != [] && forall op | op in ops :: Requestable(op)
    ensures |Front(ops)| < |ops| && Requestable(Last(ops)) && forall op | op in Front(ops) :: Requestable(op)
  {
    hide Requestable;
    assert Last(ops) in ops && forall op | op in Front(ops) :: op in ops;
  }

  lemma ReachesParts(disks: seq<Disk>, requests: seq<Request>, ops: seq<Operation>)
    requires Reaches(disks, requests, ops)
    ensures |disks| == |requests| + 1
    ensures Inv(disks[|requests|], ops, Idle) && OnlyItsReceipts(disks[|requests|], ops)
    ensures IsRun(disks, requests) && disks[0] == Provisioned()
  {
    hide Inv, OnlyItsReceipts, Step, Provisioned;
  }

  lemma ReachesNext(disks: seq<Disk>, requests: seq<Request>, ops: seq<Operation>, r: Request, after: Disk,
                    op: Operation)
    requires Reaches(disks, requests, ops) && r.op == op && Step(disks[|requests|], after, r)
    requires Inv(after, ops + [op], Idle) && OnlyItsReceipts(after, ops + [op])
    ensures Reaches(disks + [after], requests + [r], ops + [op])
  {
    hide Inv, OnlyItsReceipts, Step, Provisioned;
  }

  // ---- The two open cases ----

  /** A run of five requests, on any different identities, whose last one is answered and leaves a
      record that no load accepts. */
  lemma {:induction false} UnloadableRecordIsReached(a: Sha, b: Sha, r: Runtime, e: seq<Sha>, n: seq<Sha>)
    returns (disks: seq<Disk>, requests: seq<Request>, last: Outcome)
    requires a != b && |e| == 4 && NoDuplicates(e) && |n| == 5 && NoDuplicates(n)
    ensures var ops := [OpBind(n[0], a, r, e[0]), OpSwitch(n[1], a, b, r, e[0], e[1]),
                        OpSwitch(n[2], b, a, r, e[1], e[2]), OpAdvance(n[3], a, r, e[2], e[0])];
            var op := OpSwitch(n[4], a, b, r, e[0], e[3]);
            && Reaches(disks, requests, ops)
            && last == DiskAfter(disks[4], ops, Idle, op, OPEN, |PlanFor(ops, Idle, op, OPEN).writes|)
            && last.status == Done && last.disk.current == Some(RecordAt(ops + [op])) && Load(last.disk).Err?
  {
    hide *;
    var ops := [OpBind(n[0], a, r, e[0]), OpSwitch(n[1], a, b, r, e[0], e[1]),
                OpSwitch(n[2], b, a, r, e[1], e[2]), OpAdvance(n[3], a, r, e[2], e[0])];
    var op := OpSwitch(n[4], a, b, r, e[0], e[3]);
    RetiredLineageCanReturn(a, b, r, e, n);
    NoTransfers(ops + [op]);
    disks, requests := HistoriesAreReached(ops);
    ReachesParts(disks, requests, ops);
    LengthReached(disks, requests, ops);
    RoomIsLeft(ops);
    AdmittedCommits(ops, op);
    NothingConflicts(disks[4], ops, op);
    IdleIsFree(op);
    var fuel := |PlanFor(ops, Idle, op, OPEN).writes|;
    last := DiskAfter(disks[4], ops, Idle, op, OPEN, fuel);
    CommittedRecordReloads(disks[4], ops, Idle, op, OPEN, fuel);
  }

  lemma NoTransfers(ops: seq<Operation>)
    requires forall op | op in ops :: !op.OpTransfer?
    ensures forall op | op in ops :: Requestable(op)
  {
  }

  lemma RoomIsLeft(ops: seq<Operation>)
    requires |ops| < 10
    ensures |ops| < MAX_NONCE_RECEIPTS
  {
  }

  lemma LengthReached(disks: seq<Disk>, requests: seq<Request>, ops: seq<Operation>)
    requires Reaches(disks, requests, ops)
    ensures |requests| == |ops|
  {
    hide IsRun, Inv, OnlyItsReceipts;
  }

  /** A run of three requests after which two accounts are bound to one runtime. */
  lemma {:induction false} SharedRuntimeIsReached(a: Sha, b: Sha, r: Runtime, s: Runtime, e: Sha, f: Sha,
                                                  reason: string, n: seq<Sha>)
    returns (disks: seq<Disk>, requests: seq<Request>)
    requires a != b && r != s && e != f && |n| == 3 && NoDuplicates(n) && ReasonValid(reason)
    ensures IsRun(disks, requests) && |requests| == 3 && disks[0] == Provisioned()
    ensures Load(disks[3]).Ok? && Load(disks[3]).value.Some?
    ensures !OneAccountPerRuntime(Load(disks[3]).value.value.bindings)
  {
    hide *;
    var ops := [OpBind(n[0], a, r, e), OpBind(n[1], b, s, e)];
    var op := OpTransfer(n[2], a, r, s, e, f, reason);
    TransferCanShareRuntime(a, b, r, s, e, f, reason, n);
    OneTransfer(ops, op);
    disks, requests := HistoriesAreReached(ops + [op]);
    ReachesParts(disks, requests, ops + [op]);
    LengthReached(disks, requests, ops + [op]);
    LoadReturnsCommitted(disks[3], ops + [op], Idle);
    RecordFields(ops + [op]);
  }

  lemma OneTransfer(ops: seq<Operation>, op: Operation)
    requires (forall o | o in ops :: !o.OpTransfer?) && op.OpTransfer? && ReasonValid(op.reason)
    ensures forall o | o in ops + [op] :: Requestable(o)
  {
    hide ReasonValid;
  }
}
