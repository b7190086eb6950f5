/** Whole requests against the registry, and runs of requests each of which may stop the
    machine before any of its durable writes. */
module RegistryRuns {
  import opened Wrappers
  import opened HexBits
  import opened Operations
  import opened NonceTrie
  import opened Storage
  import opened NonceLedger
  import opened RegistryRecords
  import opened RegistryFiles
  import opened RegistryCommit

  /** The durable writes of one request, and its answer once they are all made. */
  datatype Plan = Plan(writes: seq<Write>, answer: Result<Record>)

  ghost function Member(root: Hash, nonce: Sha): Option<Receipt> {
    if nonce in Contents(root) then Some(Contents(root)[nonce]) else None
  }

  ghost function VerdictFor(ops: seq<Operation>, op: Operation): Result<Verdict> {
    Judge(Replayed(ops), Ok(Member(RootOf(ops), op.nonce)), op)
  }

  /** What a lifecycle method does with a request, given the committed history. */
  ghost function PlanFor(ops: seq<Operation>, phase: Phase, op: Operation, gates: Gates): Plan {
    var cleanup := if phase == Cleanup then [UnlinkPending] else [];
    if Precheck(op, gates).Some? then Plan([], Err(Refused(Precheck(op, gates).value)))
    else match VerdictFor(ops, op)
      case Err(e) => Plan(cleanup, Err(e))
      case Ok(Unchanged) => Plan(cleanup, Ok(RecordAt(ops)))
      case Ok(Commit(_)) =>
        if |ops| >= MAX_NONCE_RECEIPTS then Plan(cleanup, Err(CapacityExhausted))
        else Plan(cleanup + SaveWrites(ops, op), Ok(RecordAt(ops + [op])))
  }

  /** The request is new, passes every guard, and there is room for its nonce. */
  ghost predicate Commits(ops: seq<Operation>, op: Operation, gates: Gates) {
    && Precheck(op, gates) == None
    && VerdictFor(ops, op).Ok? && VerdictFor(ops, op).value.Commit?
    && |ops| < MAX_NONCE_RECEIPTS
  }

  /** A committing request has a fresh nonce and extends the history, unless it retires a
      lineage twice. */
  lemma CommitExtendsHistory(ops: seq<Operation>, op: Operation, gates: Gates)
    requires History(ops) && Commits(ops, op, gates)
    ensures Fresh(ops, op.nonce) && Admitted(Replayed(ops), op)
    ensures History(ops + [op]) <==> !RetiresTwice(Replayed(ops), op)
    ensures DecodableBindings(Replayed(ops + [op])) <==> !RetiresTwice(Replayed(ops), op)
  {
    hide *;
    RootHoldsHistory(ops);
    HistoryIsConsistent(ops);
    CommitIsNoMember(ops, op, gates);
    NotMemberIsFresh(RootOf(ops), ops, op.nonce);
    JudgeCommitsTheAdmitted(Replayed(ops), op, gates);
    FreshIsUnused(ops, op.nonce);
    AdmittedOperationDecodes(Replayed(ops), ops, op);
    HistoryExtends(ops, op);
  }

  /** What commits found no receipt under the root. */
  lemma CommitIsNoMember(ops: seq<Operation>, op: Operation, gates: Gates)
    requires Commits(ops, op, gates)
    ensures op.nonce !in Contents(RootOf(ops)) && Judge(Replayed(ops), Ok(None), op).Ok?
    ensures Precheck(op, gates) == None && |ops| < MAX_NONCE_RECEIPTS
  {
    hide Judge, Contents, RootOf, Replayed, Precheck;
    if op.nonce in Contents(RootOf(ops)) {
      JudgeNeverReusesNonce(Replayed(ops), Contents(RootOf(ops))[op.nonce], op);
    }
  }

  lemma FreshIsUnused(ops: seq<Operation>, nonce: Sha)
    requires Fresh(ops, nonce)
    ensures forall o | o in ops :: o.nonce != nonce
  {
  }

  lemma NotMemberIsFresh(root: Hash, ops: seq<Operation>, nonce: Sha)
    requires forall o | o in ops :: o.nonce in Contents(root)
    requires nonce !in Contents(root)
    ensures Fresh(ops, nonce)
  {
  }

  /** The disk a request leaves behind when `fuel` of its writes reach it. */
  ghost function DiskAfter(d: Disk, ops: seq<Operation>, phase: Phase, op: Operation, gates: Gates,
                           fuel: nat): Outcome {
    Run(d, PlanFor(ops, phase, op, gates).writes, fuel)
  }

  lemma Unlinked(d: Disk, fuel: nat)
    ensures Run(d, [UnlinkPending], fuel)
         == if fuel == 0 then Outcome(d, Crashed, 0) else Outcome(d.(pending := None), Done, fuel - 1)
  {
  }

  /** A finished commit waiting for its cleanup, and then the rest of a request. */
  lemma CleanupFirst(d: Disk, ops: seq<Operation>, rest: seq<Write>, fuel: nat)
    requires Inv(d, ops, Cleanup)
    ensures fuel == 0 ==> Run(d, [UnlinkPending] + rest, fuel) == Outcome(d, Crashed, 0)
    ensures fuel > 0 ==> Run(d, [UnlinkPending] + rest, fuel) == Run(d.(pending := None), rest, fuel - 1)
    ensures Inv(d.(pending := None), ops, Idle)
  {
    ClearStep(d, ops);
    hide Inv;
    if fuel > 0 {
      RunHead(d, UnlinkPending, rest, fuel);
    }
  }

  /** Whatever a request is and wherever the machine stops, the invariant survives and at
      most this one operation joins the history. */
  lemma {:induction false} RequestKeepsInvariant(d: Disk, ops: seq<Operation>, phase: Phase, op: Operation,
                                                 gates: Gates, fuel: nat)
    returns (ops': seq<Operation>, phase': Phase)
    requires Inv(d, ops, phase)
    requires !(Commits(ops, op, gates) && RetiresTwice(Replayed(ops), op))
    ensures Inv(DiskAfter(d, ops, phase, op, gates, fuel).disk, ops', phase')
    ensures ops' == ops || (ops' == ops + [op] && Commits(ops, op, gates))
    ensures DiskAfter(d, ops, phase, op, gates, fuel).status == Done && Commits(ops, op, gates) ==>
              ops' == ops + [op] && phase' == Idle
  {
    hide Inv, Commits, PlanFor, RetiresTwice;
    CleanupIsPrepended(ops, op, gates);
    if phase == Cleanup && PlanFor(ops, phase, op, gates).writes != [] {
      CleanupFirst(d, ops, PlanFor(ops, Idle, op, gates).writes, fuel);
      if fuel == 0 {
        return ops, phase;
      }
      ops', phase' := FromQuietPhase(d.(pending := None), ops, Idle, op, gates, fuel - 1);
    } else {
      ops', phase' := FromQuietPhase(d, ops, phase, op, gates, fuel);
    }
  }

  lemma CleanupIsPrepended(ops: seq<Operation>, op: Operation, gates: Gates)
    ensures var plan, idle := PlanFor(ops, Cleanup, op, gates), PlanFor(ops, Idle, op, gates);
            && plan.answer == idle.answer
            && plan.writes == if Precheck(op, gates).Some? then [] else [UnlinkPending] + idle.writes
  {
    hide VerdictFor, SaveWrites, Precheck;
    assert [UnlinkPending] + SaveWrites(ops, op) == [UnlinkPending] + ([] + SaveWrites(ops, op));
  }

  lemma FromQuietPhase(d: Disk, ops: seq<Operation>, phase: Phase, op: Operation, gates: Gates, fuel: nat)
    returns (ops': seq<Operation>, phase': Phase)
    requires Inv(d, ops, phase) && (phase == Cleanup ==> PlanFor(ops, phase, op, gates).writes == [])
    requires !(Commits(ops, op, gates) && RetiresTwice(Replayed(ops), op))
    ensures Inv(DiskAfter(d, ops, phase, op, gates, fuel).disk, ops', phase')
    ensures ops' == ops || (ops' == ops + [op] && Commits(ops, op, gates))
    ensures DiskAfter(d, ops, phase, op, gates, fuel).status == Done && Commits(ops, op, gates) ==>
              ops' == ops + [op] && phase' == Idle
  {
    hide Inv, Admitted, RetiresTwice, VerdictFor, History, SaveWrites, Precheck, CommitDepth;
    if !Commits(ops, op, gates) {
      return ops, phase;
    }
    assert PlanFor(ops, phase, op, gates).writes == SaveWrites(ops, op) by {
      assert [] + SaveWrites(ops, op) == SaveWrites(ops, op);
    }
    HistoryUnderInv(d, ops, phase);
    CommitExtendsHistory(ops, op, gates);
    FiveCommitWrites(ops, op);
    hide Commits, PlanFor;
    ops', phase' := SavedFromQuiet(d, ops, phase, op, fuel);
  }

  /** Saving one more operation from a phase that blocks nothing but other operations. */
  lemma SavedFromQuiet(d: Disk, ops: seq<Operation>, phase: Phase, op: Operation, fuel: nat)
    returns (ops': seq<Operation>, phase': Phase)
    requires Inv(d, ops, phase) && History(ops + [op]) && phase != Cleanup && Fresh(ops, op.nonce)
    ensures Inv(Run(d, SaveWrites(ops, op), fuel).disk, ops', phase')
    ensures ops' == ops || ops' == ops + [op]
    ensures Run(d, SaveWrites(ops, op), fuel).status == Done ==> ops' == ops + [op] && phase' == Idle
  {
    hide Inv, History, SaveWrites, CommitDepth;
    if NotAnother(phase, op) {
      SaveSurvivesCrash(d, ops, phase, op, fuel);
      if ReceiptConflicts(d, op) {
        NothingIsDone(d, ops, op, fuel);
        return ops, phase;
      }
      DepthWhenDone(ops, op, fuel);
      var after := AfterWrites(ops, phase, op, CommitDepth(ops, op, fuel));
      return after.0, after.1;
    }
    SaveRefusedWhilePending(d, ops, phase, op, fuel);
    return ops, phase;
  }

  lemma HistoryUnderInv(d: Disk, ops: seq<Operation>, phase: Phase)
    requires Inv(d, ops, phase)
    ensures History(ops)
  {
    hide History;
    HistoryOfCommitted(ops, phase);
  }

  lemma NothingIsDone(d: Disk, ops: seq<Operation>, op: Operation, fuel: nat)
    requires fuel > 0 ==> Run(d, SaveWrites(ops, op), fuel).status == Conflict
    ensures Run(d, SaveWrites(ops, op), fuel).status != Done
  {
    hide RootOf, CommitWrites;
    assert SaveWrites(ops, op) != [];
  }

  lemma DepthWhenDone(ops: seq<Operation>, op: Operation, fuel: nat)
    ensures fuel >= |SaveWrites(ops, op)| ==> CommitDepth(ops, op, fuel) >= 5
  {
    hide RootOf, InsertWrites, CommitWrites;
    FiveCommitWrites(ops, op);
  }

  // ---- Loading and refusing after a crash ----

  /** After a request, crashed or not, loading returns the old record or the new one. */
  lemma {:induction false} LoadAfterRequest(d: Disk, ops: seq<Operation>, phase: Phase, op: Operation, gates: Gates,
                                            fuel: nat)
    requires Inv(d, ops, phase)
    requires !(Commits(ops, op, gates) && RetiresTwice(Replayed(ops), op))
    ensures var after := Load(DiskAfter(d, ops, phase, op, gates, fuel).disk);
            after == Ok(Some(RecordAt(ops))) || after == Ok(Some(RecordAt(ops + [op])))
  {
    hide Inv, Commits, DiskAfter, RecordAt, Load, RetiresTwice;
    var ops', phase' := RequestKeepsInvariant(d, ops, phase, op, gates, fuel);
    LoadReturnsCommitted(DiskAfter(d, ops, phase, op, gates, fuel).disk, ops', phase');
  }

  /** A committed request, seen again, is answered with the current record. */
  lemma CommittedRequestIsAnswered(ops: seq<Operation>, phase: Phase, op: Operation, gates: Gates)
    requires History(ops + [op]) && Precheck(op, gates) == None && (phase == Idle || phase == Cleanup)
    ensures PlanFor(ops + [op], phase, op, gates) ==
            Plan(if phase == Cleanup then [UnlinkPending] else [], Ok(RecordAt(ops + [op])))
  {
    hide Contents, RootOf, RecordAt, RetiresTwice, SaveWrites, Judge, Admitted, Applied;
    var all := ops + [op];
    assert Front(all) == ops && Last(all) == op;
    RootHoldsHistory(all);
    assert op in all by { assert all[|ops|] == op; }
    CommittedOperationIsRecognised(Replayed(ops), op);
  }

  lemma CommittingPlan(ops: seq<Operation>, phase: Phase, op: Operation, gates: Gates)
    requires Commits(ops, op, gates) && phase != Cleanup
    ensures PlanFor(ops, phase, op, gates) == Plan(SaveWrites(ops, op), Ok(RecordAt(ops + [op])))
  {
    hide VerdictFor, SaveWrites, Precheck;
    assert [] + SaveWrites(ops, op) == SaveWrites(ops, op);
  }

  lemma CommitsPrecheck(ops: seq<Operation>, op: Operation, gates: Gates)
    requires Commits(ops, op, gates)
    ensures Precheck(op, gates) == None
  {
  }

  lemma CurrentUnderInv(d: Disk, ops: seq<Operation>)
    requires Inv(d, ops, Idle)
    ensures d.current == Some(RecordAt(ops)) && d.pending == None
  {
  }

  /** While one request is announced, every other one leaves the registry's own files as
      they are, and none commits. */
  lemma {:induction false} OthersAreRefusedWhilePending(d: Disk, ops: seq<Operation>, phase: Phase, op: Operation,
                                                        gates: Gates, fuel: nat)
    requires Inv(d, ops, phase) && (phase.Prepared? || phase.Linked?) && phase.op != op
    ensures var o := DiskAfter(d, ops, phase, op, gates, fuel);
            && (Commits(ops, op, gates) ==> o.status != Done)
            && Inv(o.disk, ops, phase)
            && EvidenceGrew(d, o.disk)
  {
    hide Inv, Commits, RecordAt, RetiresTwice, SaveWrites, History, Judge;
    if Commits(ops, op, gates) {
      CommittingPlan(ops, phase, op, gates);
      HistoryUnderInv(d, ops, phase);
      CommitExtendsHistory(ops, op, gates);
      SaveRefusedWhilePending(d, ops, phase, op, fuel);
    } else {
      NothingPlanned(ops, phase, op, gates);
    }
  }

  lemma NothingPlanned(ops: seq<Operation>, phase: Phase, op: Operation, gates: Gates)
    requires !Commits(ops, op, gates) && phase != Cleanup
    ensures PlanFor(ops, phase, op, gates).writes == []
  {
    hide VerdictFor, SaveWrites, Precheck;
  }

  // ---- The record that cannot be read back ----

  /** A committed record can be loaded again if and only if its operation did not retire
      a lineage for the second time. */
  lemma {:induction false} CommittedRecordReloads(d: Disk, ops: seq<Operation>, phase: Phase, op: Operation,
                                                  gates: Gates, fuel: nat)
    requires Inv(d, ops, phase) && (phase == Cleanup || NotAnother(phase, op))
    requires Commits(ops, op, gates) && !ReceiptConflicts(d, op)
    requires fuel >= |PlanFor(ops, phase, op, gates).writes|
    ensures var o := DiskAfter(d, ops, phase, op, gates, fuel);
            && o.status == Done
            && o.disk.current == Some(RecordAt(ops + [op]))
            && (Load(o.disk).Ok? <==> !RetiresTwice(Replayed(ops), op))
  {
    hide *;
    if phase == Cleanup {
      CommitsPrecheck(ops, op, gates);
      CleanupIsPrepended(ops, op, gates);
      CleanupFirst(d, ops, PlanFor(ops, Idle, op, gates).writes, fuel);
      OneMore(UnlinkPending, PlanFor(ops, Idle, op, gates).writes);
      SameReceipts(d, op);
      NoCleanupIsQuiet(phase, op);
      ReloadsFromQuiet(d.(pending := None), ops, Idle, op, gates, fuel - 1);
      CleanedUp(d, ops, op, gates, fuel);
    } else {
      NoCleanupIsQuiet(phase, op);
      ReloadsFromQuiet(d, ops, phase, op, gates, fuel);
    }
  }

  lemma OneMore(w: Write, rest: seq<Write>)
    ensures |[w] + rest| == 1 + |rest|
  {
  }

  lemma NoCleanupIsQuiet(phase: Phase, op: Operation)
    requires phase == Cleanup || NotAnother(phase, op)
    ensures phase != Cleanup ==> NotAnother(phase, op)
    ensures NotAnother(Idle, op)
  {
  }

  lemma SameReceipts(d: Disk, op: Operation)
    ensures ReceiptConflicts(d.(pending := None), op) == ReceiptConflicts(d, op)
  {
  }

  /** After its cleanup a request goes on as from the idle phase. */
  lemma CleanedUp(d: Disk, ops: seq<Operation>, op: Operation, gates: Gates, fuel: nat)
    requires Inv(d, ops, Cleanup) && Precheck(op, gates) == None && fuel > 0
    ensures DiskAfter(d, ops, Cleanup, op, gates, fuel)
            == DiskAfter(d.(pending := None), ops, Idle, op, gates, fuel - 1)
    ensures Inv(d.(pending := None), ops, Idle)
  {
    hide PlanFor, Inv, Precheck;
    CleanupIsPrepended(ops, op, gates);
    CleanupFirst(d, ops, PlanFor(ops, Idle, op, gates).writes, fuel);
  }

  lemma ReloadsFromQuiet(d: Disk, ops: seq<Operation>, phase: Phase, op: Operation, gates: Gates, fuel: nat)
    requires Inv(d, ops, phase) && NotAnother(phase, op)
    requires Commits(ops, op, gates) && !ReceiptConflicts(d, op)
    requires fuel >= |PlanFor(ops, phase, op, gates).writes|
    ensures var o := DiskAfter(d, ops, phase, op, gates, fuel);
            && o.status == Done
            && o.disk.current == Some(RecordAt(ops + [op]))
            && (Load(o.disk).Ok? <==> !RetiresTwice(Replayed(ops), op))
  {
    hide Inv, Commits, RecordAt, RetiresTwice, SaveWrites, ReceiptConflicts, History, Admitted, DecodableBindings,
         Replayed, Load, CommitDepth;
    CommittingPlan(ops, phase, op, gates);
    HistoryUnderInv(d, ops, phase);
    CommitExtendsHistory(ops, op, gates);
    AnnouncedHistory(d, ops, phase);
    var o := DiskAfter(d, ops, phase, op, gates, fuel);
    if RetiresTwice(Replayed(ops), op) {
      SaveReplacesCurrent(d, ops, op, fuel);
      UndecodableIsRefused(o.disk, ops + [op]);
    } else {
      SaveSurvivesCrash(d, ops, phase, op, fuel);
      DepthWhenDone(ops, op, fuel);
      CurrentUnderInv(o.disk, ops + [op]);
      LoadReturnsCommitted(o.disk, ops + [op], Idle);
    }
  }

  /** Only an operation that extends the history is ever announced. */
  lemma AnnouncedHistory(d: Disk, ops: seq<Operation>, phase: Phase)
    requires Inv(d, ops, phase)
    ensures phase.Prepared? || phase.Linked? ==> History(ops + [phase.op])
  {
    hide History;
  }

  lemma UndecodableIsRefused(d: Disk, ops: seq<Operation>)
    requires d.current == Some(RecordAt(ops)) && !DecodableBindings(Replayed(ops))
    ensures Load(d) == Err(RegistryInvalid)
  {
    hide DecodableBindings, Replayed, RecordAt, ValidateAnchor;
    RecordFields(ops);
  }

  /** A save from a quiet registry that meets no conflicting receipt makes all its writes. */
  lemma SaveReplacesCurrent(d: Disk, ops: seq<Operation>, op: Operation, fuel: nat)
    requires Inv(d, ops, Idle) && Fresh(ops, op.nonce) && !ReceiptConflicts(d, op)
    requires fuel >= |SaveWrites(ops, op)|
    ensures var o := Run(d, SaveWrites(ops, op), fuel);
            o.status == Done && o.disk.current == Some(RecordAt(ops + [op]))
  {
    hide RecordAt, ReceiptConflicts, History, InsertWrites, CommitWrites, Replayed, Anchored;
    var evidence := InsertWrites(RootOf(ops), ReceiptOf(op));
    EvidenceOutcome(d, ops, Idle, op, fuel);
    RunConcat(d, evidence, CommitWrites(ops, op), fuel);
    RunDoneUsesFuel(d, evidence, fuel);
    FiveCommitWrites(ops, op);
    QuietCommitCompletes(Run(d, evidence, fuel).disk, ops, op, fuel - |evidence|);
  }

  lemma QuietCommitCompletes(d: Disk, ops: seq<Operation>, op: Operation, fuel: nat)
    requires Inv(d, ops, Idle) && fuel >= 5
    ensures var o := Run(d, CommitWrites(ops, op), fuel);
            o.status == Done && o.disk.current == Some(RecordAt(ops + [op]))
  {
    hide Inv, RecordAt, TransitionAt, RootOf;
    QuietCommitIsFree(d, ops);
    TransitionNumber(ops, op);
    var all := ops + [op];
    var announce, link := CreatePending(PendingAt(all)), CreateTransition(TransitionAt(all));
    var d1 := d.(pending := Some(PendingAt(all)));
    var d2 := d1.(transitions := d.transitions[|all| := TransitionAt(all)]);
    var rest := CommitWrites(ops, op)[2..];
    assert CommitWrites(ops, op) == [announce] + ([link] + rest);
    RunHead(d, announce, [link] + rest, fuel);
    RunHead(d1, link, rest, fuel - 1);
    assert Perform(d1, link) == Some(d2);
    ReplacingCompletes(d2, ops, op, fuel - 2);
  }

  lemma TransitionNumber(ops: seq<Operation>, op: Operation)
    ensures TransitionAt(ops + [op]).newCount == |ops| + 1
  {
    hide RecordAt;
  }

  lemma QuietCommitIsFree(d: Disk, ops: seq<Operation>)
    requires Inv(d, ops, Idle)
    ensures d.pending == None && |ops| + 1 !in d.transitions
  {
    hide History, RecordAt, TransitionAt, RootsAnchored, Intact;
  }

  lemma ReplacingCompletes(d: Disk, ops: seq<Operation>, op: Operation, fuel: nat)
    requires fuel >= 3
    ensures var o := Run(d, CommitWrites(ops, op)[2..], fuel);
            o.status == Done && o.disk.current == Some(RecordAt(ops + [op]))
  {
    hide RecordAt, TransitionAt;
    var all := ops + [op];
    var keep, replace, clear := ReplacePrevious(RecordAt(ops)), ReplaceCurrent(RecordAt(all)), UnlinkPending;
    assert CommitWrites(ops, op)[2..] == [keep] + ([replace] + [clear]);
    var d1 := d.(previous := Some(RecordAt(ops)));
    var d2 := d1.(current := Some(RecordAt(all)));
    RunHead(d, keep, [replace] + [clear], fuel);
    RunHead(d1, replace, [clear], fuel - 1);
    assert [clear] == [clear] + [];
    RunHead(d2, clear, [], fuel - 2);
  }

  // ---- Runs ----

  /** A request and the number of its durable writes that reach the disk. */
  datatype Request = Request(op: Operation, gates: Gates, fuel: nat)

  /** One request against a reachable disk, under any history that explains the disk. */
  ghost predicate Step(d: Disk, after: Disk, r: Request) {
    exists ops, phase ::
      && Inv(d, ops, phase)
      && !(Commits(ops, r.op, r.gates) && RetiresTwice(Replayed(ops), r.op))
      && after == DiskAfter(d, ops, phase, r.op, r.gates, r.fuel).disk
  }

  /** Consecutive disks of a run of requests. */
  ghost predicate IsRun(disks: seq<Disk>, requests: seq<Request>) {
    && |disks| == |requests| + 1
    && (forall i | 0 <= i < |requests| :: Step(disks[i], disks[i + 1], requests[i]))
  }

  /** The disk determines its history and phase. */
  lemma {:induction false} HistoryIsDetermined(d: Disk, ops: seq<Operation>, phase: Phase, ops': seq<Operation>,
                                               phase': Phase)
    requires Inv(d, ops, phase) && Inv(d, ops', phase')
    ensures ops == ops' && phase == phase'
  {
    hide History, RecordAt, TransitionAt, RootsAnchored, Intact, ChainStored, PreviousIs, StartsAt, EndsAt, Extends,
         ExtendsAnchor;
    RecordFields(ops);
    RecordFields(ops');
    forall i | 0 <= i < |ops|
      ensures ops[i] == ops'[i]
    {
      StoredOperation(d, ops, phase, i);
      StoredOperation(d, ops', phase', i);
    }
    assert ops == ops';
    PhaseIsDetermined(d, ops, phase, phase');
  }

  lemma StoredOperation(d: Disk, ops: seq<Operation>, phase: Phase, i: nat)
    requires Inv(d, ops, phase) && i < |ops|
    ensures i + 1 in d.transitions && d.transitions[i + 1].receiptChecksum.semantic == ops[i]
  {
    hide History, RecordAt, TransitionAt, RootsAnchored, Intact, PreviousIs, PendingIs, StartsAt, EndsAt, Extends,
         ExtendsAnchor;
    assert LinkedOps(ops, phase)[..i + 1] == ops[..i + 1];
    LinksExtend(ops[..i + 1]);
  }

  lemma PhaseIsDetermined(d: Disk, ops: seq<Operation>, phase: Phase, phase': Phase)
    requires Inv(d, ops, phase) && Inv(d, ops, phase')
    ensures phase == phase'
  {
    hide Inv, TransitionAt;
    PhaseShows(d, ops, phase);
    PhaseShows(d, ops, phase');
  }

  /** What the files say about the phase. */
  lemma PhaseShows(d: Disk, ops: seq<Operation>, phase: Phase)
    requires Inv(d, ops, phase)
    ensures phase.Linked? <==> |ops| + 1 in d.transitions
    ensures phase == Idle <==> d.pending == None
    ensures phase == Cleanup ==> d.pending.value.body.newCount == |ops|
    ensures phase.Prepared? || phase.Linked? ==>
              d.pending.value.body.newCount == |ops| + 1 && d.pending.value.body.receiptChecksum.semantic == phase.op
  {
    hide History, RecordAt, TransitionAt, RootsAnchored, Intact, PreviousIs, StartsAt, EndsAt, Extends, ExtendsAnchor;
    if phase != Idle {
      LinksExtend(Announced(ops, phase));
    }
  }

  /** Every run of requests, each stopped anywhere, keeps the invariant; its history only
      grows at the end; every disk on the way loads. */
  lemma {:induction false} RunsKeepInvariant(disks: seq<Disk>, requests: seq<Request>, ops: seq<Operation>,
                                             phase: Phase)
    returns (ops': seq<Operation>, phase': Phase)
    requires IsRun(disks, requests) && Inv(disks[0], ops, phase)
    ensures Inv(disks[|requests|], ops', phase')
    ensures |ops| <= |ops'| && ops'[..|ops|] == ops
    ensures forall i | 0 <= i <= |requests| :: Load(disks[i]).Ok? && Load(disks[i]).value.Some?
    decreases |requests|
  {
    hide Inv, Load, Step, RecordAt;
    LoadReturnsCommitted(disks[0], ops, phase);
    if requests == [] {
      return ops, phase;
    }
    var next, phaseNext := StepKeepsInvariant(disks[0], disks[1], requests[0], ops, phase);
    ops', phase' := RunsKeepInvariant(disks[1..], requests[1..], next, phaseNext);
    assert ops'[..|ops|] == next[..|ops|] == ops;
    forall i | 0 <= i <= |requests|
      ensures Load(disks[i]).Ok? && Load(disks[i]).value.Some?
    {
      if i > 0 {
        assert disks[1..][i - 1] == disks[i];
      }
    }
  }

  lemma StepKeepsInvariant(d: Disk, after: Disk, r: Request, ops: seq<Operation>, phase: Phase)
    returns (ops': seq<Operation>, phase': Phase)
    requires Step(d, after, r) && Inv(d, ops, phase)
    ensures Inv(after, ops', phase') && |ops| <= |ops'| <= |ops| + 1 && ops'[..|ops|] == ops
  {
    hide Inv, Commits, RetiresTwice, DiskAfter, Replayed;
    var o, p :| Inv(d, o, p) && !(Commits(o, r.op, r.gates) && RetiresTwice(Replayed(o), r.op)) &&
                after == DiskAfter(d, o, p, r.op, r.gates, r.fuel).disk;
    HistoryIsDetermined(d, ops, phase, o, p);
    ops', phase' := RequestKeepsInvariant(d, ops, phase, r.op, r.gates, r.fuel);
  }

  // ---- What a history guarantees ----

  /** Each nonce takes effect at most once. */
  lemma {:induction false} NoncesAreUsedOnce(ops: seq<Operation>)
    requires History(ops)
    ensures NoDuplicates(Nonces(ops))
    decreases |ops|
  {
    hide Admitted, RetiresTwice, Replayed, Applied, Fresh, NoDuplicates, Nonces;
    if ops == [] {
      NoNonces();
    } else {
      NoncesAreUsedOnce(Front(ops));
      assert Front(ops) + [Last(ops)] == ops;
      OneMoreNonce(Front(ops), Last(ops));
    }
  }

  lemma NoNonces()
    ensures NoDuplicates(Nonces([]))
  {
  }

  lemma OneMoreNonce(ops: seq<Operation>, op: Operation)
    requires NoDuplicates(Nonces(ops)) && Fresh(ops, op.nonce)
    ensures NoDuplicates(Nonces(ops + [op]))
  {
    assert Nonces(ops + [op]) == Nonces(ops) + [op.nonce];
    forall i | 0 <= i < |ops|
      ensures Nonces(ops)[i] != op.nonce
    {
      assert ops[i] in ops;
    }
    AppendKeepsNoDuplicates(Nonces(ops), op.nonce);
  }

  /** Whatever was retired at some point of a history is retired ever after. */
  lemma {:induction false} RetirementOutlivesRuns(ops: seq<Operation>, later: seq<Operation>)
    requires History(later) && |ops| <= |later| && later[..|ops|] == ops
    ensures RetiredAccounts(Replayed(ops)) <= RetiredAccounts(Replayed(later))
    ensures RetiredRuntimes(Replayed(ops)) <= RetiredRuntimes(Replayed(later))
    ensures RetiredLineages(Replayed(ops)) <= RetiredLineages(Replayed(later))
    decreases |later|
  {
    hide RetiredAccounts, RetiredRuntimes, RetiredLineages, Admitted, RetiresTwice, Applied;
    if |ops| < |later| {
      assert Front(later)[..|ops|] == ops;
      RetirementOutlivesRuns(ops, Front(later));
      RetirementIsPermanent(Replayed(Front(later)), Last(later));
    } else {
      assert ops == later;
    }
  }

  /** A new binding never takes an account, runtime or lineage that any earlier point of
      the history had retired. */
  lemma {:induction false} BindNeverRevives(ops: seq<Operation>, later: seq<Operation>)
    requires History(later) && later != [] && Last(later).OpBind?
    requires |ops| < |later| && later[..|ops|] == ops
    ensures Last(later).account !in RetiredAccounts(Replayed(ops))
    ensures Last(later).runtime !in RetiredRuntimes(Replayed(ops))
    ensures Lineage(Last(later).account, Last(later).runtime, Last(later).epoch) !in RetiredLineages(Replayed(ops))
  {
    var front, op := Front(later), Last(later);
    assert front[..|ops|] == ops;
    RetirementOutlivesRuns(ops, front);
    NothingRetiredIsBound(Replayed(front), op);
    hide RetiredAccounts, RetiredRuntimes, RetiredLineages, History, Replayed;
  }

  lemma NothingRetiredIsBound(bindings: Bindings, op: Operation)
    requires op.OpBind? && !IsRetired(bindings, op.account, op.runtime, op.epoch)
    ensures op.account !in RetiredAccounts(bindings) && op.runtime !in RetiredRuntimes(bindings)
    ensures Lineage(op.account, op.runtime, op.epoch) !in RetiredLineages(bindings)
  {
  }

  /** One account per runtime holds along a history in which no transfer lands on a
      runtime that another account is bound to. */
  ghost predicate NoForcedTransfers(ops: seq<Operation>) {
    forall i | 0 <= i < |ops| :: !TransfersOntoAnother(Replayed(ops[..i]), ops[i])
  }

  lemma FrontIsUnforced(ops: seq<Operation>)
    requires ops != [] && NoForcedTransfers(ops)
    ensures NoForcedTransfers(Front(ops)) && |Front(ops)| < |ops|
    ensures !TransfersOntoAnother(Replayed(Front(ops)), Last(ops))
  {
    hide TransfersOntoAnother, Replayed;
    forall i | 0 <= i < |Front(ops)|
      ensures !TransfersOntoAnother(Replayed(Front(ops)[..i]), Front(ops)[i])
    {
      assert Front(ops)[..i] == ops[..i];
    }
    assert ops[..|ops| - 1] == Front(ops);
  }

  lemma {:induction false} RuntimesStayExclusiveOverRuns(ops: seq<Operation>)
    requires History(ops) && NoForcedTransfers(ops)
    ensures OneAccountPerRuntime(Replayed(ops))
    decreases |ops|
  {
    if ops != [] {
      hide *;
      HistoryEnds(ops);
      FrontIsUnforced(ops);
      RuntimesStayExclusiveOverRuns(Front(ops));
      HistoryExtends(Front(ops), Last(ops));
      RuntimesStayExclusive(Replayed(Front(ops)), Last(ops));
    }
  }

  /** A binding's revision counts the operations of its lineage, and its stored heads are
      exactly the last eight of them, or all if there are fewer. */
  lemma {:induction false} HeadsAreTheLastOperations(ops: seq<Operation>, account: Sha)
    requires History(ops) && account in Replayed(ops)
    ensures account in Lineages(ops)
    ensures var b, lineage := Replayed(ops)[account], Lineages(ops)[account];
            && b.revision == |lineage|
            && |b.history| == |b.kinds| == (if |lineage| < 8 then |lineage| else 8)
            && (forall i | 0 <= i < |b.history| ::
                  var o := lineage[|lineage| - |b.history| + i];
                  b.history[i] == o.nonce && Names(b.kinds[i], o))
  {
    hide History, Replayed, Lineages, Tells, RetiresCleanly;
    HistoryIsConsistent(ops);
    assert Faithful(account, Replayed(ops)[account], Lineages(ops)[account], ops);
    HeadsFromTells(Replayed(ops)[account], Lineages(ops)[account]);
  }

  predicate Names(kind: Kind, op: Operation) {
    match kind
    case Bind => op.OpBind?
    case Advance => op.OpAdvance?
    case Switch => op.OpSwitch?
    case Acknowledgement => op.OpAcknowledge?
    case Transfer => op.OpTransfer?
    case Recovery => op.OpRecover?
    case Continuity => op.OpContinue?
  }

  lemma HeadsFromTells(b: Binding, lineage: seq<Operation>)
    requires Tells(b, lineage)
    ensures b.revision == |lineage|
    ensures |b.history| == |b.kinds| == (if |lineage| < 8 then |lineage| else 8)
    ensures forall i | 0 <= i < |b.history| ::
              var o := lineage[|lineage| - |b.history| + i];
              b.history[i] == o.nonce && b.kinds[i] == KindOf(o)
  {
    hide *;
    HeadsAreLast(b, lineage);
    forall i | 0 <= i < |b.history|
      ensures var o := lineage[|lineage| - |b.history| + i];
              b.history[i] == o.nonce && b.kinds[i] == KindOf(o)
    {
      LastOfAt(Nonces(lineage), 8, i);
      LastOfAt(Kinds(lineage), 8, i);
      HeadAt(lineage, |lineage| - |b.history| + i);
    }
  }

  lemma HeadsAreLast(b: Binding, lineage: seq<Operation>)
    requires Tells(b, lineage)
    ensures b.revision == |lineage|
    ensures b.history == LastOf(Nonces(lineage), 8) && b.kinds == LastOf(Kinds(lineage), 8)
    ensures |b.history| == |b.kinds| == (if |lineage| < 8 then |lineage| else 8)
    ensures |Nonces(lineage)| == |Kinds(lineage)| == |lineage|
  {
    hide KindOf, TargetAccount, TargetRuntime, TargetEpoch, NoDuplicates;
  }

  lemma LastOfAt<T>(items: seq<T>, n: nat, i: nat)
    requires i < |LastOf(items, n)|
    ensures |LastOf(items, n)| <= |items| && LastOf(items, n)[i] == items[|items| - |LastOf(items, n)| + i]
  {
  }

  lemma HeadAt(lineage: seq<Operation>, k: nat)
    requires k < |lineage|
    ensures |Nonces(lineage)| == |Kinds(lineage)| == |lineage|
    ensures Nonces(lineage)[k] == lineage[k].nonce && Kinds(lineage)[k] == KindOf(lineage[k])
  {
    hide KindOf;
  }

  // ---- Provisioning ----

  const BLANK: Disk := Disk(false, false, None, None, None, None, map[], map[], map[])

  /** Lineage marker, ready marker, first record. */
  const INITIALIZE: seq<Write> := [CreateLineage, CreateReady(READY), ReplaceCurrent(INITIAL)]

  const MARKED: Disk := BLANK.(lineage := true)
  const READIED: Disk := MARKED.(ready := Some(READY))

  /** The three writes of provisioning, one at a time. */
  lemma InitializationWrites(fuel: nat)
    ensures fuel == 0 ==> Run(BLANK, INITIALIZE, fuel) == Outcome(BLANK, Crashed, 0)
    ensures fuel > 0 ==>
              Run(BLANK, INITIALIZE, fuel) == Run(MARKED, [CreateReady(READY)] + [ReplaceCurrent(INITIAL)], fuel - 1)
    ensures fuel > 1 ==> Run(BLANK, INITIALIZE, fuel) == Run(READIED, [ReplaceCurrent(INITIAL)], fuel - 2)
  {
    hide Run, INITIAL;
    var rest := [CreateReady(READY)] + [ReplaceCurrent(INITIAL)];
    assert INITIALIZE == [CreateLineage] + rest;
    if fuel == 0 {
      NoFuel(BLANK, INITIALIZE);
    } else {
      RunHead(BLANK, CreateLineage, rest, fuel);
    }
    if fuel > 1 {
      RunHead(MARKED, CreateReady(READY), [ReplaceCurrent(INITIAL)], fuel - 1);
    }
  }

  lemma NoFuel(d: Disk, writes: seq<Write>)
    requires writes != []
    ensures Run(d, writes, 0) == Outcome(d, Crashed, 0)
  {
  }

  lemma RecordReplaced(d: Disk, r: Record, fuel: nat)
    requires fuel > 0
    ensures Run(d, [ReplaceCurrent(r)], fuel) == Outcome(d.(current := Some(r)), Done, fuel - 1)
  {
  }

  lemma HalfProvisioned()
    ensures Load(BLANK) == Ok(None) && Load(MARKED).Err? && Load(READIED).Err?
  {
    hide ValidateAnchor, Decodable, INITIAL;
  }

  lemma ProvisionedHolds()
    ensures Inv(READIED.(current := Some(INITIAL)), [], Idle)
  {
    InitialRecord();
    FirstRecordIsAnchored(READIED.(current := Some(INITIAL)));
    hide RootsAnchored, ChainStored, History, RecordAt, RootOf, INITIAL, READY;
  }

  lemma FirstRecordIsAnchored(d: Disk)
    requires d.transitions == map[] && d.previous == None
    ensures History([]) && ChainStored(d, []) && PreviousIs(d, []) && RootsAnchored(d, [])
  {
    InitialRecord();
    hide RootOf, TransitionAt;
    var none: seq<Operation> := [];
    assert none[..0] == [];
  }

  /** Provisioning a blank machine either completes, or has not begun, or is refused by
      every later load. */
  lemma {:induction false} InitializationIsAllOrRefused(fuel: nat)
    ensures var o := Run(BLANK, INITIALIZE, fuel);
            && (fuel >= 3 ==> o.status == Done && Inv(o.disk, [], Idle))
            && (fuel == 0 ==> o.disk == BLANK && Load(o.disk) == Ok(None))
            && (0 < fuel < 3 ==> Load(o.disk).Err?)
  {
    hide *;
    InitializationWrites(fuel);
    HalfProvisioned();
    ProvisionedHolds();
    if fuel == 1 {
      NoFuel(MARKED, [CreateReady(READY)] + [ReplaceCurrent(INITIAL)]);
    } else if fuel == 2 {
      NoFuel(READIED, [ReplaceCurrent(INITIAL)]);
    } else if fuel > 2 {
      RecordReplaced(READIED, INITIAL, fuel - 2);
    }
  }
}
