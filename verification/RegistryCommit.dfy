/** The commit protocol as a list of durable writes, what every prefix of it leaves behind,
    and what whole runs of requests with crashes keep. */
module RegistryCommit {
  import opened Wrappers
  import opened HexBits
  import opened Operations
  import opened NonceTrie
  import opened Storage
  import opened NonceLedger
  import opened RegistryRecords
  import opened RegistryFiles

  /** Announce, link, keep the old record, replace it, clear the announcement. */
  function CommitWrites(ops: seq<Operation>, op: Operation): seq<Write> {
    var all := ops + [op];
    [CreatePending(PendingAt(all)), CreateTransition(TransitionAt(all)), ReplacePrevious(RecordAt(ops)),
     ReplaceCurrent(RecordAt(all)), UnlinkPending]
  }

  function SaveWrites(ops: seq<Operation>, op: Operation): seq<Write> {
    InsertWrites(RootOf(ops), ReceiptOf(op)) + CommitWrites(ops, op)
  }

  /** The request under way, if any, is this one. */
  predicate NotAnother(phase: Phase, op: Operation) {
    phase == Idle || phase == Prepared(op) || phase == Linked(op)
  }

  /** History and phase once `k` of the five commit writes are on disk. */
  function AfterWrites(ops: seq<Operation>, phase: Phase, op: Operation, k: nat): (seq<Operation>, Phase) {
    if k == 0 then (ops, phase)
    else if k == 1 then (ops, if phase == Idle then Prepared(op) else phase)
    else if k <= 3 then (ops, Linked(op))
    else if k == 4 then (ops + [op], Cleanup)
    else (ops + [op], Idle)
  }

  // ---- One write at a time ----

  lemma EvidenceKeepsInv(d: Disk, after: Disk, ops: seq<Operation>, phase: Phase)
    requires Inv(d, ops, phase) && EvidenceGrew(d, after) && Intact(after)
    ensures Inv(after, ops, phase)
  {
    hide History, RootOf, TransitionAt, RecordAt, Anchored, Intact;
    var all := Announced(ops, phase);
    forall n | 0 <= n <= |all|
      ensures Anchored(after, RootOf(all[..n]))
    {
      AnchoredGrows(d, after, RootOf(all[..n]));
    }
  }

  lemma AnchoredElsewhere(d: Disk, after: Disk, root: Hash)
    requires Anchored(d, root) && after.receipts == d.receipts && after.nodes == d.nodes
    ensures Anchored(after, root)
  {
  }

  lemma RootsAnchoredElsewhere(d: Disk, after: Disk, all: seq<Operation>)
    requires RootsAnchored(d, all) && after.receipts == d.receipts && after.nodes == d.nodes
    ensures RootsAnchored(after, all)
  {
    hide Anchored, RootOf;
    forall n | 0 <= n <= |all|
      ensures Anchored(after, RootOf(all[..n]))
    {
      AnchoredElsewhere(d, after, RootOf(all[..n]));
    }
  }

  lemma AnnounceStep(d: Disk, ops: seq<Operation>, op: Operation)
    requires Inv(d, ops, Idle) && History(ops + [op]) && Anchored(d, RootOf(ops + [op]))
    ensures Inv(d.(pending := Some(PendingAt(ops + [op]))), ops, Prepared(op))
  {
    hide History, RootOf, TransitionAt, RecordAt, Anchored;
    var all := ops + [op];
    var after := d.(pending := Some(PendingAt(all)));
    forall n | 0 <= n <= |all|
      ensures Anchored(after, RootOf(all[..n]))
    {
      if n <= |ops| {
        assert all[..n] == ops[..n];
      } else {
        assert all[..n] == all;
      }
      AnchoredElsewhere(d, after, RootOf(all[..n]));
    }
  }

  lemma LinkStep(d: Disk, ops: seq<Operation>, op: Operation)
    requires Inv(d, ops, Prepared(op))
    ensures Inv(d.(transitions := d.transitions[|ops| + 1 := TransitionAt(ops + [op])]), ops, Linked(op))
  {
    hide History, RootOf, TransitionAt, RecordAt, Anchored;
    var all := ops + [op];
    var after := d.(transitions := d.transitions[|ops| + 1 := TransitionAt(all)]);
    RootsAnchoredElsewhere(d, after, all);
    forall n | 1 <= n <= |all|
      ensures n in after.transitions && after.transitions[n] == TransitionAt(all[..n])
    {
      if n <= |ops| {
        assert all[..n] == ops[..n];
      } else {
        assert all[..n] == all;
      }
    }
  }

  lemma KeepPreviousStep(d: Disk, ops: seq<Operation>, op: Operation)
    requires Inv(d, ops, Linked(op))
    ensures Inv(d.(previous := Some(RecordAt(ops))), ops, Linked(op))
  {
    hide History, RootOf, TransitionAt, RecordAt, Anchored;
    RootsAnchoredElsewhere(d, d.(previous := Some(RecordAt(ops))), ops + [op]);
  }

  lemma ReplaceCurrentStep(d: Disk, ops: seq<Operation>, op: Operation)
    requires Inv(d, ops, Linked(op)) && d.previous == Some(RecordAt(ops))
    ensures Inv(d.(current := Some(RecordAt(ops + [op]))), ops + [op], Cleanup)
  {
    hide History, RootOf, TransitionAt, RecordAt, Anchored;
    var all := ops + [op];
    RecordFields(all);
    assert Front(all) == ops;
    RootsAnchoredElsewhere(d, d.(current := Some(RecordAt(all))), all);
  }

  lemma ClearStep(d: Disk, ops: seq<Operation>)
    requires Inv(d, ops, Cleanup)
    ensures Inv(d.(pending := None), ops, Idle)
  {
    hide History, RootOf, TransitionAt, RecordAt, Anchored;
    RootsAnchoredElsewhere(d, d.(pending := None), ops);
  }

  // ---- Every prefix of the commit ----

  lemma RunHead(d: Disk, w: Write, rest: seq<Write>, fuel: nat)
    requires fuel > 0
    ensures Run(d, [w] + rest, fuel) ==
            if Perform(d, w) == None then Outcome(d, Conflict, fuel - 1)
            else Run(Perform(d, w).value, rest, fuel - 1)
  {
    assert ([w] + rest)[1..] == rest;
  }

  lemma FinishFromLinked(d: Disk, ops: seq<Operation>, op: Operation, fuel: nat)
    requires Inv(d, ops, Linked(op))
    ensures var o := Run(d, CommitWrites(ops, op)[2..], fuel);
            var (ops', phase') := AfterWrites(ops, Linked(op), op, fuel + 2);
            && (o.status == if fuel >= 3 then Done else Crashed)
            && Inv(o.disk, ops', phase')
            && (fuel >= 3 ==> o.fuel == fuel - 3)
  {
    hide Inv, History, RootOf, TransitionAt, RecordAt;
    var all := ops + [op];
    var keep, replace, clear := ReplacePrevious(RecordAt(ops)), ReplaceCurrent(RecordAt(all)), UnlinkPending;
    assert CommitWrites(ops, op)[2..] == [keep] + ([replace] + [clear]);
    if fuel > 0 {
      KeepPreviousStep(d, ops, op);
      var d1 := d.(previous := Some(RecordAt(ops)));
      RunHead(d, keep, [replace] + [clear], fuel);
      if fuel > 1 {
        ReplaceCurrentStep(d1, ops, op);
        var d2 := d1.(current := Some(RecordAt(all)));
        RunHead(d1, replace, [clear], fuel - 1);
        if fuel > 2 {
          ClearStep(d2, all);
          assert [clear] == [clear] + [];
          RunHead(d2, clear, [], fuel - 2);
        }
      }
    }
  }

  lemma LinkingAgainChangesNothing(d: Disk, ops: seq<Operation>, op: Operation)
    requires Inv(d, ops, Linked(op))
    ensures d.(transitions := d.transitions[|ops| + 1 := TransitionAt(ops + [op])]) == d
    ensures |ops| + 1 in d.transitions && d.transitions[|ops| + 1] == TransitionAt(ops + [op])
  {
    hide History, RootOf, TransitionAt, RecordAt, RootsAnchored, Intact, PendingIs, PreviousIs;
    var all := ops + [op];
    assert all[..|all|] == all;
    assert d.transitions[|ops| + 1 := TransitionAt(all)] == d.transitions;
  }

  lemma NextLinkIsAbsent(d: Disk, ops: seq<Operation>, op: Operation)
    requires Inv(d, ops, Prepared(op))
    ensures |ops| + 1 !in d.transitions
  {
    hide History, RootOf, TransitionAt, RecordAt, RootsAnchored, Intact, PendingIs, PreviousIs;
  }

  /** Creating the transition succeeds, whether or not it is already there. */
  lemma LinkPerforms(d: Disk, ops: seq<Operation>, phase: Phase, op: Operation)
    requires Inv(d, ops, phase) && (phase == Prepared(op) || phase == Linked(op))
    ensures var next := Perform(d, CreateTransition(TransitionAt(ops + [op])));
            next.Some? && Inv(next.value, ops, Linked(op))
  {
    hide Inv, History, RootOf, TransitionAt, RecordAt, StartsAt, EndsAt, Extends, ExtendsAnchor;
    LinksExtend(ops + [op]);
    if phase == Prepared(op) {
      LinkStep(d, ops, op);
      NextLinkIsAbsent(d, ops, op);
    } else {
      LinkingAgainChangesNothing(d, ops, op);
    }
  }

  lemma FinishFromPrepared(d: Disk, ops: seq<Operation>, phase: Phase, op: Operation, fuel: nat)
    requires Inv(d, ops, phase) && (phase == Prepared(op) || phase == Linked(op))
    ensures var o := Run(d, CommitWrites(ops, op)[1..], fuel);
            var (ops', phase') := AfterWrites(ops, phase, op, fuel + 1);
            && (o.status == if fuel >= 4 then Done else Crashed)
            && Inv(o.disk, ops', phase')
            && (fuel >= 4 ==> o.fuel == fuel - 4)
  {
    hide Inv, History, RootOf, TransitionAt, RecordAt, PendingAt, Perform;
    var link := CreateTransition(TransitionAt(ops + [op]));
    assert CommitWrites(ops, op)[1..] == [link] + CommitWrites(ops, op)[2..];
    if fuel > 0 {
      LinkPerforms(d, ops, phase, op);
      RunHead(d, link, CommitWrites(ops, op)[2..], fuel);
      FinishFromLinked(Perform(d, link).value, ops, op, fuel - 1);
    }
  }

  /** The five commit writes never conflict, and wherever they stop the invariant holds. */
  lemma {:induction false} CommitSurvivesCrash(d: Disk, ops: seq<Operation>, phase: Phase, op: Operation, fuel: nat)
    requires Inv(d, ops, phase) && NotAnother(phase, op)
    requires History(ops + [op]) && Anchored(d, RootOf(ops + [op]))
    ensures var o := Run(d, CommitWrites(ops, op), fuel);
            var (ops', phase') := AfterWrites(ops, phase, op, fuel);
            && (o.status == if fuel >= 5 then Done else Crashed)
            && Inv(o.disk, ops', phase')
            && (fuel >= 5 ==> o.fuel == fuel - 5)
  {
    hide History, RootOf, TransitionAt, RecordAt, RootsAnchored, Anchored, Intact, ChainStored, PreviousIs;
    var all := ops + [op];
    var announce := CreatePending(PendingAt(all));
    assert CommitWrites(ops, op) == [announce] + CommitWrites(ops, op)[1..];
    if fuel > 0 {
      RunHead(d, announce, CommitWrites(ops, op)[1..], fuel);
      if phase == Idle {
        AnnounceStep(d, ops, op);
        FinishFromPrepared(d.(pending := Some(PendingAt(all))), ops, Prepared(op), op, fuel - 1);
      } else {
        assert d.(pending := Some(PendingAt(all))) == d;
        FinishFromPrepared(d, ops, phase, op, fuel - 1);
      }
    }
  }

  // ---- The whole save ----

  /** The receipt file of the nonce already holds another request: an earlier attempt
      crashed after writing it and was never retried exactly. */
  predicate ReceiptConflicts(d: Disk, op: Operation) {
    op.nonce in d.receipts && d.receipts[op.nonce] != ReceiptOf(op)
  }

  /** Writing the evidence of a fresh nonce either fails at its first file, because of a
      conflicting receipt, or anchors the new root. */
  lemma {:induction false} EvidenceOutcome(d: Disk, ops: seq<Operation>, phase: Phase, op: Operation, fuel: nat)
    requires Inv(d, ops, phase) && Fresh(ops, op.nonce)
    ensures var o := Run(d, InsertWrites(RootOf(ops), ReceiptOf(op)), fuel);
            && Inv(o.disk, ops, phase) && EvidenceGrew(d, o.disk)
            && (o.status == Conflict <==> fuel > 0 && ReceiptConflicts(d, op))
            && (o.status == Done ==> Anchored(o.disk, RootOf(ops + [op])))
            && (ReceiptConflicts(d, op) ==> o.disk == d)
            && (!ReceiptConflicts(d, op) ==> !ReceiptConflicts(o.disk, op))
  {
    hide History, Stored, Contents, WellFormed, TransitionAt, RecordAt, Reached, Graft;
    var receipt := ReceiptOf(op);
    var writes := InsertWrites(RootOf(ops), receipt);
    assert Front(ops + [op]) == ops && Last(ops + [op]) == op;
    InsertWritesAreEvidence(RootOf(ops), receipt);
    EvidenceWritesGrow(d, writes, fuel);
    EvidenceKeepsInv(d, Run(d, writes, fuel).disk, ops, phase);
    RootIsAnchored(d, ops, phase);
    HistoryOfCommitted(ops, phase);
    RootHoldsHistory(ops);
    FreshIsNotMember(RootOf(ops), ops, op.nonce);
    InsertAnchorsNewRoot(d, RootOf(ops), receipt, fuel);
    ReceiptWriteDecides(d, writes, receipt, fuel);
  }

  lemma FreshIsNotMember(root: Hash, ops: seq<Operation>, nonce: Sha)
    requires Fresh(ops, nonce) && forall k | k in Contents(root) :: !Fresh(ops, k)
    ensures nonce !in Contents(root)
  {
  }

  lemma ReceiptWriteDecides(d: Disk, writes: seq<Write>, receipt: Receipt, fuel: nat)
    requires Intact(d) && writes != [] && writes[0] == CreateReceipt(receipt)
    requires forall w | w in writes[1..] :: w.CreateNode?
    ensures var o := Run(d, writes, fuel);
            var conflicts := receipt.nonce in d.receipts && d.receipts[receipt.nonce] != receipt;
            && (o.status == Conflict <==> fuel > 0 && conflicts)
            && (conflicts ==> o.disk == d)
            && (!conflicts ==> receipt.nonce in o.disk.receipts ==> o.disk.receipts[receipt.nonce] == receipt)
  {
    assert writes == [writes[0]] + writes[1..];
    if fuel > 0 {
      RunHead(d, writes[0], writes[1..], fuel);
      if Perform(d, writes[0]).Some? {
        var next := Perform(d, writes[0]).value;
        OneEvidenceWrite(d, writes[0]);
        NodeWritesNeverConflict(next, writes[1..], fuel - 1);
        NodeWritesKeepReceipts(next, writes[1..], fuel - 1);
      }
    }
  }

  lemma {:induction false} NodeWritesKeepReceipts(d: Disk, writes: seq<Write>, fuel: nat)
    requires forall w | w in writes :: w.CreateNode?
    ensures Run(d, writes, fuel).disk.receipts == d.receipts
    decreases |writes|
  {
    if writes != [] && fuel > 0 && Perform(d, writes[0]).Some? {
      NodeWritesKeepReceipts(Perform(d, writes[0]).value, writes[1..], fuel - 1);
    }
  }

  /** How far a save has got into its five commit writes. */
  function CommitDepth(ops: seq<Operation>, op: Operation, fuel: nat): nat {
    var evidence := |InsertWrites(RootOf(ops), ReceiptOf(op))|;
    if fuel <= evidence then 0 else fuel - evidence
  }

  lemma {:induction false} RunDoneUsesFuel(d: Disk, writes: seq<Write>, fuel: nat)
    ensures var o := Run(d, writes, fuel);
            && (o.status == Done ==> fuel >= |writes| && o.fuel == fuel - |writes|)
            && (o.status == Crashed ==> fuel < |writes|)
    decreases |writes|
  {
    if writes != [] && fuel > 0 && Perform(d, writes[0]).Some? {
      RunDoneUsesFuel(Perform(d, writes[0]).value, writes[1..], fuel - 1);
    }
  }

  /** A crash anywhere inside a save leaves the invariant, and the history is the old one
      or has exactly the new operation appended. */
  lemma {:induction false} SaveSurvivesCrash(d: Disk, ops: seq<Operation>, phase: Phase, op: Operation, fuel: nat)
    requires Inv(d, ops, phase) && NotAnother(phase, op) && History(ops + [op])
    ensures var o := Run(d, SaveWrites(ops, op), fuel);
            && (o.status == Conflict <==> fuel > 0 && ReceiptConflicts(d, op))
            && (ReceiptConflicts(d, op) ==> o.disk == d)
            && (!ReceiptConflicts(d, op) ==>
                  var (ops', phase') := AfterWrites(ops, phase, op, CommitDepth(ops, op, fuel));
                  && Inv(o.disk, ops', phase')
                  && (o.status == if fuel >= |SaveWrites(ops, op)| then Done else Crashed)
                  && !ReceiptConflicts(o.disk, op))
  {
    hide Inv, RootOf, TransitionAt, RecordAt, Anchored, InsertWrites, CommitWrites, Admitted, RetiresTwice;
    var evidence := InsertWrites(RootOf(ops), ReceiptOf(op));
    assert Front(ops + [op]) == ops && Last(ops + [op]) == op;
    EvidenceOutcome(d, ops, phase, op, fuel);
    RunConcat(d, evidence, CommitWrites(ops, op), fuel);
    RunDoneUsesFuel(d, evidence, fuel);
    FiveCommitWrites(ops, op);
    var o := Run(d, evidence, fuel);
    if o.status == Done {
      CommitSurvivesCrash(o.disk, ops, phase, op, o.fuel);
      CommitKeepsReceipts(o.disk, ops, op, o.fuel);
    }
  }

  lemma FiveCommitWrites(ops: seq<Operation>, op: Operation)
    ensures |CommitWrites(ops, op)| == 5
    ensures forall w | w in CommitWrites(ops, op) :: !w.CreateReceipt?
  {
    hide RecordAt, TransitionAt;
  }

  lemma CommitKeepsReceipts(d: Disk, ops: seq<Operation>, op: Operation, fuel: nat)
    ensures Run(d, CommitWrites(ops, op), fuel).disk.receipts == d.receipts
  {
    FiveCommitWrites(ops, op);
    OtherWritesKeepReceipts(d, CommitWrites(ops, op), fuel);
  }

  lemma {:induction false} OtherWritesKeepReceipts(d: Disk, writes: seq<Write>, fuel: nat)
    requires forall w | w in writes :: !w.CreateReceipt?
    ensures Run(d, writes, fuel).disk.receipts == d.receipts
    decreases |writes|
  {
    if writes != [] && fuel > 0 && Perform(d, writes[0]).Some? {
      OtherWritesKeepReceipts(Perform(d, writes[0]).value, writes[1..], fuel - 1);
    }
  }

  /** While another operation is announced, no save completes and nothing but evidence
      files changes. */
  lemma {:induction false} SaveRefusedWhilePending(d: Disk, ops: seq<Operation>, phase: Phase, op: Operation,
                                                   fuel: nat)
    requires Inv(d, ops, phase) && (phase.Prepared? || phase.Linked?) && phase.op != op
    requires Fresh(ops, op.nonce)
    ensures var o := Run(d, SaveWrites(ops, op), fuel);
            && o.status != Done
            && Inv(o.disk, ops, phase)
            && EvidenceGrew(d, o.disk)
  {
    hide Inv, RootOf, TransitionAt, RecordAt, Anchored, InsertWrites, History, ReceiptConflicts;
    var evidence := InsertWrites(RootOf(ops), ReceiptOf(op));
    var announce := CreatePending(PendingAt(ops + [op]));
    EvidenceOutcome(d, ops, phase, op, fuel);
    RunConcat(d, evidence, CommitWrites(ops, op), fuel);
    var o := Run(d, evidence, fuel);
    if o.status == Done && o.fuel > 0 {
      AnotherIsAnnounced(o.disk, ops, phase, op);
      RunHead(o.disk, announce, CommitWrites(ops, op)[1..], o.fuel);
      assert CommitWrites(ops, op) == [announce] + CommitWrites(ops, op)[1..];
    }
  }

  lemma AnotherIsAnnounced(d: Disk, ops: seq<Operation>, phase: Phase, op: Operation)
    requires Inv(d, ops, phase) && (phase.Prepared? || phase.Linked?) && phase.op != op
    ensures Perform(d, CreatePending(PendingAt(ops + [op]))) == None
  {
    hide RootOf, TransitionAt, RecordAt, Anchored, History, ChainStored, RootsAnchored, Intact, PreviousIs,
         Extends, ExtendsAnchor, StartsAt, EndsAt;
    LinksExtend(ops + [op]);
    LinksExtend(ops + [phase.op]);
  }

  /** Reconciliation asks for nothing but clearing the announcement of a committed record. */
  lemma {:induction false} ReconcileClearsCommitted(d: Disk, ops: seq<Operation>, phase: Phase)
    requires Inv(d, ops, phase)
    ensures Reconcile(d, RecordAt(ops)) == Ok(if phase == Cleanup then [UnlinkPending] else [])
  {
    hide RootOf, TransitionAt, RecordAt, Anchored, History, ChainStored, RootsAnchored, Intact, LoadTransition,
         RequireReceipt, Extends, ExtendsAnchor, PreviousIs, StartsAt, EndsAt, Matches;
    if phase == Cleanup {
      ReconcileCommitted(d, ops);
    } else if phase != Idle {
      ReconcileAnnounced(d, ops, phase);
    }
  }

  lemma ReconcileCommitted(d: Disk, ops: seq<Operation>)
    requires Inv(d, ops, Cleanup)
    ensures Reconcile(d, RecordAt(ops)) == Ok([UnlinkPending])
  {
    hide RootOf, TransitionAt, RecordAt, Anchored, History, ChainStored, RootsAnchored, Intact, LoadTransition,
         RequireReceipt, Extends, ExtendsAnchor, PreviousIs, StartsAt;
    RecordFields(ops);
    CommittedHeadLoads(d, ops, Cleanup);
    LinksExtend(ops);
    CommittedReceiptLoads(d, ops, Cleanup);
  }

  lemma ReconcileAnnounced(d: Disk, ops: seq<Operation>, phase: Phase)
    requires Inv(d, ops, phase) && (phase.Prepared? || phase.Linked?)
    ensures Reconcile(d, RecordAt(ops)) == Ok([])
  {
    hide RootOf, TransitionAt, RecordAt, Anchored, History, ChainStored, RootsAnchored, Intact, LoadTransition,
         RequireReceipt, Extends, ExtendsAnchor, PreviousIs;
    var all := ops + [phase.op];
    RecordFields(ops);
    NextLinkIsPending(d, ops, phase);
    LinksExtend(all);
    RecordFields(all);
    assert Front(all) == ops;
  }

  lemma CommittedReceiptLoads(d: Disk, ops: seq<Operation>, phase: Phase)
    requires Inv(d, ops, phase) && ops != []
    ensures RequireReceipt(d, RootOf(ops), Last(ops).nonce) == Ok(ReceiptOf(Last(ops)))
  {
    hide RootOf, TransitionAt, RecordAt, Anchored, History, ChainStored, RootsAnchored, Intact, RequireReceipt,
         Contents;
    RootIsAnchored(d, ops, phase);
    HistoryOfCommitted(ops, phase);
    RootHoldsHistory(ops);
    assert Last(ops) in ops;
    MemberReceiptLoads(d, RootOf(ops), Last(ops));
  }
}
