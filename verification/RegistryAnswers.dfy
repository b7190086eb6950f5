/** What a request is answered, told from the history alone: a new one commits when its guards
    hold, the last one of its lineage is recognised, and every other used nonce is refused. */
module RegistryAnswers {
  import opened Wrappers
  import opened HexBits
  import opened Operations
  import opened NonceTrie
  import opened Storage
  import opened NonceLedger
  import opened RegistryRecords
  import opened RegistryFiles
  import opened RegistryGuards
  import opened RegistryRuns

  /** Nothing has happened to the lineage of the operation since it committed. */
  predicate IsLastOfItsLineage(ops: seq<Operation>, op: Operation) {
    && TargetAccount(op) in Lineages(ops)
    && var lineage := Lineages(ops)[TargetAccount(op)];
       lineage != [] && lineage[|lineage| - 1] == op
  }

  // ---- Every binding shows the last operation of its lineage ----

  ghost predicate AllShow(bindings: Bindings, lineages: map<Sha, seq<Operation>>) {
    && bindings.Keys == lineages.Keys
    && forall a | a in lineages :: ShowsLast(bindings, a, lineages[a])
  }

  predicate ShowsLast(bindings: Bindings, account: Sha, lineage: seq<Operation>) {
    && lineage != []
    && TargetAccount(lineage[|lineage| - 1]) == account
    && Shows(bindings, lineage[|lineage| - 1])
  }

  lemma {:induction false} LastOperationsShow(ops: seq<Operation>)
    requires History(ops)
    ensures AllShow(Replayed(ops), Lineages(ops))
    decreases |ops|
  {
    if ops == [] {
      assert Replayed(ops) == map[] && Lineages(ops) == map[];
    } else {
      hide *;
      var front, op := Front(ops), Last(ops);
      HistoryEnds(ops);
      FrontIsShorter(ops);
      LastOperationsShow(front);
      HistoryExtends(front, op);
      ShowStep(Replayed(front), front, op);
    }
  }

  lemma ShowStep(bindings: Bindings, ops: seq<Operation>, op: Operation)
    requires AllShow(bindings, Lineages(ops)) && Admitted(bindings, op)
    ensures AllShow(Applied(bindings, op), Lineages(ops + [op]))
  {
    hide Shows, Applied, Lineages, Admitted, TargetAccount, SourceAccount, ChangedBinding;
    var after, lineages, t := Applied(bindings, op), Lineages(ops + [op]), TargetAccount(op);
    AdmittedHasSource(bindings, op);
    OtherBindingsStay(bindings, ops, op);
    ChangedShowsOperation(bindings, op);
    LineageEndsWith(ops, op);
    forall a | a in lineages
      ensures ShowsLast(after, a, lineages[a])
    {
      if a != t {
        assert ShowsLast(bindings, a, Lineages(ops)[a]);
        SameBindingShows(bindings, after, lineages[a][|lineages[a]| - 1]);
      }
    }
  }

  lemma LineageEndsWith(ops: seq<Operation>, op: Operation)
    requires op.OpBind? || SourceAccount(op) in Lineages(ops)
    ensures TargetAccount(op) in Lineages(ops + [op])
    ensures var lineage := Lineages(ops + [op])[TargetAccount(op)];
            lineage != [] && lineage[|lineage| - 1] == op
  {
    assert (ops + [op])[..|ops|] == ops;
  }

  lemma SameBindingShows(bindings: Bindings, after: Bindings, op: Operation)
    requires Shows(bindings, op) && TargetAccount(op) in after
    requires after[TargetAccount(op)] == bindings[TargetAccount(op)]
    ensures Shows(after, op)
  {
  }

  // ---- The verdict ----

  /** Being recognised takes the binding that the operation itself left. */
  lemma RecognitionNeedsLast(bindings: Bindings, found: Option<Receipt>, op: Operation)
    requires Judge(bindings, Ok(found), op) == Ok(Unchanged)
    ensures found == Some(ReceiptOf(op))
    ensures TargetAccount(op) in bindings && bindings[TargetAccount(op)].lastReceipt == op
  {
  }

  lemma LastReceiptIsLast(ops: seq<Operation>, op: Operation)
    requires AllShow(Replayed(ops), Lineages(ops))
    requires TargetAccount(op) in Replayed(ops) && Replayed(ops)[TargetAccount(op)].lastReceipt == op
    ensures IsLastOfItsLineage(ops, op)
  {
    hide Replayed, Lineages;
    assert ShowsLast(Replayed(ops), TargetAccount(op), Lineages(ops)[TargetAccount(op)]);
  }

  lemma LastOneShows(ops: seq<Operation>, op: Operation)
    requires AllShow(Replayed(ops), Lineages(ops)) && IsLastOfItsLineage(ops, op)
    ensures Shows(Replayed(ops), op)
  {
    hide Replayed, Lineages, Shows;
  }

  lemma VerdictOf(ops: seq<Operation>, op: Operation)
    ensures VerdictFor(ops, op) == Judge(Replayed(ops), Ok(Member(RootOf(ops), op.nonce)), op)
  {
    hide Judge, Replayed, RootOf, Member;
  }

  /** The receipt under the root is the one of the operation that used the nonce. */
  lemma ReceiptUnderRoot(ops: seq<Operation>, op: Operation)
    requires History(ops)
    ensures Member(RootOf(ops), op.nonce) == None <==> Fresh(ops, op.nonce)
    ensures Member(RootOf(ops), op.nonce) == Some(ReceiptOf(op)) <==> op in ops
  {
    RootHoldsHistory(ops);
    hide History, RootOf, Contents;
    if op.nonce in Contents(RootOf(ops)) {
      var o :| o in ops && o.nonce == op.nonce;
      assert Contents(RootOf(ops))[op.nonce] == ReceiptOf(o);
    }
  }

  /** A request that passes its argument checks is answered with the current record if and only
      if it is the last operation of its lineage; it is committed if and only if its nonce is new
      and its guards hold; everything else is refused. */
  lemma {:induction false} VerdictIsDecided(ops: seq<Operation>, op: Operation, gates: Gates)
    requires History(ops) && Precheck(op, gates) == None
    ensures VerdictFor(ops, op) == Ok(Unchanged) <==> IsLastOfItsLineage(ops, op)
    ensures (exists bindings :: VerdictFor(ops, op) == Ok(Commit(bindings)))
            <==> Fresh(ops, op.nonce) && Admitted(Replayed(ops), op)
    ensures IsLastOfItsLineage(ops, op) ==> op in ops
  {
    hide *;
    var bindings, found := Replayed(ops), Member(RootOf(ops), op.nonce);
    VerdictOf(ops, op);
    LastOperationsShow(ops);
    ReceiptUnderRoot(ops, op);
    JudgeCommitsTheAdmitted(bindings, op, gates);
    if IsLastOfItsLineage(ops, op) {
      LastOneShows(ops, op);
      LastIsCommitted(ops, op);
      ShownIsRecognised(bindings, op);
    }
    if VerdictFor(ops, op) == Ok(Unchanged) {
      RecognitionNeedsLast(bindings, found, op);
      LastReceiptIsLast(ops, op);
    }
    if found.Some? {
      JudgeNeverReusesNonce(bindings, found.value, op);
    }
    CommitOrNot(VerdictFor(ops, op), Applied(bindings, op));
  }

  lemma CommitOrNot(verdict: Result<Verdict>, bindings: Bindings)
    ensures (exists b :: verdict == Ok(Commit(b))) <==> verdict.Ok? && verdict.value.Commit?
  {
    if verdict.Ok? && verdict.value.Commit? {
      assert verdict == Ok(Commit(verdict.value.bindings));
    }
  }

  lemma LastIsCommitted(ops: seq<Operation>, op: Operation)
    requires History(ops) && IsLastOfItsLineage(ops, op)
    ensures op in ops
  {
    HistoryIsConsistent(ops);
    hide History, Lineages, Replayed, Tells, RetiresCleanly;
    var t := TargetAccount(op);
    assert Faithful(t, Replayed(ops)[t], Lineages(ops)[t], ops);
    var lineage := Lineages(ops)[t];
    assert lineage[|lineage| - 1] in lineage;
  }

  /** A request commits exactly when its nonce is new, there is room, the history meets its guards,
      and a transfer comes with all six gates open and a stripped reason of 1 to 1000 characters. */
  lemma {:induction false} CommitsIsDecided(ops: seq<Operation>, op: Operation, gates: Gates)
    requires History(ops)
    ensures Commits(ops, op, gates) <==>
              && Fresh(ops, op.nonce) && |ops| < MAX_NONCE_RECEIPTS && Eligible(ops, op)
              && (op.OpTransfer? ==>
                    && gates.halted && gates.brokerFlat && gates.localFlat
                    && gates.noActiveOrders && gates.reconciled && gates.confirmed
                    && 0 < |op.reason| <= 1000
                    && !IsSpace(op.reason[0]) && !IsSpace(op.reason[|op.reason| - 1]))
  {
    hide *;
    AdmittedIsEligible(ops, op);
    ArgumentsPass(ops, op, gates);
    CommitsParts(ops, op, gates);
    if Precheck(op, gates) == None {
      VerdictIsDecided(ops, op, gates);
      CommitOrNot(VerdictFor(ops, op), Replayed(ops));
    }
  }

  lemma CommitsParts(ops: seq<Operation>, op: Operation, gates: Gates)
    ensures Commits(ops, op, gates) <==>
              && Precheck(op, gates) == None && |ops| < MAX_NONCE_RECEIPTS
              && VerdictFor(ops, op).Ok? && VerdictFor(ops, op).value.Commit?
  {
    hide Precheck, VerdictFor;
  }

  /** The argument checks that the guards do not imply are those of a transfer. */
  lemma ArgumentsPass(ops: seq<Operation>, op: Operation, gates: Gates)
    ensures Eligible(ops, op) ==>
              (Precheck(op, gates) == None <==>
                 (op.OpTransfer? ==>
                    && gates.halted && gates.brokerFlat && gates.localFlat
                    && gates.noActiveOrders && gates.reconciled && gates.confirmed
                    && 0 < |op.reason| <= 1000
                    && !IsSpace(op.reason[0]) && !IsSpace(op.reason[|op.reason| - 1])))
    ensures op.OpTransfer? && Precheck(op, gates) == None ==>
              && gates.halted && gates.brokerFlat && gates.localFlat
              && gates.noActiveOrders && gates.reconciled && gates.confirmed
              && 0 < |op.reason| <= 1000
              && !IsSpace(op.reason[0]) && !IsSpace(op.reason[|op.reason| - 1])
  {
    hide Stands, Lineages, IsSpace, LeftAccounts, LeftRuntimes, LeftLineages;
  }

  // ---- Refusals ----

  /** Why a request that is not the last operation of its lineage is refused, the first reason that
      applies; `None` when it is committed. */
  ghost function RefusalByHistory(ops: seq<Operation>, op: Operation): Option<Error> {
    var lineages, used := Lineages(ops), !Fresh(ops, op.nonce);
    var consumed := Some(if op in ops then NonceConsumedExactly else NonceConsumedDifferently);
    match op
    case OpBind(_, account, runtime, epoch) =>
      if used then consumed
      else if account in lineages then
        Some(Refused(if OnRuntime(ops, account, runtime) then AlreadyBound else BoundToAnotherRuntime))
      else if || account in LeftAccounts(ops) || runtime in LeftRuntimes(ops)
              || Lineage(account, runtime, epoch) in LeftLineages(ops)
      then Some(Refused(LineageRetired))
      else if exists a, e :: Stands(ops, a, runtime, e) then Some(Refused(RuntimeInUse))
      else if |lineages| >= 256 then Some(Refused(AccountsFull))
      else None
    case OpSwitch(_, from, to, runtime, source, target) =>
      if used then consumed
      else if from !in lineages then Some(Refused(BindingMissing))
      else if to in lineages then Some(Refused(TargetActive))
      else if !Stands(ops, from, runtime, source) then Some(Refused(SourceMismatch))
      else if Lineage(to, runtime, target) in LeftLineages(lineages[from]) then Some(Refused(LineageRetired))
      else if |LeftAccounts(lineages[from])| >= 1024 || |LeftLineages(lineages[from])| >= 1024
      then Some(Refused(HistoryFull))
      else None
    case OpAdvance(_, account, runtime, source, _) =>
      if account !in lineages then Some(Refused(BindingMissing))
      else if !OnRuntime(ops, account, runtime) then Some(Refused(SourceMismatch))
      else if used then consumed
      else if !Stands(ops, account, runtime, source) then Some(Refused(SourceMismatch))
      else None
    case OpTransfer(_, account, sourceRuntime, targetRuntime, source, _, _) =>
      if account !in lineages then Some(Refused(BindingMissing))
      else if used then consumed
      else if !Stands(ops, account, sourceRuntime, source) then Some(Refused(SourceMismatch))
      else if targetRuntime in LeftRuntimes(lineages[account]) then Some(Refused(LineageRetired))
      else if |LeftRuntimes(lineages[account])| >= 1024 then Some(Refused(HistoryFull))
      else None
    case _ =>
      if op.account !in lineages then Some(Refused(BindingMissing))
      else if !Stands(ops, op.account, op.runtime, op.epoch) then Some(Refused(SourceMismatch))
      else if used then Some(Refused(ConsumedElsewhere))
      else None
  }

  /** The account's lineage is on this runtime, in any epoch. */
  ghost predicate OnRuntime(ops: seq<Operation>, account: Sha, runtime: Runtime) {
    exists e :: Stands(ops, account, runtime, e)
  }

  /** Where an account stands is what its binding says. */
  lemma StandsAsBound(ops: seq<Operation>, account: Sha)
    requires Replayed(ops).Keys == Lineages(ops).Keys
    requires account in Lineages(ops) ==> Mirrors(Replayed(ops)[account], Lineages(ops)[account])
    ensures forall runtime, epoch :: Stands(ops, account, runtime, epoch) <==>
              && account in Replayed(ops)
              && Replayed(ops)[account].runtime == runtime && Replayed(ops)[account].epoch == epoch
    ensures forall runtime :: OnRuntime(ops, account, runtime) <==>
              account in Replayed(ops) && Replayed(ops)[account].runtime == runtime
  {
    hide Replayed, Lineages, RetiresItsOwn, LeftAccounts, LeftRuntimes, LeftLineages;
    if account in Replayed(ops) {
      assert Stands(ops, account, Replayed(ops)[account].runtime, Replayed(ops)[account].epoch);
    }
  }

  /** Every request is answered as the history says: recognised, refused for the first reason that
      applies, or committed. */
  lemma {:induction false} AnswerIsByHistory(ops: seq<Operation>, op: Operation)
    requires History(ops)
    ensures VerdictFor(ops, op) ==
            if IsLastOfItsLineage(ops, op) then Ok(Unchanged)
            else if RefusalByHistory(ops, op).Some? then Err(RefusalByHistory(ops, op).value)
            else Ok(Commit(Applied(Replayed(ops), op)))
  {
    hide *;
    VerdictOf(ops, op);
    LastOperationsShow(ops);
    ReceiptUnderRoot(ops, op);
    if IsLastOfItsLineage(ops, op) {
      LastOneShows(ops, op);
      LastIsCommitted(ops, op);
      ShownIsRecognised(Replayed(ops), op);
    } else {
      if TargetAccount(op) in Replayed(ops) && Replayed(ops)[TargetAccount(op)].lastReceipt == op {
        LastReceiptIsLast(ops, op);
      }
      EachMirrors(ops);
      BindingsRetireTheirOwn(ops);
      RefusedByGuards(ops, op, Member(RootOf(ops), op.nonce));
    }
  }

  lemma RefusedByGuards(ops: seq<Operation>, op: Operation, found: Option<Receipt>)
    requires Replayed(ops).Keys == Lineages(ops).Keys && NoneLost(Lineages(ops), ops)
    requires forall a | a in Lineages(ops) :: Mirrors(Replayed(ops)[a], Lineages(ops)[a])
    requires found == None <==> Fresh(ops, op.nonce)
    requires found == Some(ReceiptOf(op)) <==> op in ops
    requires TargetAccount(op) in Replayed(ops) ==> Replayed(ops)[TargetAccount(op)].lastReceipt != op
    ensures Judge(Replayed(ops), Ok(found), op)
         == if RefusalByHistory(ops, op).Some? then Err(RefusalByHistory(ops, op).value)
            else Ok(Commit(Applied(Replayed(ops), op)))
  {
    hide *;
    SourceIs(op);
    SameSize(Replayed(ops), Lineages(ops));
    StandsAsBound(ops, SourceAccount(op));
    if SourceAccount(op) in Lineages(ops) {
      MirrorsAt(Replayed(ops)[SourceAccount(op)], Lineages(ops)[SourceAccount(op)]);
      MirrorSizes(Replayed(ops)[SourceAccount(op)], Lineages(ops)[SourceAccount(op)]);
    }
    match op
    case OpBind(_, account, runtime, epoch) =>
      RetiredSomewhere(ops, account, runtime, epoch);
      TakenStands(ops, runtime);
      BindRefusals(ops, op, found);
    case OpSwitch(_, _, _, _, _, _) => SwitchRefusals(ops, op, found);
    case OpAdvance(_, _, _, _, _) => AdvanceRefusals(ops, op, found);
    case OpTransfer(_, _, _, _, _, _, _) => TransferRefusals(ops, op, found);
    case _ => AcknowledgementRefusals(ops, op, found);
  }

  lemma SourceIs(op: Operation)
    ensures SourceAccount(op) == if op.OpSwitch? then op.sourceAccount else op.account
    ensures !op.OpBind? && !op.OpSwitch? && !op.OpAdvance? && !op.OpTransfer? <==> IsAcknowledgement(op)
  {
  }

  lemma MirrorSizes(b: Binding, lineage: seq<Operation>)
    requires Mirrors(b, lineage)
    ensures |b.retiredAccounts| == |LeftAccounts(lineage)|
    ensures |b.retiredRuntimes| == |LeftRuntimes(lineage)|
    ensures |b.retiredLineages| == |LeftLineages(lineage)|
  {
    hide RetiresItsOwn, LeftAccounts, LeftRuntimes, LeftLineages;
  }

  lemma BindRefusals(ops: seq<Operation>, op: Operation, found: Option<Receipt>)
    requires op.OpBind? && Replayed(ops).Keys == Lineages(ops).Keys && |Replayed(ops)| == |Lineages(ops)|
    requires found == None <==> Fresh(ops, op.nonce)
    requires found == Some(ReceiptOf(op)) <==> op in ops
    requires TargetAccount(op) in Replayed(ops) ==> Replayed(ops)[TargetAccount(op)].lastReceipt != op
    requires IsRetired(Replayed(ops), op.account, op.runtime, op.epoch)
             <==> || op.account in LeftAccounts(ops) || op.runtime in LeftRuntimes(ops)
                  || Lineage(op.account, op.runtime, op.epoch) in LeftLineages(ops)
    requires RuntimeTaken(Replayed(ops), op.runtime) <==> exists a, e :: Stands(ops, a, op.runtime, e)
    requires OnRuntime(ops, op.account, op.runtime) <==>
               op.account in Replayed(ops) && Replayed(ops)[op.account].runtime == op.runtime
    ensures Judge(Replayed(ops), Ok(found), op)
         == if RefusalByHistory(ops, op).Some? then Err(RefusalByHistory(ops, op).value)
            else Ok(Commit(Applied(Replayed(ops), op)))
  {
    hide Replayed, Lineages, Stands, OnRuntime, IsRetired, RuntimeTaken, LeftAccounts, LeftRuntimes, LeftLineages,
         Fresh, Applied;
  }

  lemma SwitchRefusals(ops: seq<Operation>, op: Operation, found: Option<Receipt>)
    requires op.OpSwitch? && Replayed(ops).Keys == Lineages(ops).Keys
    requires found == None <==> Fresh(ops, op.nonce)
    requires found == Some(ReceiptOf(op)) <==> op in ops
    requires TargetAccount(op) in Replayed(ops) ==> Replayed(ops)[TargetAccount(op)].lastReceipt != op
    requires Stands(ops, op.sourceAccount, op.runtime, op.source) <==>
               && op.sourceAccount in Replayed(ops)
               && Replayed(ops)[op.sourceAccount].runtime == op.runtime
               && Replayed(ops)[op.sourceAccount].epoch == op.source
    requires op.sourceAccount in Lineages(ops) ==>
               var b, lineage := Replayed(ops)[op.sourceAccount], Lineages(ops)[op.sourceAccount];
               && (forall x :: x in b.retiredLineages <==> x in LeftLineages(lineage))
               && |b.retiredAccounts| == |LeftAccounts(lineage)| && |b.retiredLineages| == |LeftLineages(lineage)|
    ensures Judge(Replayed(ops), Ok(found), op)
         == if RefusalByHistory(ops, op).Some? then Err(RefusalByHistory(ops, op).value)
            else Ok(Commit(Applied(Replayed(ops), op)))
  {
    hide Replayed, Lineages, Stands, OnRuntime, IsRetired, RuntimeTaken, LeftAccounts, LeftRuntimes, LeftLineages,
         Fresh, Applied;
  }

  lemma AdvanceRefusals(ops: seq<Operation>, op: Operation, found: Option<Receipt>)
    requires op.OpAdvance? && Replayed(ops).Keys == Lineages(ops).Keys
    requires found == None <==> Fresh(ops, op.nonce)
    requires found == Some(ReceiptOf(op)) <==> op in ops
    requires TargetAccount(op) in Replayed(ops) ==> Replayed(ops)[TargetAccount(op)].lastReceipt != op
    requires forall e :: Stands(ops, op.account, op.runtime, e) <==>
               && op.account in Replayed(ops)
               && Replayed(ops)[op.account].runtime == op.runtime && Replayed(ops)[op.account].epoch == e
    requires OnRuntime(ops, op.account, op.runtime) <==>
               op.account in Replayed(ops) && Replayed(ops)[op.account].runtime == op.runtime
    ensures Judge(Replayed(ops), Ok(found), op)
         == if RefusalByHistory(ops, op).Some? then Err(RefusalByHistory(ops, op).value)
            else Ok(Commit(Applied(Replayed(ops), op)))
  {
    hide Replayed, Lineages, Stands, OnRuntime, IsRetired, RuntimeTaken, LeftAccounts, LeftRuntimes, LeftLineages,
         Fresh, Applied;
  }

  lemma TransferRefusals(ops: seq<Operation>, op: Operation, found: Option<Receipt>)
    requires op.OpTransfer? && Replayed(ops).Keys == Lineages(ops).Keys
    requires found == None <==> Fresh(ops, op.nonce)
    requires found == Some(ReceiptOf(op)) <==> op in ops
    requires TargetAccount(op) in Replayed(ops) ==> Replayed(ops)[TargetAccount(op)].lastReceipt != op
    requires Stands(ops, op.account, op.sourceRuntime, op.source) <==>
               && op.account in Replayed(ops)
               && Replayed(ops)[op.account].runtime == op.sourceRuntime
               && Replayed(ops)[op.account].epoch == op.source
    requires op.account in Lineages(ops) ==>
               var b, lineage := Replayed(ops)[op.account], Lineages(ops)[op.account];
               && (forall x :: x in b.retiredRuntimes <==> x in LeftRuntimes(lineage))
               && |b.retiredRuntimes| == |LeftRuntimes(lineage)|
    ensures Judge(Replayed(ops), Ok(found), op)
         == if RefusalByHistory(ops, op).Some? then Err(RefusalByHistory(ops, op).value)
            else Ok(Commit(Applied(Replayed(ops), op)))
  {
    hide Replayed, Lineages, Stands, OnRuntime, IsRetired, RuntimeTaken, LeftAccounts, LeftRuntimes, LeftLineages,
         Fresh, Applied;
  }

  lemma AcknowledgementRefusals(ops: seq<Operation>, op: Operation, found: Option<Receipt>)
    requires IsAcknowledgement(op) && Replayed(ops).Keys == Lineages(ops).Keys
    requires found == None <==> Fresh(ops, op.nonce)
    requires found == Some(ReceiptOf(op)) <==> op in ops
    requires TargetAccount(op) in Replayed(ops) ==> Replayed(ops)[TargetAccount(op)].lastReceipt != op
    requires Stands(ops, op.account, op.runtime, op.epoch) <==>
               && op.account in Replayed(ops)
               && Replayed(ops)[op.account].runtime == op.runtime && Replayed(ops)[op.account].epoch == op.epoch
    ensures Judge(Replayed(ops), Ok(found), op)
         == if RefusalByHistory(ops, op).Some? then Err(RefusalByHistory(ops, op).value)
            else Ok(Commit(Applied(Replayed(ops), op)))
  {
    hide Replayed, Lineages, Stands, OnRuntime, IsRetired, RuntimeTaken, LeftAccounts, LeftRuntimes, LeftLineages,
         Fresh, Applied;
  }

  lemma SameSize<K, V, W>(a: map<K, V>, b: map<K, W>)
    requires a.Keys == b.Keys
    ensures |a| == |b|
  {
    assert |a| == |a.Keys| && |b| == |b.Keys|;
  }

  // ---- Used nonces ----

  /** A request with a used nonce, late replays included, is answered with the current record if
      and only if nothing happened to its lineage since; otherwise with an error. Either way it
      writes nothing: at most a finished commit's announcement is cleared on the way. */
  lemma {:induction false} ReplayChangesNothing(d: Disk, ops: seq<Operation>, phase: Phase, op: Operation,
                                                gates: Gates, fuel: nat)
    requires Inv(d, ops, phase) && !Fresh(ops, op.nonce)
    ensures var answer := PlanFor(ops, phase, op, gates).answer;
            && (answer == Ok(RecordAt(ops)) <==> Precheck(op, gates) == None && IsLastOfItsLineage(ops, op))
            && (answer.Ok? ==> answer == Ok(RecordAt(ops)))
    ensures var after := DiskAfter(d, ops, phase, op, gates, fuel).disk;
            after == d || (phase == Cleanup && after == d.(pending := None))
  {
    hide *;
    HistoryUnderInv(d, ops, phase);
    if Precheck(op, gates) == None {
      VerdictIsDecided(ops, op, gates);
      CommitOrNot(VerdictFor(ops, op), Replayed(ops));
    }
    PlanOfUsed(d, ops, phase, op, gates, fuel);
  }

  lemma PlanOfUsed(d: Disk, ops: seq<Operation>, phase: Phase, op: Operation, gates: Gates, fuel: nat)
    requires Precheck(op, gates) == None ==> !(VerdictFor(ops, op).Ok? && VerdictFor(ops, op).value.Commit?)
    ensures var answer := PlanFor(ops, phase, op, gates).answer;
            && (answer == Ok(RecordAt(ops)) <==> Precheck(op, gates) == None && VerdictFor(ops, op) == Ok(Unchanged))
            && (answer.Ok? ==> answer == Ok(RecordAt(ops)))
    ensures var after := DiskAfter(d, ops, phase, op, gates, fuel).disk;
            after == d || (phase == Cleanup && after == d.(pending := None))
  {
    hide Precheck, VerdictFor, RecordAt;
    Unlinked(d, fuel);
    assert Run(d, [], fuel).disk == d;
  }
}
