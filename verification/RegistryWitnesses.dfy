/** Runs that reach the two cases the registry's guards leave open. They exist for any
    identities that are different where they have to be. */
module RegistryWitnesses {
  import opened HexBits
  import opened Operations
  import opened Storage
  import opened NonceLedger
  import opened RegistryRecords
  import opened RegistryFiles

  /** One account is bound, with these retired identities. */
  predicate Sole(bindings: Bindings, account: Sha, runtime: Runtime, epoch: Sha, lineages: seq<Lineage>) {
    && bindings.Keys == {account}
    && bindings[account].runtime == runtime && bindings[account].epoch == epoch
    && bindings[account].retiredLineages == lineages
    && |bindings[account].retiredAccounts| <= |lineages|
  }

  lemma BindIsSole(op: Operation)
    requires op.OpBind?
    ensures Admitted(map[], op) && !RetiresTwice(map[], op)
    ensures Sole(Applied(map[], op), op.account, op.runtime, op.epoch, [])
  {
  }

  lemma SwitchOfSole(bindings: Bindings, op: Operation, lineages: seq<Lineage>)
    requires op.OpSwitch? && Sole(bindings, op.sourceAccount, op.runtime, op.source, lineages) && |lineages| < 10
    requires op.sourceAccount != op.targetAccount && op.source != op.target
    requires Lineage(op.targetAccount, op.runtime, op.target) !in lineages
    ensures Admitted(bindings, op)
    ensures RetiresTwice(bindings, op) <==> Lineage(op.sourceAccount, op.runtime, op.source) in lineages
    ensures Sole(Applied(bindings, op), op.targetAccount, op.runtime, op.target,
                 lineages + [Lineage(op.sourceAccount, op.runtime, op.source)])
  {
  }

  lemma AdvanceOfSole(bindings: Bindings, op: Operation, lineages: seq<Lineage>)
    requires op.OpAdvance? && Sole(bindings, op.account, op.runtime, op.source, lineages) && op.source != op.target
    ensures Admitted(bindings, op) && !RetiresTwice(bindings, op)
    ensures Sole(Applied(bindings, op), op.account, op.runtime, op.target, lineages)
  {
  }

  /** A sole binding after one more operation of its history. */
  lemma SwitchedOnce(front: seq<Operation>, op: Operation, lineages: seq<Lineage>)
    requires History(front) && |front| < 10 && Fresh(front, op.nonce) && op.OpSwitch?
    requires Sole(Replayed(front), op.sourceAccount, op.runtime, op.source, lineages) && |lineages| < 10
    requires op.sourceAccount != op.targetAccount && op.source != op.target
    requires Lineage(op.targetAccount, op.runtime, op.target) !in lineages
    requires Lineage(op.sourceAccount, op.runtime, op.source) !in lineages
    ensures History(front + [op])
    ensures Sole(Replayed(front + [op]), op.targetAccount, op.runtime, op.target,
                 lineages + [Lineage(op.sourceAccount, op.runtime, op.source)])
  {
    hide Sole, History, Admitted, RetiresTwice, Applied, Replayed, Fresh;
    SwitchOfSole(Replayed(front), op, lineages);
    HistoryExtends(front, op);
  }

  lemma AdvancedOnce(front: seq<Operation>, op: Operation, lineages: seq<Lineage>)
    requires History(front) && |front| < 10 && Fresh(front, op.nonce) && op.OpAdvance?
    requires Sole(Replayed(front), op.account, op.runtime, op.source, lineages) && op.source != op.target
    ensures History(front + [op])
    ensures Sole(Replayed(front + [op]), op.account, op.runtime, op.target, lineages)
  {
    hide Sole, History, Admitted, RetiresTwice, Applied, Replayed, Fresh;
    AdvanceOfSole(Replayed(front), op, lineages);
    HistoryExtends(front, op);
  }

  lemma BoundOnce(bind: Operation)
    requires bind.OpBind?
    ensures History([bind]) && Sole(Replayed([bind]), bind.account, bind.runtime, bind.epoch, [])
  {
    hide Sole, History, Admitted, RetiresTwice, Applied, Replayed;
    Nothing();
    BindIsSole(bind);
    HistoryExtends([], bind);
    assert [] + [bind] == [bind];
  }

  /** Away from an account and back to it. */
  lemma AwayAndBack(a: Sha, b: Sha, r: Runtime, e: seq<Sha>, n: seq<Sha>)
    requires a != b && |e| == 4 && NoDuplicates(e) && |n| == 5 && NoDuplicates(n)
    ensures var ops := [OpBind(n[0], a, r, e[0]), OpSwitch(n[1], a, b, r, e[0], e[1]),
                        OpSwitch(n[2], b, a, r, e[1], e[2])];
            History(ops) && Sole(Replayed(ops), a, r, e[2], [Lineage(a, r, e[0]), Lineage(b, r, e[1])])
  {
    hide Sole, History, Replayed;
    var bind, away := OpBind(n[0], a, r, e[0]), OpSwitch(n[1], a, b, r, e[0], e[1]);
    var back := OpSwitch(n[2], b, a, r, e[1], e[2]);
    BoundOnce(bind);
    SwitchedOnce([bind], away, []);
    assert [bind] + [away] == [bind, away] && [] + [Lineage(a, r, e[0])] == [Lineage(a, r, e[0])];
    SwitchedOnce([bind, away], back, [Lineage(a, r, e[0])]);
    assert [bind, away] + [back] == [bind, away, back];
    assert [Lineage(a, r, e[0])] + [Lineage(b, r, e[1])] == [Lineage(a, r, e[0]), Lineage(b, r, e[1])];
  }

  /** Away from an account, back to it under a new epoch, and an advance to the old epoch: the
      next switch is admitted, and retires the first lineage for the second time. */
  lemma {:induction false} RetiredLineageCanReturn(a: Sha, b: Sha, r: Runtime, e: seq<Sha>, n: seq<Sha>)
    requires a != b && |e| == 4 && NoDuplicates(e) && |n| == 5 && NoDuplicates(n)
    ensures var ops := [OpBind(n[0], a, r, e[0]), OpSwitch(n[1], a, b, r, e[0], e[1]),
                        OpSwitch(n[2], b, a, r, e[1], e[2]), OpAdvance(n[3], a, r, e[2], e[0])];
            var op := OpSwitch(n[4], a, b, r, e[0], e[3]);
            History(ops) && Fresh(ops, op.nonce) && Admitted(Replayed(ops), op) && RetiresTwice(Replayed(ops), op)
  {
    hide Sole, History, Admitted, RetiresTwice, Replayed;
    var front := [OpBind(n[0], a, r, e[0]), OpSwitch(n[1], a, b, r, e[0], e[1]), OpSwitch(n[2], b, a, r, e[1], e[2])];
    var again := OpAdvance(n[3], a, r, e[2], e[0]);
    var retired := [Lineage(a, r, e[0]), Lineage(b, r, e[1])];
    AwayAndBack(a, b, r, e, n);
    AdvancedOnce(front, again, retired);
    assert front + [again] == [front[0], front[1], front[2], again];
    assert retired[0] == Lineage(a, r, e[0]);
    SwitchOfSole(Replayed(front + [again]), OpSwitch(n[4], a, b, r, e[0], e[3]), retired);
  }

  lemma Nothing()
    ensures History([]) && Replayed([]) == map[]
  {
  }

  /** Two accounts on two runtimes; a transfer of the first onto the runtime of the second is
      admitted, and leaves both on it. */
  lemma {:induction false} TransferCanShareRuntime(a: Sha, b: Sha, r: Runtime, s: Runtime, e: Sha, f: Sha,
                                                   reason: string, n: seq<Sha>)
    requires a != b && r != s && e != f && |n| == 3 && NoDuplicates(n)
    ensures var ops := [OpBind(n[0], a, r, e), OpBind(n[1], b, s, e)];
            var op := OpTransfer(n[2], a, r, s, e, f, reason);
            && History(ops + [op])
            && OneAccountPerRuntime(Replayed(ops)) && !OneAccountPerRuntime(Replayed(ops + [op]))
  {
    hide *;
    var first, second := OpBind(n[0], a, r, e), OpBind(n[1], b, s, e);
    var op := OpTransfer(n[2], a, r, s, e, f, reason);
    ThreeNonces(n);
    TwoBinds(first, second);
    BindingOf(first);
    BindingOf(second);
    FreshAfter([first, second], n[2]);
    TransferOntoSecond(Replayed([first, second]), op, b);
    HistoryExtends([first, second], op);
    RuntimesStayExclusive(Replayed([first, second]), op);
  }

  lemma ThreeNonces(n: seq<Sha>)
    requires |n| == 3 && NoDuplicates(n)
    ensures n[0] != n[1] && n[0] != n[2] && n[1] != n[2]
  {
  }

  lemma BindingOf(op: Operation)
    requires op.OpBind?
    ensures FreshBinding(op).runtime == op.runtime && FreshBinding(op).epoch == op.epoch
    ensures FreshBinding(op).retiredRuntimes == []
  {
  }

  lemma FreshAfter(ops: seq<Operation>, nonce: Sha)
    requires |ops| <= 2 && forall op | op in ops :: op.nonce != nonce
    ensures Fresh(ops, nonce) && |ops| < MAX_NONCE_RECEIPTS
  {
  }

  /** Two accounts bound to two runtimes. */
  lemma TwoBinds(first: Operation, second: Operation)
    requires first.OpBind? && second.OpBind? && first.nonce != second.nonce
    requires first.account != second.account && first.runtime != second.runtime
    ensures History([first, second])
    ensures Replayed([first, second])
            == map[first.account := FreshBinding(first), second.account := FreshBinding(second)]
  {
    hide *;
    Nothing();
    BindIsSole(first);
    FreshAfter([], first.nonce);
    HistoryExtends([], first);
    assert [] + [first] == [first];
    SecondBind(Replayed([first]), first, second);
    FreshAfter([first], second.nonce);
    HistoryExtends([first], second);
    assert [first] + [second] == [first, second];
  }

  lemma SecondBind(bindings: Bindings, first: Operation, second: Operation)
    requires first.OpBind? && second.OpBind? && bindings == Applied(map[], first)
    requires first.account != second.account && first.runtime != second.runtime
    ensures Admitted(bindings, second) && !RetiresTwice(bindings, second)
    ensures Applied(bindings, second)
            == map[first.account := FreshBinding(first), second.account := FreshBinding(second)]
  {
  }

  lemma TransferOntoSecond(bindings: Bindings, op: Operation, other: Sha)
    requires op.OpTransfer? && op.account != other && bindings.Keys == {op.account, other}
    requires bindings[op.account].runtime == op.sourceRuntime && bindings[other].runtime == op.targetRuntime
    requires op.sourceRuntime != op.targetRuntime && op.source != op.target
    requires bindings[op.account].epoch == op.source && bindings[op.account].retiredRuntimes == []
    ensures Admitted(bindings, op) && !RetiresTwice(bindings, op) && TransfersOntoAnother(bindings, op)
    ensures OneAccountPerRuntime(bindings)
  {
  }
}
