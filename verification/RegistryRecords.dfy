/** The registry's bindings and what each lifecycle request does to them. */
module RegistryRecords {
  import opened Wrappers
  import opened HexBits
  import opened Operations
  import opened Storage
  import opened NonceLedger

  const MAX_ACCOUNTS := 256
  const MAX_OPERATION_HISTORY := 1024
  const MAX_INLINE_OPERATION_HEADS := 8

  type Bindings = map<Sha, Binding>

  /** The mechanical gates of a transfer, gathered by the caller. */
  datatype Gates = Gates(halted: bool, brokerFlat: bool, localFlat: bool, noActiveOrders: bool,
                         reconciled: bool, confirmed: bool)

  datatype Verdict = Unchanged | Commit(bindings: Bindings)

  predicate NoDuplicates<T(==)>(items: seq<T>) {
    forall i, j | 0 <= i < j < |items| :: items[i] != items[j]
  }

  /** `items[-n:]` */
  function LastOf<T>(items: seq<T>, n: nat): (r: seq<T>)
  {
    if |items| <= n then items else items[|items| - n..]
  }

  predicate LastKindIs(b: Binding, kind: Kind) {
    b.kinds != [] && b.kinds[|b.kinds| - 1] == kind
  }

  /** What `str.strip` takes off. */
  predicate IsSpace(c: char) {
    var code := c as int;
    || code == 0x20 || 0x09 <= code <= 0x0d || 0x1c <= code <= 0x1f || code == 0x85 || code == 0xa0
    || code == 0x1680 || 0x2000 <= code <= 0x200a || code == 0x2028 || code == 0x2029 || code == 0x202f
    || code == 0x205f || code == 0x3000
  }

  /** A reason equals its own stripped form, is not empty and is not too long. */
  predicate ReasonValid(reason: string) {
    0 < |reason| <= 1000 && !IsSpace(reason[0]) && !IsSpace(reason[|reason| - 1])
  }

  predicate GatesOpen(gates: Gates) {
    && gates.halted && gates.brokerFlat && gates.localFlat
    && gates.noActiveOrders && gates.reconciled && gates.confirmed
  }

  /** The binding an operation starts a lineage with. */
  function FreshBinding(op: Operation): Binding {
    Binding(TargetAccount(op), TargetRuntime(op), TargetEpoch(op), op.nonce, [op.nonce], [KindOf(op)], op, 1,
            [], [], [])
  }

  /** `_bound_operation_heads` and `_advance_binding_authority` on an existing binding. */
  function Advanced(b: Binding, op: Operation): Binding {
    b.(account := TargetAccount(op), runtime := TargetRuntime(op), epoch := TargetEpoch(op),
       lastOperation := op.nonce,
       history := LastOf(b.history + [op.nonce], MAX_INLINE_OPERATION_HEADS),
       kinds := LastOf(b.kinds + [KindOf(op)], MAX_INLINE_OPERATION_HEADS),
       lastReceipt := op,
       revision := b.revision + 1)
  }

  /** `dict.fromkeys((*items, item))` on a duplicate-free tuple. */
  function AppendOnce<T(==)>(items: seq<T>, item: T): seq<T> {
    if item in items then items else items + [item]
  }

  /** The account whose binding an operation works on. */
  function SourceAccount(op: Operation): Sha {
    if op.OpSwitch? then op.sourceAccount else op.account
  }

  /** The one binding an operation leaves changed. */
  function ChangedBinding(bindings: Bindings, op: Operation): Binding
    requires op.OpBind? || SourceAccount(op) in bindings
  {
    if op.OpBind? then FreshBinding(op)
    else
      var b := bindings[SourceAccount(op)];
      Advanced(b, op).(
        retiredRuntimes := if op.OpTransfer? then b.retiredRuntimes + [op.sourceRuntime] else b.retiredRuntimes,
        retiredAccounts := if op.OpSwitch? then AppendOnce(b.retiredAccounts, op.sourceAccount) else b.retiredAccounts,
        retiredLineages := if op.OpSwitch? then b.retiredLineages + [Lineage(op.sourceAccount, op.runtime, op.source)]
                           else b.retiredLineages)
  }

  /** The bindings after an operation: the source entry makes way for the changed one,
      which a switch puts under another account. */
  function Applied(bindings: Bindings, op: Operation): Bindings {
    if op.OpBind? then bindings[op.account := FreshBinding(op)]
    else if SourceAccount(op) !in bindings then bindings
    else (bindings - {SourceAccount(op)})[TargetAccount(op) := ChangedBinding(bindings, op)]
  }

  ghost function RetiredAccounts(bindings: Bindings): set<Sha> {
    set a, x | a in bindings && x in bindings[a].retiredAccounts :: x
  }

  ghost function RetiredRuntimes(bindings: Bindings): set<Runtime> {
    set a, x | a in bindings && x in bindings[a].retiredRuntimes :: x
  }

  ghost function RetiredLineages(bindings: Bindings): set<Lineage> {
    set a, x | a in bindings && x in bindings[a].retiredLineages :: x
  }

  predicate IsRetired(bindings: Bindings, account: Sha, runtime: Runtime, epoch: Sha) {
    exists a | a in bindings ::
      || account in bindings[a].retiredAccounts
      || runtime in bindings[a].retiredRuntimes
      || Lineage(account, runtime, epoch) in bindings[a].retiredLineages
  }

  predicate RuntimeTaken(bindings: Bindings, runtime: Runtime) {
    exists a | a in bindings :: bindings[a].runtime == runtime
  }

  /** An exact retry finds its own receipt under the root. */
  function Retried(found: Result<Option<Receipt>>, op: Operation): Result<Verdict> {
    var existing :- found;
    if existing == None then Err(NotAMember)
    else if existing != Some(ReceiptOf(op)) then Err(Refused(ReceiptChanged))
    else Ok(Unchanged)
  }

  /** `_require_nonce_unused_unlocked`, then the remaining guards. */
  function IfUnused(found: Result<Option<Receipt>>, op: Operation, next: Result<Verdict>): Result<Verdict> {
    var existing :- found;
    if existing == None then next
    else Err(if existing == Some(ReceiptOf(op)) then NonceConsumedExactly else NonceConsumedDifferently)
  }

  predicate LastActionIs(b: Binding, op: Operation) {
    b.lastOperation == op.nonce && LastKindIs(b, KindOf(op)) && b.lastReceipt == op
  }

  /** The checks a lifecycle method makes on its arguments before it takes the lock. */
  function Precheck(op: Operation, gates: Gates): Option<Refusal> {
    match op
    case OpSwitch(_, sourceAccount, targetAccount, _, source, target) =>
      if sourceAccount == targetAccount || source == target then Some(NothingChanges) else None
    case OpAdvance(_, _, _, source, target) =>
      if source == target then Some(NothingChanges) else None
    case OpTransfer(_, _, sourceRuntime, targetRuntime, source, target, reason) =>
      if !GatesOpen(gates) then Some(GatesClosed)
      else if !ReasonValid(reason) then Some(ReasonInvalid)
      else if sourceRuntime == targetRuntime || source == target then Some(NothingChanges)
      else None
    case _ => None
  }

  function JudgeBind(bindings: Bindings, found: Result<Option<Receipt>>, op: Operation): Result<Verdict>
    requires op.OpBind?
  {
    var bound := op.account in bindings;
    if bound && bindings[op.account].runtime == op.runtime && bindings[op.account].epoch == op.epoch &&
       LastActionIs(bindings[op.account], op)
    then Retried(found, op)
    else IfUnused(found, op,
      if bound then
        Err(Refused(if bindings[op.account].runtime != op.runtime then BoundToAnotherRuntime else AlreadyBound))
      else if IsRetired(bindings, op.account, op.runtime, op.epoch) then Err(Refused(LineageRetired))
      else if RuntimeTaken(bindings, op.runtime) then Err(Refused(RuntimeInUse))
      else if |bindings| >= MAX_ACCOUNTS then Err(Refused(AccountsFull))
      else Ok(Commit(Applied(bindings, op))))
  }

  function JudgeSwitch(bindings: Bindings, found: Result<Option<Receipt>>, op: Operation): Result<Verdict>
    requires op.OpSwitch?
  {
    if
      && op.targetAccount in bindings
      && var t := bindings[op.targetAccount];
         && t.runtime == op.runtime && t.epoch == op.target && LastActionIs(t, op)
         && op.sourceAccount in t.retiredAccounts
         && Lineage(op.sourceAccount, op.runtime, op.source) in t.retiredLineages
    then Retried(found, op)
    else IfUnused(found, op,
      if op.sourceAccount !in bindings then Err(Refused(BindingMissing))
      else if op.targetAccount in bindings then Err(Refused(TargetActive))
      else
        var s := bindings[op.sourceAccount];
        if s.runtime != op.runtime || s.epoch != op.source then Err(Refused(SourceMismatch))
        else if Lineage(op.targetAccount, op.runtime, op.target) in s.retiredLineages then Err(Refused(LineageRetired))
        else if |s.retiredAccounts| >= MAX_OPERATION_HISTORY || |s.retiredLineages| >= MAX_OPERATION_HISTORY
        then Err(Refused(HistoryFull))
        else Ok(Commit(Applied(bindings, op))))
  }

  function JudgeAdvance(bindings: Bindings, found: Result<Option<Receipt>>, op: Operation): Result<Verdict>
    requires op.OpAdvance?
  {
    if op.account !in bindings then Err(Refused(BindingMissing))
    else
      var b := bindings[op.account];
      if b.runtime != op.runtime then Err(Refused(SourceMismatch))
      else if b.epoch == op.target && LastActionIs(b, op) then Retried(found, op)
      else IfUnused(found, op,
        if b.epoch != op.source then Err(Refused(SourceMismatch))
        else Ok(Commit(Applied(bindings, op))))
  }

  /** The three operations that consume a nonce without changing the lineage. */
  predicate IsAcknowledgement(op: Operation) {
    op.OpAcknowledge? || op.OpRecover? || op.OpContinue?
  }

  function JudgeAcknowledgement(bindings: Bindings, found: Result<Option<Receipt>>, op: Operation): Result<Verdict>
    requires IsAcknowledgement(op)
  {
    if op.account !in bindings then Err(Refused(BindingMissing))
    else
      var b := bindings[op.account];
      if b.runtime != op.runtime || b.epoch != op.epoch then Err(Refused(SourceMismatch))
      else
        var existing :- found;
        if existing == None then Ok(Commit(Applied(bindings, op)))
        else if LastActionIs(b, op) && existing == Some(ReceiptOf(op)) then Ok(Unchanged)
        else Err(Refused(ConsumedElsewhere))
  }

  function JudgeTransfer(bindings: Bindings, found: Result<Option<Receipt>>, op: Operation): Result<Verdict>
    requires op.OpTransfer?
  {
    if op.account !in bindings then Err(Refused(BindingMissing))
    else
      var b := bindings[op.account];
      if b.runtime == op.targetRuntime && b.epoch == op.target && LastActionIs(b, op) &&
         op.sourceRuntime in b.retiredRuntimes
      then Retried(found, op)
      else IfUnused(found, op,
        if b.runtime != op.sourceRuntime || b.epoch != op.source then Err(Refused(SourceMismatch))
        else if op.targetRuntime in b.retiredRuntimes then Err(Refused(LineageRetired))
        else if |b.retiredRuntimes| >= MAX_OPERATION_HISTORY then Err(Refused(HistoryFull))
        else Ok(Commit(Applied(bindings, op))))
  }

  /** The decision a lifecycle method reaches from the bindings it loaded and the answer
      of the nonce lookup under the loaded root. */
  function Judge(bindings: Bindings, found: Result<Option<Receipt>>, op: Operation): Result<Verdict> {
    match op
    case OpBind(_, _, _, _) => JudgeBind(bindings, found, op)
    case OpSwitch(_, _, _, _, _, _) => JudgeSwitch(bindings, found, op)
    case OpAdvance(_, _, _, _, _) => JudgeAdvance(bindings, found, op)
    case OpTransfer(_, _, _, _, _, _, _) => JudgeTransfer(bindings, found, op)
    case _ => JudgeAcknowledgement(bindings, found, op)
  }

  /** What `_decode_binding` accepts. */
  predicate DecodableBinding(b: Binding) {
    && b.history != [] && |b.kinds| == |b.history|
    && |b.retiredRuntimes| <= MAX_OPERATION_HISTORY
    && |b.retiredAccounts| <= MAX_OPERATION_HISTORY
    && |b.retiredLineages| <= MAX_OPERATION_HISTORY
    && (forall i | 0 < i < |b.kinds| :: b.kinds[i] != Bind)
    && NoDuplicates(b.history) && NoDuplicates(b.retiredRuntimes)
    && NoDuplicates(b.retiredAccounts) && NoDuplicates(b.retiredLineages)
    && b.history[|b.history| - 1] == b.lastOperation
    && b.revision > 0 && b.revision >= |b.history|
    && |b.history| <= MAX_INLINE_OPERATION_HEADS
  }

  predicate DecodableBindings(bindings: Bindings) {
    && |bindings| <= MAX_ACCOUNTS
    && (forall a | a in bindings :: bindings[a].account == a && DecodableBinding(bindings[a]))
  }

  /** What `_decode_record` accepts. */
  predicate Decodable(r: Record) {
    && r.sequence > 0
    && (r.sequence == 1) == (r.parent == None)
    && DecodableBindings(r.bindings)
  }

  /** The one case in which a committed record cannot be decoded again: a switch that
      retires a lineage its binding retired before, after an epoch advance went back. */
  predicate RetiresTwice(bindings: Bindings, op: Operation) {
    && op.OpSwitch?
    && op.sourceAccount in bindings
    && Lineage(op.sourceAccount, op.runtime, op.source) in bindings[op.sourceAccount].retiredLineages
  }

  // ---- Replay ----

  /** The operations of each active lineage, in order. */
  function Lineages(ops: seq<Operation>): map<Sha, seq<Operation>> {
    if ops == [] then map[]
    else
      var before, op := Lineages(ops[..|ops| - 1]), ops[|ops| - 1];
      if op.OpBind? then before[op.account := [op]]
      else if SourceAccount(op) !in before then before
      else (before - {SourceAccount(op)})[TargetAccount(op) := before[SourceAccount(op)] + [op]]
  }

  /** The bindings a history leaves behind. */
  function Replayed(ops: seq<Operation>): Bindings {
    if ops == [] then map[] else Applied(Replayed(ops[..|ops| - 1]), ops[|ops| - 1])
  }

  function Nonces(ops: seq<Operation>): seq<Sha> {
    seq(|ops|, i requires 0 <= i < |ops| => ops[i].nonce)
  }

  function Kinds(ops: seq<Operation>): seq<Kind> {
    seq(|ops|, i requires 0 <= i < |ops| => KindOf(ops[i]))
  }

  /** A binding is exactly what its lineage's operations make it. */
  ghost predicate Tells(b: Binding, lineage: seq<Operation>) {
    && lineage != []
    && (var last := lineage[|lineage| - 1];
        && b.lastReceipt == last && b.lastOperation == last.nonce
        && b.account == TargetAccount(last) && b.runtime == TargetRuntime(last) && b.epoch == TargetEpoch(last))
    && b.revision == |lineage|
    && b.history == LastOf(Nonces(lineage), MAX_INLINE_OPERATION_HEADS)
    && b.kinds == LastOf(Kinds(lineage), MAX_INLINE_OPERATION_HEADS)
    && (forall i | 0 < i < |lineage| :: KindOf(lineage[i]) != Bind)
    && NoDuplicates(Nonces(lineage))
  }

  /** The bookkeeping of retired identities within one binding. */
  ghost predicate RetiresCleanly(b: Binding) {
    && |b.retiredRuntimes| <= MAX_OPERATION_HISTORY && NoDuplicates(b.retiredRuntimes)
    && |b.retiredAccounts| <= MAX_OPERATION_HISTORY && NoDuplicates(b.retiredAccounts)
    && |b.retiredLineages| <= MAX_OPERATION_HISTORY && NoDuplicates(b.retiredLineages)
    && b.runtime !in b.retiredRuntimes
  }

  ghost predicate Consistent(bindings: Bindings, ops: seq<Operation>) {
    && |bindings| <= MAX_ACCOUNTS
    && bindings.Keys == Lineages(ops).Keys
    && (forall a | a in bindings :: Faithful(a, bindings[a], Lineages(ops)[a], ops))
  }

  ghost predicate Faithful(account: Sha, b: Binding, lineage: seq<Operation>, ops: seq<Operation>) {
    && b.account == account
    && Tells(b, lineage)
    && RetiresCleanly(b)
    && (forall o | o in lineage :: o in ops)
  }

  lemma LastOfLonger<T>(items: seq<T>, x: T, n: nat)
    requires n > 0
    ensures LastOf(LastOf(items, n) + [x], n) == LastOf(items + [x], n)
  {
  }

  lemma TellsOneMore(b: Binding, lineage: seq<Operation>, op: Operation, after: Binding)
    requires Tells(b, lineage) && !op.OpBind?
    requires forall o | o in lineage :: o.nonce != op.nonce
    requires after == Advanced(b, op).(retiredRuntimes := after.retiredRuntimes,
                                       retiredAccounts := after.retiredAccounts,
                                       retiredLineages := after.retiredLineages)
    ensures Tells(after, lineage + [op])
  {
    assert Nonces(lineage + [op]) == Nonces(lineage) + [op.nonce];
    assert Kinds(lineage + [op]) == Kinds(lineage) + [KindOf(op)];
    LastOfLonger(Nonces(lineage), op.nonce, MAX_INLINE_OPERATION_HEADS);
    LastOfLonger(Kinds(lineage), KindOf(op), MAX_INLINE_OPERATION_HEADS);
    forall i | 0 < i < |lineage + [op]|
      ensures KindOf((lineage + [op])[i]) != Bind
    {
      assert i < |lineage| ==> (lineage + [op])[i] == lineage[i];
    }
    forall i, j | 0 <= i < j < |Nonces(lineage + [op])|
      ensures Nonces(lineage + [op])[i] != Nonces(lineage + [op])[j]
    {
      assert lineage[i] in lineage;
      assert j < |lineage| ==> Nonces(lineage)[i] != Nonces(lineage)[j];
    }
  }

  /** A binding told by its lineage decodes exactly when its retired lists do. */
  lemma ToldBindingDecodes(b: Binding, lineage: seq<Operation>)
    requires Tells(b, lineage)
    ensures DecodableBinding(b) <==>
            && |b.retiredRuntimes| <= MAX_OPERATION_HISTORY && NoDuplicates(b.retiredRuntimes)
            && |b.retiredAccounts| <= MAX_OPERATION_HISTORY && NoDuplicates(b.retiredAccounts)
            && |b.retiredLineages| <= MAX_OPERATION_HISTORY && NoDuplicates(b.retiredLineages)
  {
    var nonces, kinds := Nonces(lineage), Kinds(lineage);
    forall i, j | 0 <= i < j < |b.history|
      ensures b.history[i] != b.history[j]
    {
      var skipped := |nonces| - |b.history|;
      assert b.history[i] == nonces[skipped + i] && b.history[j] == nonces[skipped + j];
    }
    forall i | 0 < i < |b.kinds|
      ensures b.kinds[i] != Bind
    {
      var skipped := |kinds| - |b.kinds|;
      assert b.kinds[i] == kinds[skipped + i];
    }
  }

  lemma AppendKeepsNoDuplicates<T>(items: seq<T>, x: T)
    requires NoDuplicates(items)
    ensures NoDuplicates(items + [x]) <==> x !in items
  {
    if x in items {
      var i :| 0 <= i < |items| && items[i] == x;
      assert (items + [x])[i] == (items + [x])[|items|];
    }
  }

  /** The guards an operation has passed once it is to be committed. */
  ghost predicate Admitted(bindings: Bindings, op: Operation) {
    if op.OpBind? then
      && op.account !in bindings && |bindings| < MAX_ACCOUNTS
      && !RuntimeTaken(bindings, op.runtime)
      && !IsRetired(bindings, op.account, op.runtime, op.epoch)
    else
      && SourceAccount(op) in bindings
      && var b := bindings[SourceAccount(op)];
         && b.runtime == (if op.OpTransfer? then op.sourceRuntime else op.runtime)
         && b.epoch == (if IsAcknowledgement(op) then op.epoch else op.source)
         && (op.OpSwitch? ==>
               && op.targetAccount !in bindings && op.sourceAccount != op.targetAccount && op.source != op.target
               && |b.retiredAccounts| < MAX_OPERATION_HISTORY && |b.retiredLineages| < MAX_OPERATION_HISTORY
               && Lineage(op.targetAccount, op.runtime, op.target) !in b.retiredLineages)
         && (op.OpAdvance? ==> op.source != op.target)
         && (op.OpTransfer? ==>
               && |b.retiredRuntimes| < MAX_OPERATION_HISTORY
               && op.targetRuntime !in b.retiredRuntimes
               && op.targetRuntime != op.sourceRuntime && op.source != op.target)
  }

  /** With an unused nonce, a request that passes its argument checks is committed exactly
      when its guards hold, and then it commits the applied bindings. */
  lemma {:induction false} JudgeCommitsTheAdmitted(bindings: Bindings, op: Operation, gates: Gates)
    requires Precheck(op, gates) == None
    ensures Judge(bindings, Ok(None), op).Ok? <==> Admitted(bindings, op)
    ensures Admitted(bindings, op) ==> Judge(bindings, Ok(None), op) == Ok(Commit(Applied(bindings, op)))
  {
  }

  /** A request whose nonce is already a member never commits. */
  lemma {:induction false} JudgeNeverReusesNonce(bindings: Bindings, used: Receipt, op: Operation)
    ensures Judge(bindings, Ok(Some(used)), op).Ok? ==>
              Judge(bindings, Ok(Some(used)), op).value == Unchanged && used == ReceiptOf(op)
  {
  }

  /** A committed operation, asked for again, is recognised as done. */
  lemma {:induction false} CommittedOperationIsRecognised(bindings: Bindings, op: Operation)
    requires Admitted(bindings, op)
    ensures Judge(Applied(bindings, op), Ok(Some(ReceiptOf(op))), op) == Ok(Unchanged)
  {
    hide *;
    ChangedShowsOperation(bindings, op);
    ShownIsRecognised(Applied(bindings, op), op);
  }

  /** Everything that recognises an operation is in the binding it leaves. */
  predicate Shows(bindings: Bindings, op: Operation) {
    && TargetAccount(op) in bindings
    && var b := bindings[TargetAccount(op)];
       && b.runtime == TargetRuntime(op) && b.epoch == TargetEpoch(op) && LastActionIs(b, op)
       && (op.OpSwitch? ==>
             && op.sourceAccount in b.retiredAccounts
             && Lineage(op.sourceAccount, op.runtime, op.source) in b.retiredLineages)
       && (op.OpTransfer? ==> op.sourceRuntime in b.retiredRuntimes)
  }

  lemma ChangedShowsOperation(bindings: Bindings, op: Operation)
    requires Admitted(bindings, op)
    ensures Shows(Applied(bindings, op), op)
  {
    var after := Applied(bindings, op);
    assert TargetAccount(op) in after && after[TargetAccount(op)] == ChangedBinding(bindings, op);
  }

  lemma ShownIsRecognised(bindings: Bindings, op: Operation)
    requires Shows(bindings, op)
    ensures Judge(bindings, Ok(Some(ReceiptOf(op))), op) == Ok(Unchanged)
  {
    hide LastActionIs;
  }

  lemma ChangedBindingRetires(bindings: Bindings, ops: seq<Operation>, op: Operation)
    requires Consistent(bindings, ops) && Admitted(bindings, op)
    ensures var after := ChangedBinding(bindings, op);
            && |after.retiredRuntimes| <= MAX_OPERATION_HISTORY && NoDuplicates(after.retiredRuntimes)
            && |after.retiredAccounts| <= MAX_OPERATION_HISTORY && NoDuplicates(after.retiredAccounts)
            && |after.retiredLineages| <= MAX_OPERATION_HISTORY
            && after.runtime !in after.retiredRuntimes
            && (NoDuplicates(after.retiredLineages) <==> !RetiresTwice(bindings, op))
  {
    if !op.OpBind? {
      var b := bindings[SourceAccount(op)];
      assert RetiresCleanly(b);
      if op.OpSwitch? {
        AppendKeepsNoDuplicates(b.retiredAccounts, op.sourceAccount);
        AppendKeepsNoDuplicates(b.retiredLineages, Lineage(op.sourceAccount, op.runtime, op.source));
      } else if op.OpTransfer? {
        AppendKeepsNoDuplicates(b.retiredRuntimes, op.sourceRuntime);
      }
    }
  }

  lemma ChangedBindingTells(bindings: Bindings, ops: seq<Operation>, op: Operation)
    requires Consistent(bindings, ops) && Admitted(bindings, op)
    requires forall o | o in ops :: o.nonce != op.nonce
    ensures TargetAccount(op) in Lineages(ops + [op])
    ensures Tells(ChangedBinding(bindings, op), Lineages(ops + [op])[TargetAccount(op)])
    ensures forall o | o in Lineages(ops + [op])[TargetAccount(op)] :: o in ops + [op]
  {
    assert (ops + [op])[..|ops|] == ops;
    if op.OpBind? {
      assert Nonces([op]) == [op.nonce] && Kinds([op]) == [KindOf(op)];
    } else {
      var s := SourceAccount(op);
      assert Tells(bindings[s], Lineages(ops)[s]);
      TellsOneMore(bindings[s], Lineages(ops)[s], op, ChangedBinding(bindings, op));
    }
  }

  /** An admitted operation continues a bound lineage, or starts one. */
  lemma AdmittedHasSource(bindings: Bindings, op: Operation)
    requires Admitted(bindings, op)
    ensures op.OpBind? || SourceAccount(op) in bindings
    ensures op.OpBind? || TargetAccount(op) == SourceAccount(op) || TargetAccount(op) !in bindings
    ensures op.OpBind? ==> TargetAccount(op) !in bindings
  {
    hide IsRetired, RuntimeTaken;
  }

  lemma OtherBindingsStay(bindings: Bindings, ops: seq<Operation>, op: Operation)
    requires bindings.Keys == Lineages(ops).Keys && (op.OpBind? || SourceAccount(op) in bindings)
    ensures Applied(bindings, op).Keys == Lineages(ops + [op]).Keys
    ensures TargetAccount(op) in Applied(bindings, op)
    ensures Applied(bindings, op)[TargetAccount(op)] == ChangedBinding(bindings, op)
    ensures forall a | a in Applied(bindings, op) && a != TargetAccount(op) ::
              && a in bindings && Applied(bindings, op)[a] == bindings[a]
              && Lineages(ops + [op])[a] == Lineages(ops)[a]
  {
    assert (ops + [op])[..|ops|] == ops && (ops + [op])[|ops|] == op;
  }

  lemma EntryMovedSize<K, V>(m: map<K, V>, from: K, to: K, v: V)
    requires from in m
    ensures |(m - {from})[to := v]| <= |m|
  {
    assert (m - {from}).Keys == m.Keys - {from};
    assert (m - {from})[to := v].Keys == m.Keys - {from} + {to};
    assert |m.Keys - {from}| == |m.Keys| - 1;
  }

  lemma AppliedSize(bindings: Bindings, op: Operation)
    ensures |Applied(bindings, op)| <= |bindings| + if op.OpBind? then 1 else 0
  {
    if op.OpBind? {
      assert Applied(bindings, op).Keys == bindings.Keys + {op.account};
    } else if SourceAccount(op) in bindings {
      EntryMovedSize(bindings, SourceAccount(op), TargetAccount(op), ChangedBinding(bindings, op));
    }
  }

  lemma FaithfulBindingDecodes(account: Sha, b: Binding, lineage: seq<Operation>, ops: seq<Operation>, op: Operation)
    requires Faithful(account, b, lineage, ops)
    ensures Faithful(account, b, lineage, ops + [op]) && DecodableBinding(b)
  {
    ToldBindingDecodes(b, lineage);
  }

  lemma ChangedBindingIsFaithful(bindings: Bindings, ops: seq<Operation>, op: Operation)
    requires Consistent(bindings, ops) && Admitted(bindings, op)
    requires forall o | o in ops :: o.nonce != op.nonce
    ensures TargetAccount(op) in Lineages(ops + [op])
    ensures Faithful(TargetAccount(op), ChangedBinding(bindings, op), Lineages(ops + [op])[TargetAccount(op)],
                     ops + [op])
            <==> !RetiresTwice(bindings, op)
    ensures DecodableBinding(ChangedBinding(bindings, op)) <==> !RetiresTwice(bindings, op)
  {
    ChangedBindingRetires(bindings, ops, op);
    ChangedBindingTells(bindings, ops, op);
    ToldBindingDecodes(ChangedBinding(bindings, op), Lineages(ops + [op])[TargetAccount(op)]);
  }

  /** Admitting an operation with a fresh nonce keeps the bindings consistent with the
      history, and the result decodes, if and only if no lineage is retired twice. */
  lemma {:induction false} AdmittedOperationDecodes(bindings: Bindings, ops: seq<Operation>, op: Operation)
    requires Consistent(bindings, ops) && Admitted(bindings, op)
    requires forall o | o in ops :: o.nonce != op.nonce
    ensures Consistent(Applied(bindings, op), ops + [op]) <==> !RetiresTwice(bindings, op)
    ensures DecodableBindings(Applied(bindings, op)) <==> !RetiresTwice(bindings, op)
  {
    ChangedBindingIsFaithful(bindings, ops, op);
    RoomForOneMore(bindings, ops, op);
    OtherBindingsStay(bindings, ops, op);
    AppliedSize(bindings, op);
    hide Faithful, DecodableBinding, Admitted, Applied, Lineages, RetiresTwice, TargetAccount, ChangedBinding;
    var after, lineages := Applied(bindings, op), Lineages(ops + [op]);
    var t := TargetAccount(op);
    forall a | a in after && a != t
      ensures Faithful(a, after[a], lineages[a], ops + [op]) && DecodableBinding(after[a])
    {
      FaithfulBindingDecodes(a, bindings[a], Lineages(ops)[a], ops, op);
    }
    OneBindingDecides(after, ops + [op], t);
    ChangedAccount(bindings, op);
  }

  lemma RoomForOneMore(bindings: Bindings, ops: seq<Operation>, op: Operation)
    requires Consistent(bindings, ops) && Admitted(bindings, op)
    ensures |bindings| + (if op.OpBind? then 1 else 0) <= MAX_ACCOUNTS
    ensures op.OpBind? || SourceAccount(op) in bindings
  {
    hide Faithful, IsRetired, RuntimeTaken;
  }

  lemma ChangedAccount(bindings: Bindings, op: Operation)
    requires op.OpBind? || SourceAccount(op) in bindings
    ensures ChangedBinding(bindings, op).account == TargetAccount(op)
  {
  }

  /** When every other binding is in order, the bindings are as good as this one. */
  lemma OneBindingDecides(bindings: Bindings, ops: seq<Operation>, t: Sha)
    requires |bindings| <= MAX_ACCOUNTS && bindings.Keys == Lineages(ops).Keys && t in bindings
    requires forall a | a in bindings && a != t ::
               Faithful(a, bindings[a], Lineages(ops)[a], ops) && DecodableBinding(bindings[a])
    ensures Consistent(bindings, ops) <==> Faithful(t, bindings[t], Lineages(ops)[t], ops)
    ensures bindings[t].account == t ==> (DecodableBindings(bindings) <==> DecodableBinding(bindings[t]))
  {
    hide DecodableBinding, Tells, RetiresCleanly, Lineages;
  }

  lemma ConsistentBindingsDecode(bindings: Bindings, ops: seq<Operation>)
    requires Consistent(bindings, ops)
    ensures DecodableBindings(bindings)
  {
    forall a | a in bindings
      ensures DecodableBinding(bindings[a])
    {
      ToldBindingDecodes(bindings[a], Lineages(ops)[a]);
    }
  }

  // ---- What no admitted operation undoes ----

  /** Retired accounts, runtimes and lineages stay retired. */
  lemma {:induction false} RetirementIsPermanent(bindings: Bindings, op: Operation)
    requires Admitted(bindings, op)
    ensures RetiredAccounts(bindings) <= RetiredAccounts(Applied(bindings, op))
    ensures RetiredRuntimes(bindings) <= RetiredRuntimes(Applied(bindings, op))
    ensures RetiredLineages(bindings) <= RetiredLineages(Applied(bindings, op))
  {
    var after, s, t := Applied(bindings, op), SourceAccount(op), TargetAccount(op);
    assert t in after && after[t] == ChangedBinding(bindings, op);
    forall x | x in RetiredAccounts(bindings)
      ensures x in RetiredAccounts(after)
    {
      var a :| a in bindings && x in bindings[a].retiredAccounts;
      assert x in after[if a == s && !op.OpBind? then t else a].retiredAccounts;
    }
    forall x | x in RetiredRuntimes(bindings)
      ensures x in RetiredRuntimes(after)
    {
      var a :| a in bindings && x in bindings[a].retiredRuntimes;
      assert x in after[if a == s && !op.OpBind? then t else a].retiredRuntimes;
    }
    forall x | x in RetiredLineages(bindings)
      ensures x in RetiredLineages(after)
    {
      var a :| a in bindings && x in bindings[a].retiredLineages;
      assert x in after[if a == s && !op.OpBind? then t else a].retiredLineages;
    }
  }

  /** No two accounts are bound to one runtime. */
  ghost predicate OneAccountPerRuntime(bindings: Bindings) {
    forall a, b | a in bindings && b in bindings && bindings[a].runtime == bindings[b].runtime :: a == b
  }

  /** A transfer to a runtime that another account is bound to: no guard looks for it. */
  predicate TransfersOntoAnother(bindings: Bindings, op: Operation) {
    op.OpTransfer? && exists a | a in bindings :: a != op.account && bindings[a].runtime == op.targetRuntime
  }

  /** Exclusive runtimes stay exclusive exactly when no transfer lands on a bound runtime. */
  lemma {:induction false} RuntimesStayExclusive(bindings: Bindings, op: Operation)
    requires Admitted(bindings, op) && OneAccountPerRuntime(bindings)
    ensures OneAccountPerRuntime(Applied(bindings, op)) <==> !TransfersOntoAnother(bindings, op)
  {
    hide *;
    AdmittedParts(bindings, op);
    AppliedParts(bindings, op);
    if TransfersOntoAnother(bindings, op) {
      SharedRuntime(bindings, op);
    } else {
      RuntimeOfItsOwn(bindings, op);
    }
  }

  lemma AdmittedParts(bindings: Bindings, op: Operation)
    requires Admitted(bindings, op)
    ensures op.OpBind? ==> op.account !in bindings && !RuntimeTaken(bindings, op.runtime)
    ensures !op.OpBind? ==>
              && SourceAccount(op) in bindings
              && (!op.OpTransfer? ==> bindings[SourceAccount(op)].runtime == op.runtime)
  {
    hide IsRetired, RuntimeTaken;
  }

  lemma AppliedParts(bindings: Bindings, op: Operation)
    requires op.OpBind? || SourceAccount(op) in bindings
    ensures var after := Applied(bindings, op);
            && TargetAccount(op) in after && after[TargetAccount(op)].runtime == TargetRuntime(op)
            && (forall a | a in after && a != TargetAccount(op) ::
                  a in bindings && after[a] == bindings[a] && (op.OpBind? || a != SourceAccount(op)))
            && (forall a | a in bindings && a != TargetAccount(op) && (op.OpBind? || a != SourceAccount(op)) ::
                  a in after && after[a] == bindings[a])
  {
  }

  lemma SharedRuntime(bindings: Bindings, op: Operation)
    requires TransfersOntoAnother(bindings, op)
    requires var after := Applied(bindings, op);
             && TargetAccount(op) in after && after[TargetAccount(op)].runtime == TargetRuntime(op)
             && (forall a | a in bindings && a != TargetAccount(op) && (op.OpBind? || a != SourceAccount(op)) ::
                   a in after && after[a] == bindings[a])
    ensures !OneAccountPerRuntime(Applied(bindings, op))
  {
    hide Applied;
    var a :| a in bindings && a != op.account && bindings[a].runtime == op.targetRuntime;
    assert a in Applied(bindings, op);
  }

  lemma RuntimeOfItsOwn(bindings: Bindings, op: Operation)
    requires OneAccountPerRuntime(bindings) && !TransfersOntoAnother(bindings, op)
    requires op.OpBind? ==> op.account !in bindings && !RuntimeTaken(bindings, op.runtime)
    requires !op.OpBind? ==>
               && SourceAccount(op) in bindings
               && (!op.OpTransfer? ==> bindings[SourceAccount(op)].runtime == op.runtime)
    requires var after := Applied(bindings, op);
             && TargetAccount(op) in after && after[TargetAccount(op)].runtime == TargetRuntime(op)
             && (forall a | a in after && a != TargetAccount(op) ::
                   a in bindings && after[a] == bindings[a] && (op.OpBind? || a != SourceAccount(op)))
    ensures OneAccountPerRuntime(Applied(bindings, op))
  {
    hide Applied;
    var after, t := Applied(bindings, op), TargetAccount(op);
    forall a | a in after && a != t
      ensures after[a].runtime != after[t].runtime
    {
      assert a in bindings;
    }
  }
}
