/** Loading, validating and reconciling the registry's files, and the invariant that every
    run keeps on them. */
module RegistryFiles {
  import opened Wrappers
  import opened HexBits
  import opened Operations
  import opened NonceTrie
  import opened Storage
  import opened NonceLedger
  import opened RegistryRecords

  const INITIAL: Record := Record(1, None, map[], EmptyRoot, 0)
  const READY: Anchor := Anchor(EmptyRoot, 0, Some(Base(1, INITIAL)))

  // ---- What the code reads ----

  function LoadTransitionRaw(d: Disk, n: nat): Result<Option<Transition>> {
    if n == 0 then Err(TransitionInvalid)
    else if n !in d.transitions then Ok(None)
    else
      var t := d.transitions[n];
      if t.newCount != t.oldCount + 1 || t.newSequence != t.oldSequence + 1 then Err(TransitionInvalid)
      else Ok(Some(t))
  }

  /** The old side of a transition is the new side of its predecessor. */
  predicate Extends(t: Transition, previous: Transition) {
    && t.parent == Previous(previous)
    && t.oldSequence == previous.newSequence && t.oldChecksum == previous.newChecksum
    && t.oldRoot == previous.newRoot && t.oldCount == previous.newCount
  }

  predicate ExtendsAnchor(t: Transition, anchor: Anchor) {
    && t.parent == ReadyAnchor(anchor)
    && anchor.base == Some(Base(t.oldSequence, t.oldChecksum))
    && t.oldRoot == anchor.initialRoot && t.oldCount == anchor.initialCount
  }

  /** `_validate_transition_proof` */
  function ValidateProof(d: Disk, t: Transition): Result<Transition> {
    if d.reserved then Err(ReservedArtifact)
    else if d.ready == None then Err(ReadyMissing)
    else
      var anchor := d.ready.value;
      var linked :-
        if t.newCount == anchor.initialCount + 1 then Ok(ExtendsAnchor(t, anchor))
        else if t.newCount > anchor.initialCount + 1 then
          var previous :- LoadTransitionRaw(d, t.newCount - 1);
          Ok(previous.Some? && Extends(t, previous.value))
        else Ok(false);
      if !linked then Err(ChainBroken)
      else
        var receipt :- LoadReceipt(d, t.nonce);
        if receipt != t.receiptChecksum then Err(ChainBroken)
        else
          var computed :- CanonicalRoot(d.nodes, t.oldRoot, receipt);
          if computed != t.newRoot then Err(ChainBroken) else Ok(t)
  }

  function LoadTransition(d: Disk, n: nat): Result<Option<Transition>> {
    if d.reserved then Err(ReservedArtifact)
    else
      var raw :- LoadTransitionRaw(d, n);
      match raw
      case None => Ok(None)
      case Some(t) =>
        var valid :- ValidateProof(d, t);
        Ok(Some(valid))
  }

  predicate Matches(p: Pending, t: Transition) {
    p.body == t && p.transitionChecksum == t
  }

  predicate StartsAt(t: Transition, r: Record) {
    t.oldSequence == r.sequence && t.oldChecksum == r && t.oldRoot == r.nonceRoot && t.oldCount == r.nonceCount
  }

  predicate EndsAt(t: Transition, r: Record) {
    t.newSequence == r.sequence && t.newChecksum == r && t.newRoot == r.nonceRoot && t.newCount == r.nonceCount
  }

  predicate Vouches(receipt: Receipt, b: Binding) {
    && LastKindIs(b, receipt.kind)
    && receipt.semantic == b.lastReceipt
    && receipt.account == b.account && receipt.runtime == b.runtime && receipt.epoch == b.epoch
  }

  /** The last operation of a binding is a member whose receipt names that binding. */
  predicate VouchedFor(d: Disk, root: Hash, b: Binding) {
    var found := RequireReceipt(d, root, b.lastOperation);
    found.Ok? && Vouches(found.value, b)
  }

  predicate AllVouchedFor(d: Disk, r: Record) {
    forall a | a in r.bindings :: VouchedFor(d, r.nonceRoot, r.bindings[a])
  }

  /** `_validate_nonce_anchor_unlocked` */
  function ValidateAnchor(d: Disk, r: Record): Result<Record> {
    if d.reserved then Err(ReservedArtifact)
    else if d.ready == None then Err(ReadyMissing)
    else if r.nonceCount > MAX_NONCE_RECEIPTS then Err(CapacityExhausted)
    else if d.ready.value.base == None then Err(ChainBroken)
    else
      var anchor := d.ready.value;
      var anchored :-
        if r.nonceCount == anchor.initialCount then
          Ok(anchor.base == Some(Base(r.sequence, r)) && r.nonceRoot == anchor.initialRoot)
        else
          var head :- LoadTransition(d, r.nonceCount);
          Ok(head.Some? && EndsAt(head.value, r));
      if !anchored then Err(ChainBroken)
      else
        var next :- LoadTransition(d, r.nonceCount + 1);
        if next.Some? && !(d.pending.Some? && Matches(d.pending.value, next.value) && StartsAt(next.value, r))
        then Err(ChainBroken)
        else if AllVouchedFor(d, r) then Ok(r)
        else Err(ReceiptNotAnchored)
  }

  /** `_load_unlocked`. Nothing at all on disk is not an error; half a registry is. */
  function Load(d: Disk): Result<Option<Record>> {
    if d.current == None then
      if d.previous.Some? || d.lineage then Err(RegistryInvalid) else Ok(None)
    else if !Decodable(d.current.value) then Err(RegistryInvalid)
    else
      var current := d.current.value;
      var chained :=
        || d.previous == Some(current)
        || (if current.sequence == 1 then d.previous == None
            else
              && d.previous.Some? && Decodable(d.previous.value)
              && d.previous.value.sequence + 1 == current.sequence
              && current.parent == d.previous);
      if !chained || !d.lineage then Err(RegistryInvalid)
      else
        var valid :- ValidateAnchor(d, current);
        Ok(Some(valid))
  }

  /** `_reconcile_nonce_pending_unlocked`: the writes that finish a commit whose record is
      already current. */
  function Reconcile(d: Disk, r: Record): Result<seq<Write>> {
    if d.pending == None then Ok([])
    else
      var p := d.pending.value;
      var transition :- LoadTransition(d, p.body.newCount);
      if transition == None then
        if StartsAt(p.body, r) then Ok([]) else Err(PendingInvalid)
      else if !Matches(p, transition.value) then Err(PendingInvalid)
      else if EndsAt(p.body, r) then
        var _ :- RequireReceipt(d, r.nonceRoot, p.body.nonce);
        Ok([UnlinkPending])
      else if StartsAt(p.body, r) then Ok([])
      else Err(PendingInvalid)
  }

  // ---- What a history of committed operations determines ----

  function Front(ops: seq<Operation>): seq<Operation>
    requires ops != []
  {
    ops[..|ops| - 1]
  }

  function Last(ops: seq<Operation>): Operation
    requires ops != []
  {
    ops[|ops| - 1]
  }

  function RootOf(ops: seq<Operation>): Hash {
    if ops == [] then EmptyRoot else InsertRoot(RootOf(Front(ops)), ReceiptOf(Last(ops)))
  }

  function RecordAt(ops: seq<Operation>): Record {
    if ops == [] then INITIAL
    else Record(|ops| + 1, Some(RecordAt(Front(ops))), Replayed(ops), RootOf(ops), |ops|)
  }

  function TransitionAt(ops: seq<Operation>): Transition
    requires ops != []
    decreases |ops|
  {
    var front := Front(ops);
    Transition(
      if front == [] then ReadyAnchor(READY) else Previous(TransitionAt(front)),
      |ops|, RecordAt(front), RootOf(front), |front|,
      |ops| + 1, RecordAt(ops), RootOf(ops), |ops|,
      Last(ops).nonce, ReceiptOf(Last(ops)))
  }

  function PendingAt(ops: seq<Operation>): Pending
    requires ops != []
  {
    Pending(TransitionAt(ops), TransitionAt(ops))
  }

  ghost predicate Fresh(ops: seq<Operation>, nonce: Sha) {
    forall o | o in ops :: o.nonce != nonce
  }

  /** Every operation was admitted when it committed, with a nonce never used before, and
      no lineage was retired twice. */
  ghost predicate History(ops: seq<Operation>) {
    ops == [] ||
    (var front, op := Front(ops), Last(ops);
     && History(front)
     && |front| < MAX_NONCE_RECEIPTS
     && Fresh(front, op.nonce)
     && Admitted(Replayed(front), op)
     && !RetiresTwice(Replayed(front), op))
  }

  lemma HistoryExtends(ops: seq<Operation>, op: Operation)
    requires History(ops) && |ops| < MAX_NONCE_RECEIPTS && Fresh(ops, op.nonce) && Admitted(Replayed(ops), op)
    ensures History(ops + [op]) <==> !RetiresTwice(Replayed(ops), op)
    ensures Replayed(ops + [op]) == Applied(Replayed(ops), op)
  {
    FrontAndLast(ops, op);
    hide Admitted, RetiresTwice, Applied, Fresh, Front, Last;
  }

  lemma FrontAndLast(ops: seq<Operation>, op: Operation)
    ensures ops + [op] != [] && Front(ops + [op]) == ops && Last(ops + [op]) == op
  {
  }

  /** What a history says of its last operation. */
  lemma HistoryEnds(ops: seq<Operation>)
    requires ops != [] && History(ops)
    ensures Front(ops) + [Last(ops)] == ops && History(Front(ops)) && |Front(ops)| < MAX_NONCE_RECEIPTS
    ensures Fresh(Front(ops), Last(ops).nonce)
    ensures Admitted(Replayed(Front(ops)), Last(ops)) && !RetiresTwice(Replayed(Front(ops)), Last(ops))
  {
    FrontThenLast(ops);
    hide Admitted, RetiresTwice, Fresh, Replayed, Front, Last;
  }

  lemma FrontIsShorter(ops: seq<Operation>)
    requires ops != []
    ensures |Front(ops)| < |ops|
  {
  }

  lemma FrontThenLast(ops: seq<Operation>)
    requires ops != []
    ensures Front(ops) + [Last(ops)] == ops
  {
  }

  lemma {:induction false} HistoryIsConsistent(ops: seq<Operation>)
    requires History(ops)
    ensures Consistent(Replayed(ops), ops)
    ensures |ops| <= MAX_NONCE_RECEIPTS
  {
    hide Admitted, RetiresTwice, Consistent, Applied;
    if ops == [] {
      NothingIsConsistent();
    } else {
      HistoryIsConsistent(Front(ops));
      HistoryStepIsConsistent(ops);
    }
  }

  lemma HistoryStepIsConsistent(ops: seq<Operation>)
    requires ops != [] && History(ops) && Consistent(Replayed(Front(ops)), Front(ops))
    ensures Consistent(Replayed(ops), ops)
  {
    hide RetiresTwice, Consistent, Applied;
    assert ops == Front(ops) + [Last(ops)];
    AdmittedOperationDecodes(Replayed(Front(ops)), Front(ops), Last(ops));
  }

  lemma NothingIsConsistent()
    ensures Consistent(Replayed([]), [])
  {
  }

  lemma FreshForMember(ops: seq<Operation>, o: Operation)
    requires o in ops
    ensures !Fresh(ops, o.nonce)
  {
  }

  /** The nonces under a history's root are exactly those of its operations. */
  lemma {:induction false} RootHoldsHistory(ops: seq<Operation>)
    requires History(ops)
    ensures WellFormedRoot(RootOf(ops))
    ensures forall o | o in ops :: o.nonce in Contents(RootOf(ops)) && Contents(RootOf(ops))[o.nonce] == ReceiptOf(o)
    ensures forall k | k in Contents(RootOf(ops)) :: !Fresh(ops, k)
    ensures |Contents(RootOf(ops))| == |ops|
  {
    if ops != [] {
      hide *;
      var front, op := Front(ops), Last(ops);
      HistoryEnds(ops);
      FrontThenLast(ops);
      RootHoldsHistory(front);
      RootOfOneMore(ops);
      FreshIsNoMember(RootOf(front), front, op);
      InsertRefinesMap(RootOf(front), ReceiptOf(op));
      RootGrowsByOne(RootOf(front), RootOf(ops), front, op);
    } else {
      NoRoot();
    }
  }

  lemma NoRoot()
    ensures RootOf([]) == EmptyRoot && WellFormedRoot(EmptyRoot) && Contents(EmptyRoot) == map[]
  {
  }

  lemma RootOfOneMore(ops: seq<Operation>)
    requires ops != []
    ensures RootOf(ops) == InsertRoot(RootOf(Front(ops)), ReceiptOf(Last(ops)))
    ensures |Front(ops)| == |ops| - 1 && ReceiptOf(Last(ops)).nonce == Last(ops).nonce
  {
    hide InsertRoot;
  }

  lemma FreshIsNoMember(root: Hash, ops: seq<Operation>, op: Operation)
    requires Fresh(ops, op.nonce) && forall k | k in Contents(root) :: !Fresh(ops, k)
    ensures op.nonce !in Contents(root)
  {
    hide *;
  }

  lemma RootGrowsByOne(before: Hash, after: Hash, front: seq<Operation>, op: Operation)
    requires forall o | o in front :: o.nonce in Contents(before) && Contents(before)[o.nonce] == ReceiptOf(o)
    requires forall k | k in Contents(before) :: !Fresh(front, k)
    requires Fresh(front, op.nonce) && |Contents(before)| == |front|
    requires Contents(after) == Contents(before)[op.nonce := ReceiptOf(op)]
    ensures forall o | o in front + [op] :: o.nonce in Contents(after) && Contents(after)[o.nonce] == ReceiptOf(o)
    ensures forall k | k in Contents(after) :: !Fresh(front + [op], k)
    ensures |Contents(after)| == |front| + 1
  {
    hide ReceiptOf, Contents;
    var ops := front + [op];
    assert Contents(after).Keys == Contents(before).Keys + {op.nonce};
    assert |Contents(after).Keys| == |Contents(before).Keys| + 1;
    forall k | k in Contents(after)
      ensures !Fresh(ops, k)
    {
      if k == op.nonce {
        FreshForMember(ops, ops[|front|]);
      } else {
        var o :| o in front && o.nonce == k;
        FreshForMember(ops, o);
      }
    }
    forall o | o in ops
      ensures o.nonce in Contents(after) && Contents(after)[o.nonce] == ReceiptOf(o)
    {
      assert o == op || o in front;
    }
  }

  // ---- The invariant ----

  /** Where the commit protocol stands: nothing under way; an operation announced; its
      transition linked; its record committed but the announcement not yet cleared. */
  datatype Phase = Idle | Prepared(op: Operation) | Linked(op: Operation) | Cleanup

  /** The committed history and the operation under way. */
  function Announced(ops: seq<Operation>, phase: Phase): seq<Operation> {
    if phase.Prepared? || phase.Linked? then ops + [phase.op] else ops
  }

  function LinkedOps(ops: seq<Operation>, phase: Phase): seq<Operation> {
    if phase.Linked? then ops + [phase.op] else ops
  }

  ghost predicate ChainStored(d: Disk, all: seq<Operation>) {
    && (forall n | n in d.transitions :: 1 <= n <= |all|)
    && (forall n | 1 <= n <= |all| :: n in d.transitions && d.transitions[n] == TransitionAt(all[..n]))
  }

  ghost predicate RootsAnchored(d: Disk, all: seq<Operation>) {
    forall n | 0 <= n <= |all| :: Anchored(d, RootOf(all[..n]))
  }

  predicate PreviousIs(d: Disk, ops: seq<Operation>) {
    || d.previous == Some(RecordAt(ops))
    || d.previous == RecordAt(ops).parent
  }

  predicate PendingIs(d: Disk, ops: seq<Operation>, phase: Phase) {
    match phase
    case Idle => d.pending == None
    case Cleanup => ops != [] && d.pending == Some(PendingAt(ops))
    case _ => d.pending == Some(PendingAt(Announced(ops, phase)))
  }

  ghost predicate Inv(d: Disk, ops: seq<Operation>, phase: Phase) {
    && Intact(d) && d.lineage && d.ready == Some(READY)
    && d.current == Some(RecordAt(ops)) && PreviousIs(d, ops)
    && History(Announced(ops, phase))
    && ChainStored(d, LinkedOps(ops, phase))
    && RootsAnchored(d, Announced(ops, phase))
    && PendingIs(d, ops, phase)
  }

  /** In every reachable state the sequence is the nonce count plus one, and the nonces
      under the root are exactly those of the committed operations. */
  lemma {:induction false} CountsAgree(d: Disk, ops: seq<Operation>, phase: Phase)
    requires Inv(d, ops, phase)
    ensures var r := d.current.value;
            && r.sequence == r.nonceCount + 1
            && r.nonceCount == |Contents(r.nonceRoot)| == |ops|
            && (forall k :: k in Contents(r.nonceRoot) <==> !Fresh(ops, k))
            && r.bindings == Replayed(ops)
  {
    hide History, Contents, Replayed, Anchored, TransitionAt, PendingAt, RootOf;
    HistoryOfCommitted(ops, phase);
    RootHoldsHistory(ops);
    MembersAreUsed(RootOf(ops), ops);
    RecordFields(ops);
  }

  lemma MembersAreUsed(root: Hash, ops: seq<Operation>)
    requires forall o | o in ops :: o.nonce in Contents(root)
    requires forall k | k in Contents(root) :: !Fresh(ops, k)
    ensures forall k :: k in Contents(root) <==> !Fresh(ops, k)
  {
  }

  lemma HistoryOfCommitted(ops: seq<Operation>, phase: Phase)
    requires History(Announced(ops, phase))
    ensures History(ops)
    ensures ops != [] ==> History(Front(ops))
  {
    hide History;
    var all := Announced(ops, phase);
    HistoryPrefix(all, |ops|);
    assert all[..|ops|] == ops;
    if ops != [] {
      HistoryPrefix(all, |ops| - 1);
      assert all[..|ops| - 1] == Front(ops);
    }
  }

  lemma ShorterFront(ops: seq<Operation>, n: nat)
    requires n < |ops|
    ensures |Front(ops)| == |ops| - 1 && Front(ops)[..n] == ops[..n]
  {
  }

  lemma {:induction false} HistoryPrefix(ops: seq<Operation>, n: nat)
    requires History(ops) && n <= |ops|
    ensures History(ops[..n])
    decreases |ops|
  {
    if n == |ops| {
      assert ops[..n] == ops;
    } else {
      hide *;
      HistoryEnds(ops);
      ShorterFront(ops, n);
      HistoryPrefix(Front(ops), n);
    }
  }

  // ---- Loading succeeds ----

  lemma RecordFields(ops: seq<Operation>)
    ensures var r := RecordAt(ops);
            && r.sequence == |ops| + 1 && r.nonceCount == |ops|
            && r.nonceRoot == RootOf(ops) && r.bindings == Replayed(ops)
            && r.parent == if ops == [] then None else Some(RecordAt(Front(ops)))
  {
  }

  /** Each transition continues the one before it, and the first one the ready marker. */
  lemma LinksExtend(ops: seq<Operation>)
    requires ops != []
    ensures |ops| == 1 ==> ExtendsAnchor(TransitionAt(ops), READY)
    ensures |ops| > 1 ==> Extends(TransitionAt(ops), TransitionAt(Front(ops)))
    ensures StartsAt(TransitionAt(ops), RecordAt(Front(ops))) && EndsAt(TransitionAt(ops), RecordAt(ops))
    ensures var t := TransitionAt(ops);
            && t.newCount == |ops| && t.oldCount == |ops| - 1 && t.newSequence == t.oldSequence + 1
            && t.nonce == Last(ops).nonce && t.receiptChecksum == ReceiptOf(Last(ops))
            && t.oldRoot == RootOf(Front(ops)) && t.newRoot == RootOf(ops)
  {
    hide ReceiptOf, InsertRoot, Applied;
    RecordFields(ops);
    RecordFields(Front(ops));
    if |ops| == 1 {
      assert RecordAt(Front(ops)) == INITIAL;
    }
  }

  lemma LinkValidates(d: Disk, t: Transition)
    requires !d.reserved && d.ready == Some(READY) && t.newCount >= 1
    requires t.newCount == 1 ==> ExtendsAnchor(t, READY)
    requires t.newCount > 1 ==>
               var p := LoadTransitionRaw(d, t.newCount - 1);
               p.Ok? && p.value.Some? && Extends(t, p.value.value)
    requires LoadReceipt(d, t.nonce) == Ok(t.receiptChecksum)
    requires CanonicalRoot(d.nodes, t.oldRoot, t.receiptChecksum) == Ok(t.newRoot)
    ensures ValidateProof(d, t) == Ok(t)
  {
    hide ExtendsAnchor, Extends, LoadReceipt, CanonicalRoot, LoadTransitionRaw;
  }

  /** The receipt and the root of a committed operation check out against the files. */
  lemma CommittedOperationChecksOut(d: Disk, ops: seq<Operation>)
    requires ops != [] && History(ops)
    requires Anchored(d, RootOf(Front(ops))) && Anchored(d, RootOf(ops))
    ensures LoadReceipt(d, Last(ops).nonce) == Ok(ReceiptOf(Last(ops)))
    ensures CanonicalRoot(d.nodes, RootOf(Front(ops)), ReceiptOf(Last(ops))) == Ok(RootOf(ops))
  {
    hide Admitted, RetiresTwice, CanonicalRoot, WellFormedRoot, Stored, Contents, InsertRoot;
    RootHoldsHistory(Front(ops));
    RootHoldsHistory(ops);
    assert Last(ops) in ops;
    CanonicalRootIsInsertRoot(d, RootOf(Front(ops)), ReceiptOf(Last(ops)));
  }

  /** A link of the stored chain passes validation. */
  lemma {:induction false} StoredLinkLoads(d: Disk, all: seq<Operation>, n: nat)
    requires 1 <= n <= |all| && History(all)
    requires !d.reserved && d.ready == Some(READY)
    requires n in d.transitions && d.transitions[n] == TransitionAt(all[..n])
    requires n > 1 ==> n - 1 in d.transitions && d.transitions[n - 1] == TransitionAt(all[..n - 1])
    requires RootsAnchored(d, all)
    ensures LoadTransition(d, n) == Ok(Some(TransitionAt(all[..n])))
  {
    hide History, TransitionAt, RootOf, Anchored, ValidateProof, CanonicalRoot, LoadReceipt, Extends, ExtendsAnchor;
    var ops := all[..n];
    HistoryPrefix(all, n);
    assert Front(ops) == all[..n - 1];
    assert Anchored(d, RootOf(all[..n - 1])) && Anchored(d, RootOf(all[..n]));
    CommittedOperationChecksOut(d, ops);
    LinksExtend(ops);
    if n > 1 {
      LinksExtend(Front(ops));
    }
    LinkValidates(d, TransitionAt(ops));
  }

  /** A binding's last operation is a committed one, and its receipt matches. */
  lemma LastOperationVouches(b: Binding, account: Sha, lineage: seq<Operation>, ops: seq<Operation>)
    requires Faithful(account, b, lineage, ops)
    ensures lineage != [] && Last(lineage) in ops && b.lastOperation == Last(lineage).nonce
    ensures Vouches(ReceiptOf(Last(lineage)), b)
  {
    assert Kinds(lineage)[|lineage| - 1] == KindOf(Last(lineage));
    hide Kinds, Nonces, NoDuplicates;
  }

  lemma BindingsAreVouchedFor(d: Disk, ops: seq<Operation>)
    requires History(ops) && Intact(d) && Anchored(d, RootOf(ops))
    ensures AllVouchedFor(d, RecordAt(ops))
  {
    hide History, Faithful, RequireReceipt, Vouches, Anchored, Intact, ReceiptOf, Contents, RootOf, Replayed;
    RecordFields(ops);
    HistoryIsConsistent(ops);
    RootHoldsHistory(ops);
    forall a | a in Replayed(ops)
      ensures VouchedFor(d, RootOf(ops), Replayed(ops)[a])
    {
      LastOperationVouches(Replayed(ops)[a], a, Lineages(ops)[a], ops);
      MemberReceiptLoads(d, RootOf(ops), Last(Lineages(ops)[a]));
    }
  }

  lemma MemberReceiptLoads(d: Disk, root: Hash, op: Operation)
    requires Intact(d) && Anchored(d, root) && op.nonce in Contents(root) && Contents(root)[op.nonce] == ReceiptOf(op)
    ensures RequireReceipt(d, root, op.nonce) == Ok(ReceiptOf(op))
  {
    hide Contents, Anchored, Intact, ReceiptOf;
    LookupAnswersContents(d, root, op.nonce);
  }

  lemma CommittedHeadLoads(d: Disk, ops: seq<Operation>, phase: Phase)
    requires Inv(d, ops, phase) && ops != []
    ensures LoadTransition(d, |ops|) == Ok(Some(TransitionAt(ops)))
  {
    hide History, TransitionAt, RootOf, Anchored, LoadTransition, RecordAt, PendingIs, PreviousIs;
    var all, linked := Announced(ops, phase), LinkedOps(ops, phase);
    assert all[..|ops|] == ops && linked[..|ops|] == ops;
    assert linked[..|ops| - 1] == all[..|ops| - 1];
    StoredLinkLoads(d, all, |ops|);
  }

  lemma NextLinkIsPending(d: Disk, ops: seq<Operation>, phase: Phase)
    requires Inv(d, ops, phase)
    ensures LoadTransition(d, |ops| + 1) ==
            Ok(if phase.Linked? then Some(TransitionAt(ops + [phase.op])) else None)
  {
    var all, linked := Announced(ops, phase), LinkedOps(ops, phase);
    if phase.Linked? {
      hide History, TransitionAt, RootOf, Anchored, LoadTransition, RecordAt, PendingIs, PreviousIs;
      assert all[..|ops| + 1] == all && linked == all;
      StoredLinkLoads(d, all, |ops| + 1);
    } else {
      hide History, TransitionAt, RootOf, Anchored, ValidateProof, RecordAt, PendingIs, PreviousIs;
      assert |ops| + 1 !in d.transitions;
    }
  }

  /** A link beyond the committed record is the one the pending file announces. */
  lemma NextLinkIsAnnounced(d: Disk, ops: seq<Operation>, phase: Phase)
    requires Inv(d, ops, phase)
    ensures var next := LoadTransition(d, |ops| + 1);
            && next.Ok?
            && (next.value.Some? ==> d.pending.Some? && Matches(d.pending.value, next.value.value)
                                     && StartsAt(next.value.value, RecordAt(ops)))
  {
    hide History, TransitionAt, RootOf, Anchored, LoadTransition, RecordAt, RootsAnchored, ChainStored, Replayed,
         Extends, ExtendsAnchor, StartsAt, EndsAt;
    NextLinkIsPending(d, ops, phase);
    if phase.Linked? {
      LinksExtend(ops + [phase.op]);
      assert Front(ops + [phase.op]) == ops;
    }
  }

  /** The committed record is where the chain, or the anchor, ends. */
  lemma CommittedHeadEnds(d: Disk, ops: seq<Operation>, phase: Phase)
    requires Inv(d, ops, phase)
    ensures !d.reserved && d.ready == Some(READY)
    ensures ops != [] ==> var head := LoadTransition(d, |ops|);
                          head.Ok? && head.value.Some? && EndsAt(head.value.value, RecordAt(ops))
    ensures AllVouchedFor(d, RecordAt(ops))
    ensures RecordAt(ops).nonceCount == |ops| <= MAX_NONCE_RECEIPTS
    ensures ops == [] ==> RecordAt(ops) == INITIAL && RootOf(ops) == EmptyRoot
  {
    hide History, TransitionAt, RootOf, Anchored, LoadTransition, RecordAt, RootsAnchored, ChainStored, Replayed,
         AllVouchedFor, Extends, ExtendsAnchor, StartsAt, EndsAt;
    RecordFields(ops);
    HistoryOfCommitted(ops, phase);
    HistoryIsConsistent(ops);
    RootIsAnchored(d, ops, phase);
    BindingsAreVouchedFor(d, ops);
    if ops != [] {
      CommittedHeadLoads(d, ops, phase);
      LinksExtend(ops);
    } else {
      InitialRecord();
    }
  }

  lemma {:induction false} CommittedAnchorValidates(d: Disk, ops: seq<Operation>, phase: Phase)
    requires Inv(d, ops, phase)
    ensures ValidateAnchor(d, RecordAt(ops)) == Ok(RecordAt(ops))
  {
    hide Inv, History, TransitionAt, RootOf, RecordAt;
    CommittedHeadEnds(d, ops, phase);
    NextLinkIsAnnounced(d, ops, phase);
    AnchorValidates(d, RecordAt(ops));
  }

  /** What the checks on the anchor ask for, gathered. */
  lemma AnchorValidates(d: Disk, r: Record)
    requires !d.reserved && d.ready == Some(READY) && r.nonceCount <= MAX_NONCE_RECEIPTS
    requires r.nonceCount == 0 ==> r == INITIAL
    requires r.nonceCount > 0 ==> var head := LoadTransition(d, r.nonceCount);
                                  head.Ok? && head.value.Some? && EndsAt(head.value.value, r)
    requires var next := LoadTransition(d, r.nonceCount + 1);
             && next.Ok?
             && (next.value.Some? ==>
                 d.pending.Some? && Matches(d.pending.value, next.value.value) && StartsAt(next.value.value, r))
    requires AllVouchedFor(d, r)
    ensures ValidateAnchor(d, r) == Ok(r)
  {
    hide LoadTransition, AllVouchedFor, StartsAt, EndsAt, Matches;
  }

  lemma InitialRecord()
    ensures RecordAt([]) == INITIAL && RootOf([]) == EmptyRoot
  {
  }

  lemma RootIsAnchored(d: Disk, ops: seq<Operation>, phase: Phase)
    requires RootsAnchored(d, Announced(ops, phase))
    ensures Anchored(d, RootOf(ops))
  {
    assert Announced(ops, phase)[..|ops|] == ops;
  }

  /** Loading succeeds in every reachable state and returns the committed record. */
  lemma {:induction false} LoadReturnsCommitted(d: Disk, ops: seq<Operation>, phase: Phase)
    requires Inv(d, ops, phase)
    ensures Load(d) == Ok(Some(RecordAt(ops)))
  {
    hide History, TransitionAt, RootOf, Anchored, RecordAt, RootsAnchored, ChainStored, Replayed, ValidateAnchor,
         PendingIs,
         Consistent, DecodableBindings;
    RecordFields(ops);
    HistoryOfCommitted(ops, phase);
    HistoryIsConsistent(ops);
    ConsistentBindingsDecode(Replayed(ops), ops);
    CommittedAnchorValidates(d, ops, phase);
    if ops != [] {
      RecordFields(Front(ops));
      HistoryIsConsistent(Front(ops));
      ConsistentBindingsDecode(Replayed(Front(ops)), Front(ops));
    }
  }
}
