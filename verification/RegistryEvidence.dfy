/** What the files prove by themselves: a validated transition chain authenticates its
    receipts on any disk, and rolling the registry back is seen. */
module RegistryEvidence {
  import opened Wrappers
  import opened Operations
  import opened NonceTrie
  import opened Storage
  import opened NonceLedger
  import opened RegistryRecords
  import opened RegistryFiles
  import opened RegistryCommit

  // ---- Any disk ----

  /** On any node files, a recomputed root is the insertion of a receipt that was not yet
      a member. */
  lemma {:induction false} RecomputedRootIsInsertion(nodes: map<Hash, Node>, root: Hash, receipt: Receipt)
    requires WellFormedRoot(root) && CanonicalRoot(nodes, root, receipt).Ok?
    ensures receipt.nonce !in Contents(root)
    ensures CanonicalRoot(nodes, root, receipt).value == InsertRoot(root, receipt)
  {
    if root != EmptyRoot {
      ProofIsPath(nodes, root, receipt.nonce, -1);
      LookupDecidesMembership(root, receipt.nonce);
    }
  }

  /** Transitions 1 to `n` all load from a ledger whose ready marker is the empty one. */
  ghost predicate ValidatedUpTo(d: Disk, n: nat) {
    && d.ready.Some? && d.ready.value.initialRoot == EmptyRoot && d.ready.value.initialCount == 0
    && (forall i | 1 <= i <= n :: ValidatedAt(d, i))
  }

  ghost predicate ValidatedAt(d: Disk, i: nat) {
    && i in d.transitions && d.transitions[i].newCount == i
    && LoadTransition(d, i) == Ok(Some(d.transitions[i]))
  }

  /** The receipts named by transitions 1 to `n`. */
  ghost function ChainReceipts(d: Disk, n: nat): seq<Receipt> {
    if n == 0 || n !in d.transitions then []
    else ChainReceipts(d, n - 1) + [d.transitions[n].receiptChecksum]
  }

  ghost function RootAfter(d: Disk, n: nat): Hash {
    if n == 0 || n !in d.transitions then EmptyRoot else d.transitions[n].newRoot
  }

  /** A transition that loads continues its predecessor, and its new root is the insertion
      of its receipt. */
  lemma ValidatedLink(d: Disk, n: nat)
    requires ValidatedUpTo(d, n) && n > 0
    ensures n in d.transitions
    ensures var t := d.transitions[n];
            && t.oldRoot == RootAfter(d, n - 1)
            && CanonicalRoot(d.nodes, t.oldRoot, t.receiptChecksum) == Ok(t.newRoot)
            && t.receiptChecksum.nonce == t.nonce
            && (n == 1 ==> t.parent == ReadyAnchor(d.ready.value))
            && (n > 1 ==> n - 1 in d.transitions && Extends(t, d.transitions[n - 1]))
  {
    hide CanonicalRoot;
    assert ValidatedAt(d, n);
    if n > 1 {
      assert ValidatedAt(d, n - 1);
    }
  }

  /** If transitions 1 to `n` load, then the n-th root is the trie of exactly their n
      receipts, whose nonces are all different. */
  lemma {:induction false} ChainAuthenticatesReceipts(d: Disk, n: nat)
    requires ValidatedUpTo(d, n)
    ensures DistinctNonces(ChainReceipts(d, n)) && |ChainReceipts(d, n)| == n
    ensures RootAfter(d, n) == InsertAll(EmptyRoot, ChainReceipts(d, n))
    ensures Contents(RootAfter(d, n)) == Dictionary(ChainReceipts(d, n))
  {
    hide CanonicalRoot, Contents, InsertRoot, Extends, ValidatedAt, LoadTransition, WellFormed, Dictionary;
    if n > 0 {
      ChainAuthenticatesReceipts(d, n - 1);
      ValidatedLink(d, n);
      var before, receipt := ChainReceipts(d, n - 1), d.transitions[n].receiptChecksum;
      InsertAllBuildsDictionary(before);
      RecomputedRootIsInsertion(d.nodes, RootAfter(d, n - 1), receipt);
      NewNonceStaysDistinct(before, receipt);
      assert (before + [receipt])[..n - 1] == before;
    }
    InsertAllBuildsDictionary(ChainReceipts(d, n));
  }

  lemma NewNonceStaysDistinct(receipts: seq<Receipt>, last: Receipt)
    requires DistinctNonces(receipts) && last.nonce !in Dictionary(receipts)
    ensures DistinctNonces(receipts + [last])
  {
    hide Dictionary;
    DictionaryEntries(receipts);
    forall i | 0 <= i < |receipts|
      ensures receipts[i].nonce != last.nonce
    {
      assert receipts[i] in receipts;
    }
  }

  // ---- Rollback ----

  /** The registry's current file exchanged for an earlier record, and its previous file for
      any record or none. */
  function RolledBack(d: Disk, ops: seq<Operation>, k: nat, previous: Option<Record>): Disk
    requires k < |ops|
  {
    d.(current := Some(RecordAt(ops[..k])), previous := previous)
  }

  /** An earlier record is refused on load, whatever is put beside it, unless it is the very last
      one before a commit whose announcement has not been cleared yet; and then beside itself or
      its parent only. */
  lemma {:induction false} RollbackIsDetected(d: Disk, ops: seq<Operation>, phase: Phase, k: nat,
                                              previous: Option<Record>)
    requires Inv(d, ops, phase) && k < |ops|
    ensures Load(RolledBack(d, ops, k, previous)).Ok? <==>
              phase == Cleanup && k == |ops| - 1 && PreviousIs(RolledBack(d, ops, k, previous), ops[..k])
  {
    hide Inv, Load, RecordAt, PreviousIs;
    if phase != Cleanup || k != |ops| - 1 {
      LaterTransitionRefuses(d, ops, phase, k, previous);
    } else if PreviousIs(RolledBack(d, ops, k, previous), ops[..k]) {
      UndoneCommitIsLinked(d, ops, previous);
      LoadReturnsCommitted(RolledBack(d, ops, k, previous), Front(ops), Linked(Last(ops)));
    } else {
      OtherPreviousIsRefused(RolledBack(d, ops, k, previous), ops[..k]);
    }
  }

  /** Beside a record, only itself or its parent can be loaded. */
  lemma OtherPreviousIsRefused(d: Disk, ops: seq<Operation>)
    requires d.current == Some(RecordAt(ops)) && !PreviousIs(d, ops)
    ensures Load(d).Err?
  {
    RecordFields(ops);
    hide RecordAt, Decodable, ValidateAnchor;
  }

  lemma UndoneCommitIsLinked(d: Disk, ops: seq<Operation>, previous: Option<Record>)
    requires Inv(d, ops, Cleanup)
    requires PreviousIs(RolledBack(d, ops, |ops| - 1, previous), ops[..|ops| - 1])
    ensures ops != [] && ops[..|ops| - 1] == Front(ops)
    ensures Inv(RolledBack(d, ops, |ops| - 1, previous), Front(ops), Linked(Last(ops)))
  {
    hide History, TransitionAt, RecordAt, RootOf, Anchored;
    var front, op := Front(ops), Last(ops);
    assert front + [op] == ops;
    RootsAnchoredElsewhere(d, RolledBack(d, ops, |ops| - 1, previous), ops);
  }

  lemma LaterTransitionRefuses(d: Disk, ops: seq<Operation>, phase: Phase, k: nat, previous: Option<Record>)
    requires Inv(d, ops, phase) && k < |ops|
    requires !(phase == Cleanup && k == |ops| - 1)
    ensures Load(RolledBack(d, ops, k, previous)).Err?
  {
    hide Inv, RecordAt, TransitionAt, LoadTransition, Matches, StartsAt, EndsAt, Decodable, AllVouchedFor;
    var back := RolledBack(d, ops, k, previous);
    LaterTransitionLoads(d, ops, phase, k, previous);
    LaterTransitionIsNotAnnounced(d, ops, phase, k);
    RecordFields(ops[..k]);
  }

  lemma LaterTransitionLoads(d: Disk, ops: seq<Operation>, phase: Phase, k: nat, previous: Option<Record>)
    requires Inv(d, ops, phase) && k < |ops|
    ensures LoadTransition(RolledBack(d, ops, k, previous), k + 1) == Ok(Some(TransitionAt(ops[..k + 1])))
  {
    hide History, RecordAt, TransitionAt, LoadTransition, RootOf, Anchored, PreviousIs, PendingIs;
    var back, all, linked := RolledBack(d, ops, k, previous), Announced(ops, phase), LinkedOps(ops, phase);
    RootsAnchoredElsewhere(d, back, all);
    assert all[..k + 1] == ops[..k + 1] == linked[..k + 1];
    assert all[..k] == linked[..k];
    StoredLinkLoads(back, all, k + 1);
  }

  lemma LaterTransitionIsNotAnnounced(d: Disk, ops: seq<Operation>, phase: Phase, k: nat)
    requires Inv(d, ops, phase) && k < |ops| && !(phase == Cleanup && k == |ops| - 1)
    ensures d.pending.Some? ==> !Matches(d.pending.value, TransitionAt(ops[..k + 1]))
  {
    hide History, RecordAt, TransitionAt, RootOf, Anchored, PreviousIs, RootsAnchored, ChainStored, Intact,
         StartsAt, EndsAt, Extends, ExtendsAnchor;
    LinksExtend(ops[..k + 1]);
    if phase != Idle {
      LinksExtend(Announced(ops, phase));
    }
  }
}
