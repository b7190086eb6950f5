/** What loading accepts on any disk, malformed ones included, check by check. */
module RegistryLoads {
  import opened Wrappers
  import opened HexBits
  import opened Operations
  import opened NonceTrie
  import opened Storage
  import opened NonceLedger
  import opened RegistryRecords
  import opened RegistryFiles

  predicate Distinct<T(==)>(items: seq<T>) {
    forall i, j | 0 <= i < j < |items| :: items[i] != items[j]
  }

  /** A binding that decodes: up to eight different heads with their kinds, the last one being the last
      operation and only the first one possibly a bind, and retired identities without repetition. */
  predicate SoundBinding(account: Sha, b: Binding) {
    && b.account == account
    && 1 <= |b.history| <= 8 && |b.kinds| == |b.history| <= b.revision && Distinct(b.history)
    && b.history[|b.history| - 1] == b.lastOperation
    && (forall i | 0 < i < |b.kinds| :: b.kinds[i] != Bind)
    && |b.retiredRuntimes| <= 1024 && Distinct(b.retiredRuntimes)
    && |b.retiredAccounts| <= 1024 && Distinct(b.retiredAccounts)
    && |b.retiredLineages| <= 1024 && Distinct(b.retiredLineages)
  }

  predicate SoundRecord(r: Record) {
    && r.sequence > 0 && (r.sequence == 1 <==> r.parent == None)
    && |r.bindings| <= 256 && forall a | a in r.bindings :: SoundBinding(a, r.bindings[a])
  }

  lemma DecodableIsSound(r: Record)
    ensures Decodable(r) <==> SoundRecord(r)
  {
    forall a | a in r.bindings
      ensures r.bindings[a].account == a && DecodableBinding(r.bindings[a]) <==> SoundBinding(a, r.bindings[a])
    {
      BindingIsSound(a, r.bindings[a]);
    }
    hide DecodableBinding, SoundBinding;
  }

  lemma BindingIsSound(account: Sha, b: Binding)
    ensures b.account == account && DecodableBinding(b) <==> SoundBinding(account, b)
  {
    SameDistinct(b.history);
    SameDistinct(b.retiredRuntimes);
    SameDistinct(b.retiredAccounts);
    SameDistinct(b.retiredLineages);
    hide NoDuplicates, Distinct;
  }

  lemma SameDistinct<T>(items: seq<T>)
    ensures NoDuplicates(items) <==> Distinct(items)
  {
  }

  /** The last link of the chain, or the ready marker itself, names the record. */
  ghost predicate EndsTheChain(d: Disk, r: Record) {
    && d.ready.Some? && d.ready.value.base.Some? && r.nonceCount <= 1_000_000
    && if r.nonceCount == d.ready.value.initialCount then
         d.ready.value.base == Some(Base(r.sequence, r)) && r.nonceRoot == d.ready.value.initialRoot
       else exists t: Transition ::
              && LoadTransition(d, r.nonceCount) == Ok(Some(t))
              && t.newSequence == r.sequence && t.newChecksum == r
              && t.newRoot == r.nonceRoot && t.newCount == r.nonceCount
  }

  /** No further link, or the one the pending file announces on top of the record. */
  ghost predicate NothingUnannounced(d: Disk, r: Record) {
    || LoadTransition(d, r.nonceCount + 1) == Ok(None)
    || exists t: Transition ::
         && LoadTransition(d, r.nonceCount + 1) == Ok(Some(t)) && d.pending == Some(Pending(t, t))
         && t.oldSequence == r.sequence && t.oldChecksum == r
         && t.oldRoot == r.nonceRoot && t.oldCount == r.nonceCount
  }

  /** A member receipt under the root says the same as the binding. */
  ghost predicate HasItsReceipt(d: Disk, root: Hash, b: Binding) {
    exists receipt: Receipt ::
      && RequireReceipt(d, root, b.lastOperation) == Ok(receipt) && receipt.semantic == b.lastReceipt
      && b.kinds != [] && receipt.kind == b.kinds[|b.kinds| - 1]
      && receipt.account == b.account && receipt.runtime == b.runtime && receipt.epoch == b.epoch
  }

  /** A record loads if and only if it is sound, fits its previous file, ends the transition chain with
      nothing unannounced behind it, and every binding has its receipt. */
  lemma {:induction false} LoadIsExact(d: Disk, r: Record)
    ensures Load(d) == Ok(Some(r)) <==>
              && d.current == Some(r) && d.lineage && !d.reserved && SoundRecord(r)
              && (|| d.previous == Some(r)
                  || (r.sequence == 1 && d.previous == None)
                  || (&& r.sequence > 1 && d.previous.Some? && r.parent == d.previous
                      && d.previous.value.sequence + 1 == r.sequence && SoundRecord(d.previous.value)))
              && EndsTheChain(d, r) && NothingUnannounced(d, r)
              && (forall a | a in r.bindings :: HasItsReceipt(d, r.nonceRoot, r.bindings[a]))
    ensures Load(d) == Ok(None) <==> d.current == None && d.previous == None && !d.lineage
  {
    hide *;
    DecodableIsSound(r);
    if d.previous.Some? {
      DecodableIsSound(d.previous.value);
    }
    LoadParts(d, r);
    AnchorParts(d, r);
    ReceiptsVouch(d, r);
    SoundSequence(r);
  }

  lemma SoundSequence(r: Record)
    ensures SoundRecord(r) ==> r.sequence > 0
  {
  }

  lemma LoadParts(d: Disk, r: Record)
    ensures Load(d) == Ok(Some(r)) <==>
              && d.current == Some(r) && d.lineage && Decodable(r)
              && (|| d.previous == Some(r)
                  || (r.sequence == 1 && d.previous == None)
                  || (&& r.sequence != 1 && d.previous.Some? && r.parent == d.previous
                      && d.previous.value.sequence + 1 == r.sequence && Decodable(d.previous.value)))
              && ValidateAnchor(d, r).Ok?
    ensures Load(d) == Ok(None) <==> d.current == None && d.previous == None && !d.lineage
  {
    AnchorIsTheRecord(d, r);
    if d.current.Some? {
      AnchorIsTheRecord(d, d.current.value);
    }
    hide Decodable, ValidateAnchor;
  }

  lemma AnchorIsTheRecord(d: Disk, r: Record)
    ensures ValidateAnchor(d, r).Ok? ==> ValidateAnchor(d, r) == Ok(r)
  {
    hide LoadTransition, EndsAt, StartsAt, Matches, AllVouchedFor;
  }

  lemma AnchorParts(d: Disk, r: Record)
    ensures ValidateAnchor(d, r).Ok? <==>
              !d.reserved && EndsTheChain(d, r) && NothingUnannounced(d, r) && AllVouchedFor(d, r)
  {
    hide LoadTransition, AllVouchedFor;
  }

  lemma ReceiptsVouch(d: Disk, r: Record)
    ensures AllVouchedFor(d, r) <==> forall a | a in r.bindings :: HasItsReceipt(d, r.nonceRoot, r.bindings[a])
  {
    forall a | a in r.bindings
      ensures VouchedFor(d, r.nonceRoot, r.bindings[a]) <==> HasItsReceipt(d, r.nonceRoot, r.bindings[a])
    {
      ReceiptVouches(d, r.nonceRoot, r.bindings[a]);
    }
    hide VouchedFor, HasItsReceipt;
  }

  lemma ReceiptVouches(d: Disk, root: Hash, b: Binding)
    ensures VouchedFor(d, root, b) <==> HasItsReceipt(d, root, b)
  {
    hide RequireReceipt;
  }

  // ---- Links ----

  /** A link loads if and only if it is stored under its number, moves sequence and count by one,
      continues the ready marker or the link before it in every field, and its receipt is on file and
      takes the old root to the new one. */
  lemma {:induction false} LinkLoadsExactly(d: Disk, n: nat, t: Transition)
    ensures LoadTransition(d, n) == Ok(Some(t)) <==>
              && !d.reserved && d.ready.Some? && n > 0 && n in d.transitions && d.transitions[n] == t
              && t.newCount == t.oldCount + 1 && t.newSequence == t.oldSequence + 1
              && (if t.newCount == d.ready.value.initialCount + 1 then
                    && t.parent == ReadyAnchor(d.ready.value)
                    && d.ready.value.base == Some(Base(t.oldSequence, t.oldChecksum))
                    && t.oldRoot == d.ready.value.initialRoot && t.oldCount == d.ready.value.initialCount
                  else
                    && t.newCount > d.ready.value.initialCount + 1
                    && t.newCount - 1 > 0 && t.newCount - 1 in d.transitions
                    && var before := d.transitions[t.newCount - 1];
                       && t.parent == Previous(before)
                       && before.newCount == before.oldCount + 1 && before.newSequence == before.oldSequence + 1
                       && t.oldSequence == before.newSequence && t.oldChecksum == before.newChecksum
                       && t.oldRoot == before.newRoot && t.oldCount == before.newCount)
              && t.nonce in d.receipts && d.receipts[t.nonce] == t.receiptChecksum && t.receiptChecksum.nonce == t.nonce
              && CanonicalRoot(d.nodes, t.oldRoot, t.receiptChecksum) == Ok(t.newRoot)
  {
    hide CanonicalRoot;
  }

  // ---- Reconciliation ----

  /** A pending file is tolerated if and only if it starts or ends at the record: unlinked, on top of
      it; linked as announced, on top of it, or ending in it with its receipt under the root, and then
      it is cleared. */
  lemma {:induction false} ReconcileIsExact(d: Disk, r: Record)
    requires d.pending.Some?
    ensures var t := d.pending.value.body;
            var starts := t.oldSequence == r.sequence && t.oldChecksum == r
                          && t.oldRoot == r.nonceRoot && t.oldCount == r.nonceCount;
            var ends := t.newSequence == r.sequence && t.newChecksum == r
                        && t.newRoot == r.nonceRoot && t.newCount == r.nonceCount;
            var linked := LoadTransition(d, t.newCount) == Ok(Some(t)) && d.pending == Some(Pending(t, t));
            && (Reconcile(d, r) == Ok([UnlinkPending]) <==>
                linked && ends && RequireReceipt(d, r.nonceRoot, t.nonce).Ok?)
            && (Reconcile(d, r) == Ok([]) <==>
                starts && (LoadTransition(d, t.newCount) == Ok(None) || (linked && !ends)))
            && (Reconcile(d, r).Ok? ==> Reconcile(d, r).value == [] || Reconcile(d, r).value == [UnlinkPending])
  {
    hide LoadTransition, RequireReceipt;
  }
}
