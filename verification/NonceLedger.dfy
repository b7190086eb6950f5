/** The authenticated nonce ledger over its node and receipt files: bounded proofs,
    lookup, the node-writing insertion and its hash-only recomputation. */
module NonceLedger {
  import opened Wrappers
  import opened HexBits
  import opened Operations
  import opened NonceTrie
  import opened Storage

  const MAX_NONCE_RECEIPTS: nat := 1_000_000

  datatype Error =
    | MachineStopped
    | EvidenceConflict
    | ReservedArtifact
    | EmptyRootHasNoNode
    | NodeMissing
    | NodeHashMismatch
    | BranchBitInvalid
    | BranchChildrenAmbiguous
    | BranchOrder
    | ProofTooLong
    | ReceiptMissing
    | ReceiptKeyMismatch
    | ReceiptNotAnchored
    | NotAMember
    | CapacityExhausted
    | NonceConsumedDifferently
    | NonceConsumedExactly
    | AlreadyMember
    | DuplicateLeaf
    | RevalidationFailed
    | BranchNonCanonical
    | ReadyMissing
    | TransitionInvalid
    | ChainBroken
    | RegistryInvalid
    | PendingInvalid
    | Refused(why: Refusal)

  /** Why a lifecycle request is turned down without touching the registry. */
  datatype Refusal =
    | BoundToAnotherRuntime
    | AlreadyBound
    | LineageRetired
    | RuntimeInUse
    | AccountsFull
    | NothingChanges
    | BindingMissing
    | TargetActive
    | SourceMismatch
    | HistoryFull
    | GatesClosed
    | ReasonInvalid
    | ReceiptChanged
    | ConsumedElsewhere

  datatype Result<+T> = Ok(value: T) | Err(error: Error) {
    predicate IsFailure() { Err? }
    function PropagateFailure<U>(): Result<U>
      requires Err?
    {
      Err(error)
    }
    function Extract(): T
      requires Ok?
    {
      value
    }
  }

  datatype Insertion = Insertion(oldRoot: Hash, newRoot: Hash, oldCount: nat, newCount: nat, receipt: Receipt)

  function StatusError(s: Status): Error {
    if s == Crashed then MachineStopped else EvidenceConflict
  }

  /** `_load_node`: a node file is accepted only under its own hash. */
  function LoadNode(nodes: map<Hash, Node>, h: Hash): Result<Node> {
    if h == EmptyRoot then Err(EmptyRootHasNoNode)
    else if h !in nodes then Err(NodeMissing)
    else if Digest(nodes[h]) != h then Err(NodeHashMismatch)
    else match nodes[h]
      case Leaf(_, _) => Ok(nodes[h])
      case Branch(bit, left, right) =>
        if !(0 <= bit < 256) then Err(BranchBitInvalid)
        else if left == right then Err(BranchChildrenAmbiguous)
        else Ok(nodes[h])
  }

  function Child(node: Node, key: Sha): Hash
    requires node.Branch?
  {
    if GoesRight(key, node.bit) then node.right else node.left
  }

  /** The nodes read from `current` to a leaf; branch bits must increase strictly. */
  function ProofFrom(nodes: map<Hash, Node>, current: Hash, key: Sha, previousBit: int): Result<seq<Node>>
    requires -1 <= previousBit < 256
    decreases 256 - previousBit
  {
    var node :- LoadNode(nodes, current);
    if node.Leaf? then Ok([node])
    else if node.bit <= previousBit then Err(BranchOrder)
    else
      var rest :- ProofFrom(nodes, Child(node, key), key, node.bit);
      Ok([node] + rest)
  }

  function ProofOf(nodes: map<Hash, Node>, root: Hash, key: Sha): Result<seq<Node>> {
    if root == EmptyRoot then Ok([]) else ProofFrom(nodes, root, key, -1)
  }

  function LoadReceipt(d: Disk, nonce: Sha): Result<Receipt> {
    if nonce !in d.receipts then Err(ReceiptMissing)
    else if d.receipts[nonce].nonce != nonce then Err(ReceiptKeyMismatch)
    else Ok(d.receipts[nonce])
  }

  function Lookup(d: Disk, root: Hash, nonce: Sha): Result<Option<Receipt>> {
    if d.reserved then Err(ReservedArtifact)
    else
      var path :- ProofOf(d.nodes, root, nonce);
      if path == [] || path[|path| - 1].Branch? || path[|path| - 1].nonce != nonce then Ok(None)
      else
        var receipt :- LoadReceipt(d, nonce);
        if receipt != path[|path| - 1].receipt then Err(ReceiptNotAnchored)
        else Ok(Some(receipt))
  }

  function RequireReceipt(d: Disk, root: Hash, nonce: Sha): Result<Receipt> {
    var found :- Lookup(d, root, nonce);
    match found
    case None => Err(NotAMember)
    case Some(receipt) => Ok(receipt)
  }

  /** What `_canonical_insertion_root` computes from hashes alone. */
  function CanonicalRoot(nodes: map<Hash, Node>, root: Hash, receipt: Receipt): Result<Hash> {
    var path :- ProofOf(nodes, root, receipt.nonce);
    if path == [] then Ok(LeafHash(receipt))
    else if path[|path| - 1].Branch? then Err(NodeMissing)
    else if path[|path| - 1].nonce == receipt.nonce then Err(AlreadyMember)
    else match FirstDifferentBit(path[|path| - 1].nonce, receipt.nonce)
      case None => Err(DuplicateLeaf)
      case Some(d) => Ok(Graft(root, receipt.nonce, LeafHash(receipt), d))
  }

  /** All nodes of a trie are on disk under their own hashes. */
  ghost predicate Stored(nodes: map<Hash, Node>, h: Hash) {
    match h
    case EmptyRoot => true
    case Unresolved(_) => false
    case Digest(Leaf(_, _)) => h in nodes && nodes[h] == h.node
    case Digest(Branch(_, left, right)) =>
      h in nodes && nodes[h] == h.node && Stored(nodes, left) && Stored(nodes, right)
  }

  /** Evidence under which a root answers: the trie is well formed and stored, and every
      member's receipt file is the one its leaf names. */
  ghost predicate Anchored(d: Disk, root: Hash) {
    && WellFormedRoot(root)
    && Stored(d.nodes, root)
    && (forall k | k in Contents(root) :: k in d.receipts && d.receipts[k] == Contents(root)[k])
  }

  /** Every file of the object store holds what its name says. */
  ghost predicate Intact(d: Disk) {
    && !d.reserved
    && (forall h | h in d.nodes :: Digest(d.nodes[h]) == h)
    && (forall k | k in d.receipts :: d.receipts[k].nonce == k)
  }

  /** The node files an insertion writes, bottom up. */
  function GraftWrites(h: Hash, key: Sha, leaf: Hash, d: int): seq<Write>
    decreases h
  {
    match h
    case Digest(Branch(bit, left, right)) =>
      if bit < d then
        GraftWrites(if GoesRight(key, bit) then right else left, key, leaf, d)
        + [CreateNode(Graft(h, key, leaf, d).node)]
      else [CreateNode(Split(h, key, leaf, d).node)]
    case _ => [CreateNode(Split(h, key, leaf, d).node)]
  }

  function InsertWrites(root: Hash, receipt: Receipt): seq<Write> {
    [CreateReceipt(receipt), CreateNode(Leaf(receipt.nonce, receipt))] + PathWrites(root, receipt)
  }

  function PathWrites(root: Hash, receipt: Receipt): seq<Write> {
    match Reached(root, receipt.nonce)
    case None => []
    case Some(leaf) =>
      if leaf.Branch? then []
      else match FirstDifferentBit(leaf.nonce, receipt.nonce)
        case None => []
        case Some(d) => GraftWrites(root, receipt.nonce, LeafHash(receipt), d)
  }

  /** How the nodes of a successful proof hang together. */
  ghost predicate PathOf(path: seq<Node>, root: Hash, key: Sha) {
    && path != []
    && Digest(path[0]) == root
    && path[|path| - 1].Leaf?
    && (forall i | 0 <= i < |path| - 1 ::
          path[i].Branch? && 0 <= path[i].bit < 256 && Child(path[i], key) == Digest(path[i + 1]))
    && (forall i | 0 <= i < |path| - 2 :: path[i].bit < path[i + 1].bit)
    && Reached(root, key) == Some(path[|path| - 1])
  }

  lemma PathExtends(node: Node, rest: seq<Node>, key: Sha)
    requires node.Branch? && 0 <= node.bit < 256 && PathOf(rest, Child(node, key), key)
    requires rest[0].Branch? ==> node.bit < rest[0].bit
    ensures PathOf([node] + rest, Digest(node), key)
  {
    var path := [node] + rest;
    hide Bit;
    forall i | 0 <= i < |path| - 1
      ensures path[i].Branch? && 0 <= path[i].bit < 256 && Child(path[i], key) == Digest(path[i + 1])
    {
      if i > 0 {
        assert path[i] == rest[i - 1];
      }
    }
    forall i | 0 <= i < |path| - 2
      ensures path[i].bit < path[i + 1].bit
    {
      if i > 0 {
        assert path[i] == rest[i - 1];
      }
    }
  }

  lemma LeafIsPath(node: Node, key: Sha)
    requires node.Leaf?
    ensures PathOf([node], Digest(node), key)
  {
  }

  lemma {:induction false} ProofIsPath(nodes: map<Hash, Node>, current: Hash, key: Sha, previousBit: int)
    requires -1 <= previousBit < 256
    requires ProofFrom(nodes, current, key, previousBit).Ok?
    ensures var path := ProofFrom(nodes, current, key, previousBit).value;
            PathOf(path, current, key) && path != [] && (path[0].Branch? ==> previousBit < path[0].bit)
    decreases 256 - previousBit
  {
    var node := LoadNode(nodes, current).value;
    hide PathOf, Bit;
    if node.Branch? {
      ProofIsPath(nodes, Child(node, key), key, node.bit);
      var rest := ProofFrom(nodes, Child(node, key), key, node.bit).value;
      PathExtends(node, rest, key);
    } else {
      LeafIsPath(node, key);
    }
  }

  /** Every branch of a successful proof tests one of the 256 bits and has two different children. */
  lemma {:induction false} ProofNodesAreSound(nodes: map<Hash, Node>, current: Hash, key: Sha, previousBit: int)
    requires -1 <= previousBit < 256 && ProofFrom(nodes, current, key, previousBit).Ok?
    ensures forall node | node in ProofFrom(nodes, current, key, previousBit).value ::
              node.Branch? ==> 0 <= node.bit < 256 && node.left != node.right
    decreases 256 - previousBit
  {
    var node := LoadNode(nodes, current).value;
    if node.Branch? {
      ProofNodesAreSound(nodes, Child(node, key), key, node.bit);
    }
  }

  /** A lookup cannot be deceived by the files it reads: whatever they are, if it answers at all, it
      answers what the root commits to, and a receipt it returns is on file. */
  lemma {:induction false} LookupNeverLies(d: Disk, root: Hash, nonce: Sha)
    requires Lookup(d, root, nonce).Ok?
    ensures Lookup(d, root, nonce).value
         == match Reached(root, nonce)
            case None => None
            case Some(leaf) => if leaf.Leaf? && leaf.nonce == nonce then Some(leaf.receipt) else None
    ensures Lookup(d, root, nonce).value.Some? ==>
              nonce in d.receipts && Lookup(d, root, nonce).value == Some(d.receipts[nonce])
  {
    if root != EmptyRoot {
      ProofIsPath(d.nodes, root, nonce, -1);
      hide Bit, ProofFrom, Child;
    }
  }

  /** A stored, well-formed trie proves every nonce, member or not. */
  lemma {:induction false} StoredTrieProves(nodes: map<Hash, Node>, h: Hash, key: Sha, previousBit: int)
    requires -1 <= previousBit < 256
    requires WellFormed(h) && Stored(nodes, h)
    requires h.node.Branch? ==> previousBit < h.node.bit
    ensures ProofFrom(nodes, h, key, previousBit).Ok?
    decreases h
  {
    if h.node.Branch? {
      var next := Child(h.node, key);
      hide Bit, Contents;
      ChildIsWellFormed(h, next);
      SidesDiffer(h);
      if next.node.Branch? {
        BitsIncrease(h, next);
      }
      StoredTrieProves(nodes, next, key, h.node.bit);
      hide WellFormed;
      assert LoadNode(nodes, h) == Ok(h.node);
    }
  }

  /** No key has both values of a bit, so the two sides of a branch are different hashes. */
  lemma SidesDiffer(h: Hash)
    requires WellFormed(h) && h.node.Branch?
    ensures 0 <= h.node.bit < 256 && h.node.left != h.node.right
  {
    NonEmpty(h.node.left);
    hide Bit;
    assert Contents(h.node.left).Keys !! Contents(h.node.right).Keys;
  }

  lemma BitsIncrease(h: Hash, next: Hash)
    requires WellFormed(h) && h.node.Branch? && (next == h.node.left || next == h.node.right)
    requires next.Digest? && next.node.Branch?
    ensures h.node.bit < next.node.bit
  {
    ChildIsWellFormed(h, next);
    hide WellFormed, Contents;
    TwoSides(next);
    var k, l :| k in Contents(next) && l in Contents(next) && !Bit(k, next.node.bit) && Bit(l, next.node.bit);
    SiblingsAgree(h, next, k, l);
  }

  lemma ChildIsWellFormed(h: Hash, next: Hash)
    requires WellFormed(h) && h.node.Branch? && (next == h.node.left || next == h.node.right)
    ensures WellFormed(next) && 0 <= h.node.bit < 256
    ensures next.Digest? && next.node.Branch? ==> 0 <= next.node.bit < 256
  {
    hide Contents, Bit;
  }

  /** Members below one side of a branch agree on its bit and on all lower ones. */
  lemma SiblingsAgree(h: Hash, next: Hash, k: Sha, l: Sha)
    requires WellFormed(h) && h.node.Branch? && (next == h.node.left || next == h.node.right)
    requires k in Contents(next) && l in Contents(next)
    ensures 0 <= h.node.bit < 256
    ensures forall i | 0 <= i <= h.node.bit :: Bit(k, i) == Bit(l, i)
  {
    hide Bit, AllHex;
    var bit := h.node.bit;
    assert Contents(h) == Contents(h.node.left) + Contents(h.node.right);
    assert Bit(k, bit) == Bit(l, bit);
    assert Agree(k, l, bit);
  }

  /** On anchored evidence a lookup answers exactly the dictionary of the root. */
  lemma {:induction false} LookupAnswersContents(d: Disk, root: Hash, nonce: Sha)
    requires Intact(d) && Anchored(d, root)
    ensures Lookup(d, root, nonce) ==
            Ok(if nonce in Contents(root) then Some(Contents(root)[nonce]) else None)
  {
    if root != EmptyRoot {
      StoredTrieProves(d.nodes, root, nonce, -1);
      ProofIsPath(d.nodes, root, nonce, -1);
      LookupDecidesMembership(root, nonce);
    }
  }

  /** The hash-only recomputation agrees with insertion: it yields the insertion root for
      every fresh receipt and refuses members. */
  lemma {:induction false} CanonicalRootIsInsertRoot(d: Disk, root: Hash, receipt: Receipt)
    requires Anchored(d, root)
    ensures CanonicalRoot(d.nodes, root, receipt) ==
            if receipt.nonce in Contents(root) then Err(AlreadyMember) else Ok(InsertRoot(root, receipt))
  {
    hide *;
    AnchoredProves(d, root, receipt.nonce);
    CanonicalCases(d.nodes, root, receipt);
    InsertRootCases(root, receipt);
    if root != EmptyRoot {
      LookupDecidesMembership(root, receipt.nonce);
      PathReaches(ProofOf(d.nodes, root, receipt.nonce).value, root, receipt.nonce);
      FirstDifferentBitIsLeast(Reached(root, receipt.nonce).value.nonce, receipt.nonce);
    }
  }

  lemma AnchoredProves(d: Disk, root: Hash, nonce: Sha)
    requires Anchored(d, root)
    ensures ProofOf(d.nodes, root, nonce).Ok?
    ensures root != EmptyRoot ==> WellFormed(root)
    ensures root == EmptyRoot ==> Contents(root) == map[]
  {
    hide ProofFrom, Bit, SharePrefix;
    if root != EmptyRoot {
      StoredTrieProves(d.nodes, root, nonce, -1);
    }
  }

  lemma InsertRootCases(root: Hash, receipt: Receipt)
    ensures root == EmptyRoot ==> InsertRoot(root, receipt) == LeafHash(receipt)
    ensures root != EmptyRoot && Reached(root, receipt.nonce).Some? && Reached(root, receipt.nonce).value.Leaf? ==>
              var d := FirstDifferentBit(Reached(root, receipt.nonce).value.nonce, receipt.nonce);
              d.Some? ==> InsertRoot(root, receipt) == Graft(root, receipt.nonce, LeafHash(receipt), d.value)
  {
    hide FirstDifferentBit, Graft, LeafHash;
  }

  lemma PathReaches(path: seq<Node>, root: Hash, key: Sha)
    requires PathOf(path, root, key)
    ensures path != [] && Reached(root, key) == Some(path[|path| - 1])
  {
    hide Reached, Child;
  }

  lemma {:induction false} StoredGrows(nodes: map<Hash, Node>, more: map<Hash, Node>, h: Hash)
    requires Stored(nodes, h)
    requires forall k | k in nodes :: k in more && more[k] == nodes[k]
    ensures Stored(more, h)
  {
    if h.Digest? && h.node.Branch? {
      StoredGrows(nodes, more, h.node.left);
      StoredGrows(nodes, more, h.node.right);
    }
  }

  /** No file other than receipts and nodes changed. */
  ghost predicate OnlyEvidence(before: Disk, after: Disk) {
    after == before.(receipts := after.receipts, nodes := after.nodes)
  }

  /** Only receipt and node files were added. */
  ghost predicate EvidenceGrew(before: Disk, after: Disk) {
    && after == before.(receipts := after.receipts, nodes := after.nodes)
    && (forall k | k in before.receipts :: k in after.receipts && after.receipts[k] == before.receipts[k])
    && (forall h | h in before.nodes :: h in after.nodes && after.nodes[h] == before.nodes[h])
  }

  ghost predicate EvidenceWrites(writes: seq<Write>) {
    forall w | w in writes :: w.CreateReceipt? || w.CreateNode?
  }

  lemma OneEvidenceWrite(d: Disk, w: Write)
    requires (w.CreateReceipt? || w.CreateNode?) && Perform(d, w).Some?
    ensures var next := Perform(d, w).value;
            && EvidenceGrew(d, next)
            && (Intact(d) ==> Intact(next))
            && Present(next, w)
  {
  }

  /** The file an evidence write creates is there. */
  ghost predicate Present(d: Disk, w: Write) {
    && (w.CreateNode? ==> Digest(w.node) in d.nodes)
    && (w.CreateReceipt? ==> w.receipt.nonce in d.receipts && d.receipts[w.receipt.nonce] == w.receipt)
  }

  lemma EvidenceGrewTwice(a: Disk, b: Disk, c: Disk)
    requires EvidenceGrew(a, b) && EvidenceGrew(b, c)
    ensures EvidenceGrew(a, c)
  {
  }

  /** Writing evidence, however far it gets, only adds intact files. */
  lemma {:induction false} EvidenceWritesGrow(d: Disk, writes: seq<Write>, fuel: nat)
    requires EvidenceWrites(writes)
    ensures var o := Run(d, writes, fuel);
            (Intact(d) ==> Intact(o.disk)) && EvidenceGrew(d, o.disk)
    ensures var o := Run(d, writes, fuel);
            o.status == Done ==> forall w | w in writes :: Present(o.disk, w)
    decreases |writes|
  {
    if writes != [] && fuel > 0 && Perform(d, writes[0]).Some? {
      var next := Perform(d, writes[0]).value;
      OneEvidenceWrite(d, writes[0]);
      assert EvidenceWrites(writes[1..]);
      EvidenceWritesGrow(next, writes[1..], fuel - 1);
      var o := Run(next, writes[1..], fuel - 1);
      EvidenceGrewTwice(d, next, o.disk);
      assert Present(o.disk, writes[0]);
      assert forall w | w in writes :: w == writes[0] || w in writes[1..];
    }
  }

  /** Node files never conflict: their names are their contents. */
  lemma {:induction false} NodeWritesNeverConflict(d: Disk, writes: seq<Write>, fuel: nat)
    requires Intact(d) && forall w | w in writes :: w.CreateNode?
    ensures Run(d, writes, fuel).status != Conflict
    decreases |writes|
  {
    if writes != [] && fuel > 0 {
      var n := writes[0].node;
      assert Digest(n) in d.nodes ==> Digest(d.nodes[Digest(n)]) == Digest(n);
      NodeWritesNeverConflict(Perform(d, writes[0]).value, writes[1..], fuel - 1);
    }
  }

  lemma {:induction false} GraftWritesCreateNodes(h: Hash, key: Sha, leaf: Hash, d: int)
    ensures forall w | w in GraftWrites(h, key, leaf, d) :: w.CreateNode?
    decreases h
  {
    if h.Digest? && h.node.Branch? && h.node.bit < d {
      GraftWritesCreateNodes(if GoesRight(key, h.node.bit) then h.node.right else h.node.left, key, leaf, d);
    }
  }

  /** Writing the path nodes on top of a stored trie stores the grafted one. */
  lemma {:induction false} GraftIsStored(nodes: map<Hash, Node>, h: Hash, key: Sha, leaf: Hash, d: int)
    requires Stored(nodes, h) && Stored(nodes, leaf)
    requires forall k | k in nodes :: Digest(nodes[k]) == k
    requires forall w | w in GraftWrites(h, key, leaf, d) :: w.CreateNode? && Digest(w.node) in nodes
    ensures Stored(nodes, Graft(h, key, leaf, d))
    decreases h
  {
    var writes := GraftWrites(h, key, leaf, d);
    assert writes[|writes| - 1] in writes;
    assert writes[|writes| - 1] == CreateNode(Graft(h, key, leaf, d).node);
    if h.Digest? && h.node.Branch? && h.node.bit < d {
      GraftIsStored(nodes, if GoesRight(key, h.node.bit) then h.node.right else h.node.left, key, leaf, d);
    }
  }

  lemma {:induction false} AnchoredGrows(before: Disk, after: Disk, root: Hash)
    requires Anchored(before, root) && EvidenceGrew(before, after)
    ensures Anchored(after, root)
  {
    StoredGrows(before.nodes, after.nodes, root);
  }

  lemma InsertWritesAreEvidence(root: Hash, receipt: Receipt)
    ensures EvidenceWrites(InsertWrites(root, receipt))
    ensures forall w | w in InsertWrites(root, receipt)[1..] :: w.CreateNode?
  {
    var key := receipt.nonce;
    match Reached(root, key)
    case None =>
    case Some(leaf) =>
      if leaf.Leaf? && FirstDifferentBit(leaf.nonce, key).Some? {
        GraftWritesCreateNodes(root, key, LeafHash(receipt), FirstDifferentBit(leaf.nonce, key).value);
      }
  }

  /** A completed insertion leaves the new root anchored next to the old one. */
  lemma {:induction false} InsertAnchorsNewRoot(d: Disk, root: Hash, receipt: Receipt, fuel: nat)
    requires Intact(d) && Anchored(d, root) && receipt.nonce !in Contents(root)
    ensures var o := Run(d, InsertWrites(root, receipt), fuel);
            o.status == Done ==> Anchored(o.disk, InsertRoot(root, receipt))
  {
    InsertWritesAreEvidence(root, receipt);
    EvidenceWritesGrow(d, InsertWrites(root, receipt), fuel);
    var o := Run(d, InsertWrites(root, receipt), fuel);
    if o.status == Done {
      AnchoredGrows(d, o.disk, root);
      InsertRefinesMap(root, receipt);
      AllWritten(root, receipt, o.disk);
    }
  }

  /** Where every file of an insertion is, the new root is stored with its receipts. */
  lemma AllWritten(root: Hash, receipt: Receipt, d: Disk)
    requires Intact(d) && Anchored(d, root) && receipt.nonce !in Contents(root)
    requires WellFormedRoot(InsertRoot(root, receipt))
    requires Contents(InsertRoot(root, receipt)) == Contents(root)[receipt.nonce := receipt]
    requires forall w | w in InsertWrites(root, receipt) :: Present(d, w)
    ensures Anchored(d, InsertRoot(root, receipt))
  {
    var writes, leaf := InsertWrites(root, receipt), LeafHash(receipt);
    hide Bit, Graft, Contents, WellFormed;
    assert writes[0] in writes && writes[1] in writes;
    assert Stored(d.nodes, leaf);
    if root != EmptyRoot {
      LookupDecidesMembership(root, receipt.nonce);
      var near := Reached(root, receipt.nonce).value.nonce;
      FirstDifferentBitIsLeast(near, receipt.nonce);
      var bit := FirstDifferentBit(near, receipt.nonce).value;
      hide Reached;
      GraftWritesCreateNodes(root, receipt.nonce, leaf, bit);
      assert forall w | w in GraftWrites(root, receipt.nonce, leaf, bit) :: w in writes && Present(d, w);
      GraftIsStored(d.nodes, root, receipt.nonce, leaf, bit);
    }
  }

  function Prepend(path: seq<Node>, rest: Result<seq<Node>>): Result<seq<Node>> {
    match rest
    case Err(e) => Err(e)
    case Ok(nodes) => Ok(path + nodes)
  }

  lemma PrependNothing(rest: Result<seq<Node>>)
    ensures Prepend([], rest) == rest
  {
    if rest.Ok? {
      assert [] + rest.value == rest.value;
    }
  }

  lemma PrependTwice(path: seq<Node>, node: Node, rest: Result<seq<Node>>)
    ensures Prepend(path, Prepend([node], rest)) == Prepend(path + [node], rest)
  {
    if rest.Ok? {
      assert path + ([node] + rest.value) == path + [node] + rest.value;
    }
  }

  /** The node writes above depth `i` of a path, in the order they are made. */
  ghost function UpperWrites(proof: seq<Node>, i: nat, key: Sha, leaf: Hash, d: int): seq<Write>
    requires i <= |proof|
  {
    if i == 0 then []
    else
      var grown := Graft(Digest(proof[i - 1]), key, leaf, d);
      [CreateNode(grown.node)] + UpperWrites(proof, i - 1, key, leaf, d)
  }

  lemma {:induction false} GraftWritesByDepth(proof: seq<Node>, i: nat, root: Hash, key: Sha, leaf: Hash, d: int)
    requires PathOf(proof, root, key) && i < |proof|
    requires forall j | 0 <= j < i :: proof[j].bit < d
    ensures GraftWrites(root, key, leaf, d) ==
            GraftWrites(Digest(proof[i]), key, leaf, d) + UpperWrites(proof, i, key, leaf, d)
  {
    if i > 0 {
      GraftWritesByDepth(proof, i - 1, root, key, leaf, d);
      var grown := Graft(Digest(proof[i - 1]), key, leaf, d);
      assert GraftWrites(Digest(proof[i - 1]), key, leaf, d) ==
             GraftWrites(Digest(proof[i]), key, leaf, d) + [CreateNode(grown.node)];
    }
  }

  /** A branch with the child in one direction replaced. */
  function Regrown(node: Node, direction: bool, grown: Hash): Node
    requires node.Branch?
  {
    if direction then Branch(node.bit, node.left, grown) else Branch(node.bit, grown, node.right)
  }

  lemma GraftAbove(node: Node, key: Sha, leaf: Hash, d: int)
    requires node.Branch? && node.bit < d
    ensures Graft(Digest(node), key, leaf, d) ==
            Digest(Regrown(node, GoesRight(key, node.bit), Graft(Child(node, key), key, leaf, d)))
  {
    hide Bit;
  }

  lemma NothingAbove(proof: seq<Node>, key: Sha, leaf: Hash, d: int, disk: Disk, fuel: nat)
    ensures Run(disk, UpperWrites(proof, 0, key, leaf, d), fuel) == Outcome(disk, Done, fuel)
  {
  }

  lemma RegrownEither(node: Node, direction: bool, grown: Hash)
    requires node.Branch?
    ensures Regrown(node, direction, grown)
         == if direction then Branch(node.bit, node.left, grown) else Branch(node.bit, grown, node.right)
  {
  }

  /** Where the proof reaches a leaf or a bit that is not below `d`, the new branch goes. */
  lemma GraftAtSplit(node: Node, key: Sha, leaf: Hash, d: nat)
    requires d < 256 && (node.Branch? ==> node.bit >= d)
    ensures Graft(Digest(node), key, leaf, d)
         == if Bit(key, d) then Digest(Branch(d, Digest(node), leaf)) else Digest(Branch(d, leaf, Digest(node)))
  {
    hide Bit;
  }

  lemma PathEnds(proof: seq<Node>, root: Hash, key: Sha)
    requires PathOf(proof, root, key)
    ensures proof != [] && proof[|proof| - 1].Leaf? && Digest(proof[0]) == root
  {
    hide Child, Reached;
  }

  lemma PathStep(proof: seq<Node>, root: Hash, key: Sha, i: nat)
    requires PathOf(proof, root, key) && i < |proof| - 1
    ensures proof[i].Branch? && Child(proof[i], key) == Digest(proof[i + 1])
  {
    hide Child, Reached;
  }

  /** The outcomes of the recomputation, by the proof and the first bit that differs. */
  lemma CanonicalCases(nodes: map<Hash, Node>, root: Hash, receipt: Receipt)
    ensures var checked, r := ProofOf(nodes, root, receipt.nonce), CanonicalRoot(nodes, root, receipt);
            && (checked.Err? ==> r == Err(checked.error))
            && (checked.Ok? && root == EmptyRoot ==> r == Ok(LeafHash(receipt)))
            && (checked.Ok? && root != EmptyRoot ==>
                  && PathOf(checked.value, root, receipt.nonce)
                  && checked.value != [] && checked.value[|checked.value| - 1].Leaf?
                  && var last := checked.value[|checked.value| - 1].nonce;
                     var d := FirstDifferentBit(last, receipt.nonce);
                     && (last == receipt.nonce ==> r == Err(AlreadyMember))
                     && (last != receipt.nonce && d.Some? ==>
                           r == Ok(Graft(root, receipt.nonce, LeafHash(receipt), d.value))))
  {
    hide FirstDifferentBit, Graft, ProofFrom, LeafHash, Child, Reached;
    if root != EmptyRoot && ProofOf(nodes, root, receipt.nonce).Ok? {
      ProofIsPath(nodes, root, receipt.nonce, -1);
    }
  }

  /** One branch of the rebuilt path: its write comes before those above it. */
  lemma RebuildStep(proof: seq<Node>, i: nat, n: nat, key: Sha, leaf: Hash, d: int, disk: Disk, fuel: nat)
    requires i < n < |proof| && proof[i].Branch? && proof[i].bit < d && Child(proof[i], key) == Digest(proof[i + 1])
    ensures var grown := Graft(Digest(proof[i]), key, leaf, d);
            && grown == Digest(Regrown(proof[i], GoesRight(key, proof[i].bit),
                                       Graft(Digest(proof[i + 1]), key, leaf, d)))
            && (AllSplit(proof, n, key, leaf, d) ==> SplitsHashes(grown))
            && Run(disk, UpperWrites(proof, i + 1, key, leaf, d), fuel) ==
               var o := Run(disk, [CreateNode(grown.node)], fuel);
               if o.status == Done then Run(o.disk, UpperWrites(proof, i, key, leaf, d), o.fuel) else o
  {
    hide Graft, GoesRight, Run, SplitsHashes, Regrown;
    GraftAbove(proof[i], key, leaf, d);
    RunFirst(disk, CreateNode(Graft(Digest(proof[i]), key, leaf, d).node), UpperWrites(proof, i, key, leaf, d), fuel);
  }

  /** The insertion of a non-member from anchored evidence. */
  ghost predicate Insertable(d: Disk, root: Hash, receipt: Receipt) {
    Intact(d) && Anchored(d, root) && receipt.nonce !in Contents(root)
  }

  ghost predicate SplitsHashes(h: Hash) {
    h.Digest? && h.node.Branch? && 0 <= h.node.bit < 256 && h.node.left != h.node.right
  }

  /** The two children of every branch an insertion writes are different hashes. */
  lemma GraftChildrenDiffer(root: Hash, proof: seq<Node>, i: nat, receipt: Receipt, d: int)
    requires WellFormed(root) && receipt.nonce !in Contents(root)
    requires PathOf(proof, root, receipt.nonce) && i < |proof|
    requires forall j | 0 <= j < i :: proof[j].bit < d
    requires WellFormed(Graft(root, receipt.nonce, LeafHash(receipt), d))
    ensures SplitsHashes(Graft(Digest(proof[i]), receipt.nonce, LeafHash(receipt), d))
  {
    GraftBelowIsWellFormed(root, proof, i, receipt, d);
    var grown := Graft(Digest(proof[i]), receipt.nonce, LeafHash(receipt), d);
    SidesDiffer(grown);
  }

  lemma {:induction false} GraftBelowIsWellFormed(root: Hash, proof: seq<Node>, i: nat, receipt: Receipt, d: int)
    requires PathOf(proof, root, receipt.nonce) && i < |proof|
    requires forall j | 0 <= j < i :: proof[j].bit < d
    requires WellFormed(Graft(root, receipt.nonce, LeafHash(receipt), d))
    ensures WellFormed(Graft(Digest(proof[i]), receipt.nonce, LeafHash(receipt), d))
    ensures Graft(Digest(proof[i]), receipt.nonce, LeafHash(receipt), d).node.Branch?
  {
    if i > 0 {
      GraftBelowIsWellFormed(root, proof, i - 1, receipt, d);
    }
  }

  ghost predicate AllSplit(proof: seq<Node>, n: nat, nonce: Sha, leaf: Hash, d: int)
    requires n < |proof|
  {
    forall i | 0 <= i <= n :: SplitsHashes(Graft(Digest(proof[i]), nonce, leaf, d))
  }

  lemma AllGraftsSplit(root: Hash, proof: seq<Node>, n: nat, receipt: Receipt, d: nat)
    requires WellFormed(root) && receipt.nonce !in Contents(root)
    requires PathOf(proof, root, receipt.nonce) && n < |proof| && d < 256
    requires FirstDifferentBit(proof[|proof| - 1].nonce, receipt.nonce) == Some(d)
    requires forall j | 0 <= j < n :: proof[j].bit < d
    ensures AllSplit(proof, n, receipt.nonce, LeafHash(receipt), d)
  {
    InsertRefinesMap(root, receipt);
    forall i | 0 <= i <= n
      ensures SplitsHashes(Graft(Digest(proof[i]), receipt.nonce, LeafHash(receipt), d))
    {
      GraftChildrenDiffer(root, proof, i, receipt, d);
    }
  }

  /** The first write of a list, then the others if it went through. */
  lemma RunFirst(d: Disk, w: Write, rest: seq<Write>, fuel: nat)
    ensures Run(d, [w] + rest, fuel) ==
            var o := Run(d, [w], fuel);
            if o.status == Done then Run(o.disk, rest, o.fuel) else o
  {
    RunConcat(d, [w], rest, fuel);
  }

  /** After a completed insertion the new root is stored and answers the new nonce. */
  lemma NewRootAnswers(d: Disk, root: Hash, receipt: Receipt, fuel: nat)
    requires Insertable(d, root, receipt)
    ensures var o := Run(d, InsertWrites(root, receipt), fuel);
            o.status == Done ==> RequireReceipt(o.disk, InsertRoot(root, receipt), receipt.nonce) == Ok(receipt)
  {
    InsertWritesAreEvidence(root, receipt);
    EvidenceWritesGrow(d, InsertWrites(root, receipt), fuel);
    InsertRefinesMap(root, receipt);
    InsertAnchorsNewRoot(d, root, receipt, fuel);
    var o := Run(d, InsertWrites(root, receipt), fuel);
    if o.status == Done {
      LookupAnswersContents(o.disk, InsertRoot(root, receipt), receipt.nonce);
    }
  }

  class Ledger {
    const device: Device

    constructor (device: Device)
      ensures this.device == device
    {
      this.device := device;
    }

    /** `_proof`. On any node files, malformed ones included, at most 257 nodes are read
        and the walk never runs out of bits. */
    method Proof(root: Hash, nonce: Sha) returns (r: Result<seq<Node>>, nodesRead: nat)
      ensures r == ProofOf(device.disk.nodes, root, nonce)
      ensures r != Err(ProofTooLong)
      ensures nodesRead <= 257 && (r.Ok? ==> |r.value| == nodesRead)
    {
      nodesRead := 0;
      if root == EmptyRoot {
        return Ok([]), 0;
      }
      r := Err(ProofTooLong);
      var path: seq<Node> := [];
      var current, previousBit := root, -1;
      PrependNothing(ProofFrom(device.disk.nodes, root, nonce, -1));
      while nodesRead < 257
        invariant nodesRead <= 257 && |path| == nodesRead
        invariant -1 <= previousBit < 256 && previousBit >= nodesRead - 1
        invariant ProofFrom(device.disk.nodes, root, nonce, -1) ==
                  Prepend(path, ProofFrom(device.disk.nodes, current, nonce, previousBit))
      {
        nodesRead := nodesRead + 1;
        var loaded := LoadNode(device.disk.nodes, current);
        if loaded.Err? {
          return Err(loaded.error), nodesRead;
        }
        var node := loaded.value;
        path := path + [node];
        if node.Leaf? {
          return Ok(path), nodesRead;
        }
        if node.bit <= previousBit {
          return Err(BranchOrder), nodesRead;
        }
        previousBit := node.bit;
        current := if Bit(nonce, node.bit) then node.right else node.left;
        PrependTwice(path[..nodesRead - 1], node, ProofFrom(device.disk.nodes, current, nonce, previousBit));
      }
      assert false;
    }

    /** The branches on the proof that test a bit below `different`, with the direction the
        nonce takes at each, and the node at which the new leaf is split off. */
    method PathAbove(root: Hash, proof: seq<Node>, nonce: Sha, different: nat)
      returns (prefix: seq<(Node, bool)>, subtree: Hash)
      requires PathOf(proof, root, nonce)
      ensures |prefix| < |proof| && subtree == Digest(proof[|prefix|])
      ensures forall i | 0 <= i < |prefix| ::
                prefix[i] == (proof[i], GoesRight(nonce, proof[i].bit)) && proof[i].bit < different
      ensures proof[|prefix|].Branch? ==> proof[|prefix|].bit >= different
    {
      prefix, subtree := [], root;
      var i := 0;
      while i < |proof|
        invariant 0 <= i < |proof| && |prefix| == i && subtree == Digest(proof[i])
        invariant forall j | 0 <= j < i ::
                    prefix[j] == (proof[j], GoesRight(nonce, proof[j].bit)) && proof[j].bit < different
      {
        var node := proof[i];
        if node.Leaf? || node.bit >= different {
          break;
        }
        var direction := Bit(nonce, node.bit);
        prefix := prefix + [(node, direction)];
        subtree := if direction then node.right else node.left;
        i := i + 1;
      }
    }

    /** `_canonical_insertion_root`: the insertion root from hashes alone. */
    method CanonicalInsertionRoot(root: Hash, receipt: Receipt) returns (r: Result<Hash>)
      ensures r == CanonicalRoot(device.disk.nodes, root, receipt)
    {
      hide Graft, GoesRight, Bit, Child, PathOf, ProofOf, CanonicalRoot, Regrown, FirstDifferentBit, Agree, Reached,
           LeafHash;
      var nonce := receipt.nonce;
      var checked, _ := Proof(root, nonce);
      CanonicalCases(device.disk.nodes, root, receipt);
      var proof :- checked;
      var newLeaf := LeafHash(receipt);
      if root == EmptyRoot {
        return Ok(newLeaf);
      }
      PathEnds(proof, root, nonce);
      var oldKey := proof[|proof| - 1].nonce;
      if oldKey == nonce {
        return Err(AlreadyMember);
      }
      FirstDifferentBitIsLeast(oldKey, nonce);
      var different := FirstDifferentBit(oldKey, nonce).value;
      var prefix, subtree := PathAbove(root, proof, nonce, different);
      GraftAtSplit(proof[|prefix|], nonce, newLeaf, different);
      var rebuilt := if Bit(nonce, different) then Digest(Branch(different, subtree, newLeaf))
                     else Digest(Branch(different, newLeaf, subtree));
      var i := |prefix|;
      while i > 0
        invariant 0 <= i <= |prefix|
        invariant rebuilt == Graft(Digest(proof[i]), nonce, newLeaf, different)
      {
        i := i - 1;
        var (node, direction) := prefix[i];
        PathStep(proof, root, nonce, i);
        GraftAbove(node, nonce, newLeaf, different);
        RegrownEither(node, direction, rebuilt);
        rebuilt := if direction then Digest(Branch(node.bit, node.left, rebuilt))
                   else Digest(Branch(node.bit, rebuilt, node.right));
      }
      r := Ok(rebuilt);
    }

    /** `_branch` */
    method CreateBranch(bit: int, left: Hash, right: Hash) returns (r: Result<Hash>)
      modifies device
      ensures OnlyEvidence(old(device.disk), device.disk)
      ensures !(0 <= bit < 256) || left == right ==>
                r == Err(BranchNonCanonical) && device.disk == old(device.disk) && device.fuel == old(device.fuel)
      ensures 0 <= bit < 256 && left != right ==>
                var o := Run(old(device.disk), [CreateNode(Branch(bit, left, right))], old(device.fuel));
                device.disk == o.disk && device.fuel == o.fuel &&
                r == if o.status == Done then Ok(Digest(Branch(bit, left, right))) else Err(StatusError(o.status))
    {
      if !(0 <= bit < 256) || left == right {
        return Err(BranchNonCanonical);
      }
      var status := device.Commit(CreateNode(Branch(bit, left, right)));
      r := if status == Done then Ok(Digest(Branch(bit, left, right))) else Err(StatusError(status));
    }

    /** Rebuild the branches above the split, bottom up. */
    method RebuildPath(proof: seq<Node>, prefix: seq<(Node, bool)>, start: Hash,
                       ghost nonce: Sha, ghost leaf: Hash, ghost d: int) returns (r: Result<Hash>)
      requires |prefix| < |proof| && start == Graft(Digest(proof[|prefix|]), nonce, leaf, d)
      requires forall i | 0 <= i < |prefix| ::
                 && proof[i].Branch? && proof[i].bit < d
                 && Child(proof[i], nonce) == Digest(proof[i + 1])
                 && prefix[i] == (proof[i], GoesRight(nonce, proof[i].bit))
      modifies device
      ensures OnlyEvidence(old(device.disk), device.disk)
      ensures AllSplit(proof, |prefix|, nonce, leaf, d) ==>
                var o := Run(old(device.disk), UpperWrites(proof, |prefix|, nonce, leaf, d), old(device.fuel));
                device.disk == o.disk && device.fuel == o.fuel &&
                r == if o.status == Done then Ok(Graft(Digest(proof[0]), nonce, leaf, d))
                    else Err(StatusError(o.status))
    {
      hide UpperWrites, AllSplit, Graft, GoesRight, Run, Child;
      ghost var sound := AllSplit(proof, |prefix|, nonce, leaf, d);
      ghost var whole := Run(device.disk, UpperWrites(proof, |prefix|, nonce, leaf, d), device.fuel);
      var rebuilt := start;
      var i := |prefix|;
      while i > 0
        invariant 0 <= i <= |prefix|
        invariant rebuilt == Graft(Digest(proof[i]), nonce, leaf, d)
        invariant OnlyEvidence(old(device.disk), device.disk)
        invariant sound ==> whole == Run(device.disk, UpperWrites(proof, i, nonce, leaf, d), device.fuel)
      {
        i := i - 1;
        var (node, direction) := prefix[i];
        RebuildStep(proof, i, |prefix|, nonce, leaf, d, device.disk, device.fuel);
        var left := if direction then node.left else rebuilt;
        var right := if direction then rebuilt else node.right;
        assert Branch(node.bit, left, right) == Regrown(node, direction, rebuilt);
        var grown := CreateBranch(node.bit, left, right);
        if grown.Err? {
          return grown;
        }
        rebuilt := grown.value;
      }
      NothingAbove(proof, nonce, leaf, d, device.disk, device.fuel);
      r := Ok(rebuilt);
    }

    /** The writing part of `insert` below the leaf: split, then the path bottom up. */
    method WritePath(root: Hash, receipt: Receipt) returns (r: Result<Hash>)
      requires root != EmptyRoot
      modifies device
      ensures OnlyEvidence(old(device.disk), device.disk)
      ensures Insertable(old(device.disk), root, receipt) ==>
                var o := Run(old(device.disk), PathWrites(root, receipt), old(device.fuel));
                device.disk == o.disk && device.fuel == o.fuel &&
                r == if o.status == Done then Ok(InsertRoot(root, receipt)) else Err(StatusError(o.status))
    {
      var nonce, newLeaf := receipt.nonce, LeafHash(receipt);
      ghost var sound := Insertable(device.disk, root, receipt);
      if sound {
        StoredTrieProves(device.disk.nodes, root, nonce, -1);
      }
      var checked, _ := Proof(root, nonce);
      var proof :- checked;
      ProofIsPath(device.disk.nodes, root, nonce, -1);
      var oldKey := proof[|proof| - 1].nonce;
      FirstDifferentBitIsLeast(oldKey, nonce);
      if oldKey == nonce {
        assert sound ==> false by {
          if sound {
            LookupDecidesMembership(root, nonce);
          }
        }
        return Err(DuplicateLeaf);
      }
      var different := FirstDifferentBit(oldKey, nonce).value;
      var prefix, subtree := PathAbove(root, proof, nonce, different);
      r := SplitAndRebuild(root, proof, prefix, subtree, receipt, different);
    }

    method SplitAndRebuild(ghost root: Hash, proof: seq<Node>, prefix: seq<(Node, bool)>, subtree: Hash,
                           receipt: Receipt, different: nat) returns (r: Result<Hash>)
      requires PathOf(proof, root, receipt.nonce) && different < 256
      requires FirstDifferentBit(proof[|proof| - 1].nonce, receipt.nonce) == Some(different)
      requires |prefix| < |proof| && subtree == Digest(proof[|prefix|])
      requires forall i | 0 <= i < |prefix| ::
                 prefix[i] == (proof[i], GoesRight(receipt.nonce, proof[i].bit)) && proof[i].bit < different
      requires proof[|prefix|].Branch? ==> proof[|prefix|].bit >= different
      modifies device
      ensures OnlyEvidence(old(device.disk), device.disk)
      ensures WellFormed(root) && receipt.nonce !in Contents(root) ==>
                var o := Run(old(device.disk), PathWrites(root, receipt), old(device.fuel));
                device.disk == o.disk && device.fuel == o.fuel &&
                r == if o.status == Done then Ok(InsertRoot(root, receipt)) else Err(StatusError(o.status))
    {
      var nonce, newLeaf := receipt.nonce, LeafHash(receipt);
      if WellFormed(root) && receipt.nonce !in Contents(root) {
        AllGraftsSplit(root, proof, |prefix|, receipt, different);
      }
      GraftWritesByDepth(proof, |prefix|, root, nonce, newLeaf, different);
      ghost var upper := UpperWrites(proof, |prefix|, nonce, newLeaf, different);
      var left := if Bit(nonce, different) then subtree else newLeaf;
      var right := if Bit(nonce, different) then newLeaf else subtree;
      RunFirst(device.disk, CreateNode(Branch(different, left, right)), upper, device.fuel);
      assert GraftWrites(root, nonce, newLeaf, different) == [CreateNode(Branch(different, left, right))] + upper;
      var split := CreateBranch(different, left, right);
      if split.Err? {
        return split;
      }
      r := RebuildPath(proof, prefix, split.value, nonce, newLeaf, different);
    }

    /** The writing half of `insert`: receipt, leaf, then the path. */
    method WriteInsertion(root: Hash, receipt: Receipt) returns (r: Result<Hash>)
      modifies device
      ensures OnlyEvidence(old(device.disk), device.disk)
      ensures Insertable(old(device.disk), root, receipt) ==>
                var o := Run(old(device.disk), InsertWrites(root, receipt), old(device.fuel));
                device.disk == o.disk && device.fuel == o.fuel &&
                r == if o.status == Done then Ok(InsertRoot(root, receipt)) else Err(StatusError(o.status))
    {
      ghost var d0, f0 := device.disk, device.fuel;
      ghost var path := PathWrites(root, receipt);
      var nonce, leaf := receipt.nonce, Leaf(receipt.nonce, receipt);
      ghost var first, second := CreateReceipt(receipt), CreateNode(leaf);
      assert InsertWrites(root, receipt) == [first] + ([second] + path);
      RunConcat(d0, [first], [second] + path, f0);
      EvidenceWritesGrow(d0, [first], f0);
      var status := device.Commit(CreateReceipt(receipt));
      if status != Done {
        return Err(StatusError(status));
      }
      var again :- LoadReceipt(device.disk, nonce);
      if again != receipt {
        return Err(RevalidationFailed);
      }
      ghost var d1, f1 := device.disk, device.fuel;
      RunConcat(d1, [second], path, f1);
      EvidenceWritesGrow(d1, [second], f1);
      status := device.Commit(CreateNode(leaf));
      if status != Done {
        return Err(StatusError(status));
      }
      if Insertable(d0, root, receipt) {
        AnchoredGrows(d0, device.disk, root);
      }
      var newRoot := Digest(leaf);
      if root != EmptyRoot {
        newRoot :- WritePath(root, receipt);
      }
      if Insertable(d0, root, receipt) {
        NewRootAnswers(d0, root, receipt, f0);
      }
      var verified :- RequireReceipt(device.disk, newRoot, nonce);
      if verified != receipt {
        return Err(RevalidationFailed);
      }
      r := Ok(newRoot);
    }

    /** `insert`: consume a nonce under a root, once. */
    method Insert(oldRoot: Hash, oldCount: nat, receipt: Receipt) returns (r: Result<Insertion>)
      modifies device
      ensures OnlyEvidence(old(device.disk), device.disk)
      ensures Intact(old(device.disk)) && Anchored(old(device.disk), oldRoot) ==>
                var d := old(device.disk);
                if oldCount >= MAX_NONCE_RECEIPTS then r == Err(CapacityExhausted) && device.disk == d
                else if receipt.nonce in Contents(oldRoot) then
                  && device.disk == d && device.fuel == old(device.fuel)
                  && r == if Contents(oldRoot)[receipt.nonce] == receipt
                          then Ok(Insertion(oldRoot, oldRoot, oldCount, oldCount, receipt))
                          else Err(NonceConsumedDifferently)
                else
                  var o := Run(d, InsertWrites(oldRoot, receipt), old(device.fuel));
                  && device.disk == o.disk && device.fuel == o.fuel
                  && r == if o.status == Done
                          then Ok(Insertion(oldRoot, InsertRoot(oldRoot, receipt), oldCount, oldCount + 1, receipt))
                          else Err(if o.status == Crashed then MachineStopped else EvidenceConflict)
    {
      if device.disk.reserved {
        return Err(ReservedArtifact);
      }
      if oldCount >= MAX_NONCE_RECEIPTS {
        return Err(CapacityExhausted);
      }
      if Intact(device.disk) && Anchored(device.disk, oldRoot) {
        LookupAnswersContents(device.disk, oldRoot, receipt.nonce);
      }
      var anchored :- Lookup(device.disk, oldRoot, receipt.nonce);
      if anchored.Some? {
        if anchored.value != receipt {
          return Err(NonceConsumedDifferently);
        }
        return Ok(Insertion(oldRoot, oldRoot, oldCount, oldCount, receipt));
      }
      var newRoot :- WriteInsertion(oldRoot, receipt);
      r := Ok(Insertion(oldRoot, newRoot, oldCount, oldCount + 1, receipt));
    }
  }
}
