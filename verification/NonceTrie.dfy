/** The persistent Patricia-Merkle dictionary behind the nonce ledger, as a mathematical
    object. A node hash is modelled symbolically: it is the node it was taken of, so two
    hashes are equal exactly when the hashed nodes are. `Unresolved` stands for a
    well-formed hash string that is nobody's node. */
module NonceTrie {
  import opened Wrappers
  import opened HexBits
  import opened Operations

  datatype Hash = EmptyRoot | Digest(node: Node) | Unresolved(id: nat)

  /** A leaf names a nonce and the checksum of its receipt. */
  datatype Node =
    | Leaf(nonce: Sha, receipt: Receipt)
    | Branch(bit: int, left: Hash, right: Hash)

  function LeafHash(receipt: Receipt): Hash {
    Digest(Leaf(receipt.nonce, receipt))
  }

  /** The nonce-to-receipt dictionary a hash stands for. */
  ghost function Contents(h: Hash): map<Sha, Receipt> {
    match h
    case EmptyRoot => map[]
    case Unresolved(_) => map[]
    case Digest(Leaf(nonce, receipt)) => map[nonce := receipt]
    case Digest(Branch(_, left, right)) => Contents(left) + Contents(right)
  }

  /** Any two keys agree on all bits below `n`. */
  ghost predicate SharePrefix(keys: set<Sha>, n: nat)
    requires n <= 256
  {
    forall k, l | k in keys && l in keys :: Agree(k, l, n)
  }

  /** A non-empty trie: a branch splits its keys on its own bit, and all of them agree
      on every lower bit. */
  ghost predicate WellFormed(h: Hash) {
    match h
    case EmptyRoot => false
    case Unresolved(_) => false
    case Digest(Leaf(nonce, receipt)) => receipt.nonce == nonce
    case Digest(Branch(bit, left, right)) =>
      && 0 <= bit < 256
      && WellFormed(left)
      && WellFormed(right)
      && (forall k | k in Contents(left) :: !Bit(k, bit))
      && (forall k | k in Contents(right) :: Bit(k, bit))
      && SharePrefix(Contents(h).Keys, bit)
  }

  ghost predicate WellFormedRoot(h: Hash) {
    h == EmptyRoot || WellFormed(h)
  }

  predicate GoesRight(key: Sha, bit: int) {
    0 <= bit < 256 && Bit(key, bit)
  }

  /** The node at which the walk along the bits of `key` ends. */
  function Reached(h: Hash, key: Sha): Option<Node> {
    match h
    case EmptyRoot => None
    case Unresolved(_) => None
    case Digest(Leaf(nonce, receipt)) => Some(h.node)
    case Digest(Branch(bit, left, right)) =>
      if GoesRight(key, bit) then Reached(right, key) else Reached(left, key)
  }

  /** Split on bit `d` at the first node along `key` that does not test a lower bit, and
      rebuild the path above it. */
  function Graft(h: Hash, key: Sha, leaf: Hash, d: int): Hash
    decreases h
  {
    match h
    case Digest(Branch(bit, left, right)) =>
      if bit < d then
        if GoesRight(key, bit) then Digest(Branch(bit, left, Graft(right, key, leaf, d)))
        else Digest(Branch(bit, Graft(left, key, leaf, d), right))
      else Split(h, key, leaf, d)
    case _ => Split(h, key, leaf, d)
  }

  function Split(h: Hash, key: Sha, leaf: Hash, d: int): Hash {
    if GoesRight(key, d) then Digest(Branch(d, h, leaf)) else Digest(Branch(d, leaf, h))
  }

  /** The root after inserting a receipt whose nonce is not yet a member. */
  function InsertRoot(root: Hash, receipt: Receipt): Hash {
    match Reached(root, receipt.nonce)
    case None => LeafHash(receipt)
    case Some(leaf) =>
      if leaf.Branch? then root
      else match FirstDifferentBit(leaf.nonce, receipt.nonce)
        case None => root
        case Some(d) => Graft(root, receipt.nonce, LeafHash(receipt), d)
  }

  lemma {:induction false} NonEmpty(h: Hash)
    requires WellFormed(h)
    ensures Contents(h).Keys != {}
    ensures forall k | k in Contents(h) :: Contents(h)[k].nonce == k
  {
    match h
    case Digest(Leaf(nonce, receipt)) => assert nonce in Contents(h);
    case Digest(Branch(bit, left, right)) =>
      NonEmpty(left);
      NonEmpty(right);
      var k :| k in Contents(left);
      assert k in Contents(h);
  }

  /** A walk ends at a member, and that leaf carries the member's receipt. */
  lemma {:induction false} ReachedIsMember(h: Hash, key: Sha)
    requires WellFormed(h)
    ensures Reached(h, key).Some? && Reached(h, key).value.Leaf?
    ensures var leaf := Reached(h, key).value;
            leaf.nonce in Contents(h) && Contents(h)[leaf.nonce] == leaf.receipt
  {
    match h
    case Digest(Leaf(nonce, receipt)) =>
    case Digest(Branch(bit, left, right)) =>
      ReachedIsMember(if Bit(key, bit) then right else left, key);
      assert Contents(left).Keys !! Contents(right).Keys;
  }

  /** The leaf a walk ends at shares the longest prefix with the key among all members. */
  lemma {:induction false} ReachedIsNearest(h: Hash, key: Sha, other: Sha, n: nat)
    requires WellFormed(h) && other in Contents(h) && n <= 256 && Agree(other, key, n)
    ensures Reached(h, key).Some? && Reached(h, key).value.Leaf?
    ensures Agree(Reached(h, key).value.nonce, key, n)
  {
    ReachedIsMember(h, key);
    match h
    case Digest(Leaf(nonce, receipt)) =>
    case Digest(Branch(bit, left, right)) =>
      var near := if Bit(key, bit) then right else left;
      if other in Contents(near) {
        ReachedIsNearest(near, key, other, n);
      } else {
        // The key leaves the trie of `other` at this branch, so the agreement stops here.
        assert Bit(other, bit) != Bit(key, bit);
        assert n <= bit;
        var leaf := Reached(h, key).value.nonce;
        assert Agree(leaf, other, bit);
        forall i | 0 <= i < n
          ensures Bit(leaf, i) == Bit(key, i)
        {
          assert Bit(leaf, i) == Bit(other, i);
        }
      }
  }

  /** Looking a nonce up by walking its bits decides membership exactly. */
  lemma {:induction false} LookupDecidesMembership(h: Hash, key: Sha)
    requires WellFormed(h)
    ensures Reached(h, key).Some? && Reached(h, key).value.Leaf?
    ensures key in Contents(h) <==> Reached(h, key).value.nonce == key
    ensures key in Contents(h) ==> Reached(h, key).value.receipt == Contents(h)[key]
  {
    ReachedIsMember(h, key);
    if key in Contents(h) {
      ReachedIsNearest(h, key, key, 256);
      AgreeEverywhere(Reached(h, key).value.nonce, key);
    }
  }

  /** No branch on the way to the nearest leaf tests the first bit on which that leaf
      and the key differ. */
  lemma {:induction false} CriticalBitIsFree(h: Hash, key: Sha, d: nat)
    requires WellFormed(h) && d < 256
    requires Reached(h, key).Some? && Reached(h, key).value.Leaf?
    requires Bit(Reached(h, key).value.nonce, d) != Bit(key, d)
    ensures h.node.Branch? ==> h.node.bit != d
    ensures h.node.Branch? ==>
              var next := if Bit(key, h.node.bit) then h.node.right else h.node.left;
              Reached(next, key) == Reached(h, key)
  {
    if h.node.Branch? {
      ReachedIsMember(if Bit(key, h.node.bit) then h.node.right else h.node.left, key);
    }
  }

  /** Splitting off the new leaf at the first bit that tells it apart from all members. */
  lemma SplitIsWellFormed(h: Hash, receipt: Receipt, d: nat)
    requires WellFormed(h) && d < 256
    requires forall k | k in Contents(h) :: Agree(k, receipt.nonce, d) && Bit(k, d) != Bit(receipt.nonce, d)
    ensures var grown := Split(h, receipt.nonce, LeafHash(receipt), d);
            WellFormed(grown) && Contents(grown) == Contents(h)[receipt.nonce := receipt]
  {
    var key, leaf := receipt.nonce, LeafHash(receipt);
    var grown := Split(h, key, leaf, d);
    assert Contents(leaf) == map[key := receipt] && WellFormed(leaf);
    hide Bit, Agree, SharePrefix;
    AddedBelow(Contents(h), map[], key, receipt);
    assert Contents(grown) == Contents(h)[key := receipt];
    OneLonger(Contents(h).Keys, key, d);
    assert Contents(grown).Keys == Contents(h).Keys + {key};
  }

  /** Keys that agree with one more key on a prefix share it with that key. */
  lemma OneLonger(keys: set<Sha>, key: Sha, n: nat)
    requires n <= 256 && forall k | k in keys :: Agree(k, key, n)
    ensures SharePrefix(keys + {key}, n)
  {
    hide Bit;
    forall k, l | k in keys + {key} && l in keys + {key}
      ensures Agree(k, l, n)
    {
      assert k == key || Agree(k, key, n);
      assert l == key || Agree(l, key, n);
    }
  }

  /** A branch stays well formed when the new key, which agrees with all its members on
      the lower bits, is added below it. */
  lemma {:induction false} BranchAboveStaysWellFormed(h: Hash, receipt: Receipt, grown: Hash)
    requires WellFormed(h) && h.node.Branch?
    requires forall k | k in Contents(h) :: Agree(k, receipt.nonce, h.node.bit)
    requires WellFormed(grown)
    requires Contents(grown) ==
             Contents(if Bit(receipt.nonce, h.node.bit) then h.node.right else h.node.left)[receipt.nonce := receipt]
    ensures var whole := if Bit(receipt.nonce, h.node.bit) then Digest(Branch(h.node.bit, h.node.left, grown))
                         else Digest(Branch(h.node.bit, grown, h.node.right));
            WellFormed(whole) && Contents(whole) == Contents(h)[receipt.nonce := receipt]
  {
    var key, bit := receipt.nonce, h.node.bit;
    var whole := if Bit(key, bit) then Digest(Branch(bit, h.node.left, grown))
                 else Digest(Branch(bit, grown, h.node.right));
    var left, right := Contents(h.node.left), Contents(h.node.right);
    assert Contents(h) == left + right;
    assert left.Keys !! right.Keys;
    assert Contents(whole) == if Bit(key, bit) then left + Contents(grown) else Contents(grown) + right;
    AddedBelow(left, right, key, receipt);
    OneLonger(Contents(h).Keys, key, bit);
    hide Agree;
    assert Contents(whole).Keys == Contents(h).Keys + {key};
  }

  lemma AddedBelow(left: map<Sha, Receipt>, right: map<Sha, Receipt>, key: Sha, receipt: Receipt)
    requires left.Keys !! right.Keys
    ensures left + right[key := receipt] == (left + right)[key := receipt]
    ensures key !in right ==> left[key := receipt] + right == (left + right)[key := receipt]
  {
  }

  /** Members agree with a key below a branch as soon as one of them does. */
  lemma OneMemberSpeaksForAll(h: Hash, near: Sha, key: Sha, n: nat)
    requires WellFormed(h) && h.node.Branch? && near in Contents(h)
    requires n <= h.node.bit && Agree(near, key, n)
    ensures forall k | k in Contents(h) :: Agree(k, key, n)
  {
    forall k | k in Contents(h)
      ensures Agree(k, key, n)
    {
      assert Agree(k, near, h.node.bit);
    }
  }

  lemma {:induction false} GraftIsWellFormed(h: Hash, receipt: Receipt, d: nat)
    requires WellFormed(h) && d < 256
    requires Reached(h, receipt.nonce).Some? && Reached(h, receipt.nonce).value.Leaf?
    requires var near := Reached(h, receipt.nonce).value.nonce;
             near in Contents(h) && Agree(near, receipt.nonce, d) && Bit(near, d) != Bit(receipt.nonce, d)
    ensures var grown := Graft(h, receipt.nonce, LeafHash(receipt), d);
            WellFormed(grown) && Contents(grown) == Contents(h)[receipt.nonce := receipt]
    decreases h
  {
    var key := receipt.nonce;
    var near := Reached(h, key).value.nonce;
    CriticalBitIsFree(h, key, d);
    if h.node.Branch? && h.node.bit < d {
      var next := if Bit(key, h.node.bit) then h.node.right else h.node.left;
      ReachedIsMember(next, key);
      GraftIsWellFormed(next, receipt, d);
      OneMemberSpeaksForAll(h, near, key, h.node.bit);
      BranchAboveStaysWellFormed(h, receipt, Graft(next, key, LeafHash(receipt), d));
    } else {
      AllMembersDiffer(h, near, key, d);
      SplitIsWellFormed(h, receipt, d);
    }
  }

  lemma AllMembersDiffer(h: Hash, near: Sha, key: Sha, d: nat)
    requires WellFormed(h) && near in Contents(h) && d < 256
    requires h.node.Branch? ==> d < h.node.bit
    requires Agree(near, key, d) && Bit(near, d) != Bit(key, d)
    ensures forall k | k in Contents(h) :: Agree(k, key, d) && Bit(k, d) != Bit(key, d)
  {
    if h.node.Branch? {
      OneMemberSpeaksForAll(h, near, key, d);
      forall k | k in Contents(h)
        ensures Bit(k, d) != Bit(key, d)
      {
        assert Agree(k, near, h.node.bit);
      }
    }
  }

  /** Insertion refines map insertion: the new root is well formed, finds the new nonce,
      and answers every other nonce as the old root did. */
  lemma {:induction false} InsertRefinesMap(root: Hash, receipt: Receipt)
    requires WellFormedRoot(root) && receipt.nonce !in Contents(root)
    ensures WellFormed(InsertRoot(root, receipt))
    ensures Contents(InsertRoot(root, receipt)) == Contents(root)[receipt.nonce := receipt]
  {
    if root != EmptyRoot {
      LookupDecidesMembership(root, receipt.nonce);
      var near := Reached(root, receipt.nonce).value.nonce;
      ReachedIsMember(root, receipt.nonce);
      FirstDifferentBitIsLeast(near, receipt.nonce);
      GraftIsWellFormed(root, receipt, FirstDifferentBit(near, receipt.nonce).value);
    }
  }

  /** History independence: one dictionary has one trie. */
  lemma {:induction false} OneTriePerDictionary(a: Hash, b: Hash)
    requires WellFormed(a) && WellFormed(b) && Contents(a) == Contents(b)
    ensures a == b
  {
    if a.node.Leaf? && b.node.Leaf? {
      assert a.node.nonce in Contents(b) && b.node.nonce in Contents(a);
    } else if a.node.Leaf? {
      TwoSides(b);
    } else if b.node.Leaf? {
      TwoSides(a);
    } else {
      BitIsDetermined(a, b);
      BitIsDetermined(b, a);
      SideContents(a, b, false);
      SideContents(a, b, true);
      OneTriePerDictionary(a.node.left, b.node.left);
      OneTriePerDictionary(a.node.right, b.node.right);
    }
  }

  lemma BitIsDetermined(a: Hash, b: Hash)
    requires WellFormed(a) && WellFormed(b) && Contents(a) == Contents(b)
    requires a.node.Branch? && b.node.Branch?
    ensures a.node.bit >= b.node.bit
  {
    TwoSides(a);
    var k, l :| k in Contents(a) && l in Contents(a) && !Bit(k, a.node.bit) && Bit(l, a.node.bit);
    assert Agree(k, l, b.node.bit);
  }

  /** A branch has members on both sides of its bit. */
  lemma TwoSides(h: Hash)
    requires WellFormed(h) && h.node.Branch?
    ensures exists k, l :: k in Contents(h) && l in Contents(h) && !Bit(k, h.node.bit) && Bit(l, h.node.bit)
    ensures SharePrefix(Contents(h).Keys, h.node.bit)
  {
    NonEmpty(h.node.left);
    NonEmpty(h.node.right);
    var k :| k in Contents(h.node.left);
    var l :| l in Contents(h.node.right);
    assert k in Contents(h) && l in Contents(h);
  }

  lemma SideContents(a: Hash, b: Hash, side: bool)
    requires WellFormed(a) && WellFormed(b) && Contents(a) == Contents(b)
    requires a.node.Branch? && b.node.Branch? && a.node.bit == b.node.bit
    ensures Contents(if side then a.node.right else a.node.left) ==
            Contents(if side then b.node.right else b.node.left)
  {
    OneSide(a, side);
    OneSide(b, side);
    hide *;
    assert Contents(if side then a.node.right else a.node.left) ==
           Contents(if side then b.node.right else b.node.left);
  }

  /** One side of a branch holds exactly its members with that bit. */
  lemma OneSide(h: Hash, side: bool)
    requires WellFormed(h) && h.node.Branch?
    ensures var part := Contents(if side then h.node.right else h.node.left);
            part == map k | k in Contents(h) && BitIs(k, h.node.bit, side) :: Contents(h)[k]
  {
    hide SharePrefix, Bit;
    assert Contents(h) == Contents(h.node.left) + Contents(h.node.right);
  }

  ghost predicate BitIs(k: Sha, bit: int, side: bool) {
    0 <= bit < 256 && Bit(k, bit) == side
  }

  /** The root that holds a batch of receipts, inserted one after the other. */
  function InsertAll(root: Hash, receipts: seq<Receipt>): Hash {
    if receipts == [] then root
    else InsertRoot(InsertAll(root, receipts[..|receipts| - 1]), receipts[|receipts| - 1])
  }

  ghost predicate DistinctNonces(receipts: seq<Receipt>) {
    forall i, j | 0 <= i < j < |receipts| :: receipts[i].nonce != receipts[j].nonce
  }

  /** The dictionary a batch of receipts spells out. */
  ghost function Dictionary(receipts: seq<Receipt>): map<Sha, Receipt> {
    if receipts == [] then map[]
    else var last := receipts[|receipts| - 1];
         Dictionary(receipts[..|receipts| - 1])[last.nonce := last]
  }

  lemma {:induction false} DictionaryEntries(receipts: seq<Receipt>)
    requires DistinctNonces(receipts)
    ensures forall r | r in receipts :: r.nonce in Dictionary(receipts) && Dictionary(receipts)[r.nonce] == r
    ensures forall k | k in Dictionary(receipts) ::
              Dictionary(receipts)[k] in receipts && Dictionary(receipts)[k].nonce == k
    ensures |Dictionary(receipts)| == |receipts|
  {
    if receipts != [] {
      var front, last := receipts[..|receipts| - 1], receipts[|receipts| - 1];
      assert receipts == front + [last];
      DictionaryEntries(front);
      assert last.nonce !in Dictionary(front);
      assert Dictionary(receipts).Keys == Dictionary(front).Keys + {last.nonce};
      assert |Dictionary(receipts).Keys| == |Dictionary(front).Keys| + 1;
    }
  }

  lemma {:induction false} InsertAllBuildsDictionary(receipts: seq<Receipt>)
    requires DistinctNonces(receipts)
    ensures WellFormedRoot(InsertAll(EmptyRoot, receipts))
    ensures receipts != [] ==> WellFormed(InsertAll(EmptyRoot, receipts))
    ensures Contents(InsertAll(EmptyRoot, receipts)) == Dictionary(receipts)
  {
    if receipts != [] {
      var front, last := receipts[..|receipts| - 1], receipts[|receipts| - 1];
      InsertAllBuildsDictionary(front);
      DictionaryEntries(front);
      assert last.nonce !in Dictionary(front);
      InsertRefinesMap(InsertAll(EmptyRoot, front), last);
    }
  }

  lemma SameDictionary(first: seq<Receipt>, second: seq<Receipt>)
    requires DistinctNonces(first) && DistinctNonces(second)
    requires forall r :: r in first <==> r in second
    ensures Dictionary(first) == Dictionary(second)
  {
    DictionaryEntries(first);
    DictionaryEntries(second);
    hide Dictionary, DistinctNonces;
    var a, b := Dictionary(first), Dictionary(second);
    forall k | k in a
      ensures k in b && b[k] == a[k]
    {
      assert a[k] in first && a[k] in second;
    }
    forall k | k in b
      ensures k in a
    {
      assert b[k] in second && b[k] in first;
    }
  }

  /** One set of receipts, inserted in any two orders, gives one root. */
  lemma {:induction false} InsertionOrderIsIrrelevant(first: seq<Receipt>, second: seq<Receipt>)
    requires DistinctNonces(first) && DistinctNonces(second)
    requires forall r :: r in first <==> r in second
    ensures InsertAll(EmptyRoot, first) == InsertAll(EmptyRoot, second)
  {
    SameDictionary(first, second);
    hide Contents, InsertRoot, Dictionary, DistinctNonces;
    if second != [] {
      assert second[0] in first;
    }
    InsertAllBuildsDictionary(first);
    InsertAllBuildsDictionary(second);
    if first != [] {
      assert first[0] in second;
      OneTriePerDictionary(InsertAll(EmptyRoot, first), InsertAll(EmptyRoot, second));
    }
  }
}
