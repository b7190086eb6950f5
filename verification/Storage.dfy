/** The files of the registry and its nonce ledger, and the durable writes that change
    them. Every create, replace or unlink is one atomic step; the machine may stop before
    any of them. */
module Storage {
  import opened Wrappers
  import opened HexBits
  import opened Operations
  import opened NonceTrie

  datatype Lineage = Lineage(account: Sha, runtime: Runtime, epoch: Sha)

  datatype Binding = Binding(
    account: Sha,
    runtime: Runtime,
    epoch: Sha,
    lastOperation: Sha,
    history: seq<Sha>,
    kinds: seq<Kind>,
    lastReceipt: Operation,
    revision: nat,
    retiredRuntimes: seq<Runtime>,
    retiredAccounts: seq<Sha>,
    retiredLineages: seq<Lineage>)

  /** A registry record. The checksum of a record is the record itself, so `parent`
      holds the parent's checksum. */
  datatype Record = Record(
    sequence: nat,
    parent: Option<Record>,
    bindings: map<Sha, Binding>,
    nonceRoot: Hash,
    nonceCount: nat)

  datatype Base = Base(sequence: nat, checksum: Record)

  /** The ready marker of the ledger. */
  datatype Anchor = Anchor(initialRoot: Hash, initialCount: nat, base: Option<Base>)

  datatype Parent = ReadyAnchor(anchor: Anchor) | Previous(transition: Transition)

  /** One link of the append-only transition chain. */
  datatype Transition = Transition(
    parent: Parent,
    oldSequence: nat, oldChecksum: Record, oldRoot: Hash, oldCount: nat,
    newSequence: nat, newChecksum: Record, newRoot: Hash, newCount: nat,
    nonce: Sha, receiptChecksum: Receipt)

  datatype Pending = Pending(body: Transition, transitionChecksum: Transition)

  datatype Disk = Disk(
    reserved: bool,
    lineage: bool,
    current: Option<Record>,
    previous: Option<Record>,
    ready: Option<Anchor>,
    pending: Option<Pending>,
    transitions: map<nat, Transition>,
    receipts: map<Sha, Receipt>,
    nodes: map<Hash, Node>)

  datatype Write =
    | CreateLineage
    | CreateReady(anchor: Anchor)
    | CreateReceipt(receipt: Receipt)
    | CreateNode(node: Node)
    | CreatePending(pending: Pending)
    | CreateTransition(transition: Transition)
    | ReplacePrevious(record: Record)
    | ReplaceCurrent(record: Record)
    | UnlinkPending

  datatype Status = Done | Conflict | Crashed

  datatype Outcome = Outcome(disk: Disk, status: Status, fuel: nat)

  /** The effect of one durable write. Immutable objects are created exactly: an existing
      file must already hold the same content. `None` is a refused create. */
  function Perform(d: Disk, w: Write): Option<Disk> {
    match w
    case CreateLineage => if d.lineage then None else Some(d.(lineage := true))
    case CreateReady(a) =>
      if d.ready.Some? && d.ready.value != a then None else Some(d.(ready := Some(a)))
    case CreateReceipt(r) =>
      if r.nonce in d.receipts && d.receipts[r.nonce] != r then None
      else Some(d.(receipts := d.receipts[r.nonce := r]))
    case CreateNode(n) =>
      if Digest(n) in d.nodes && d.nodes[Digest(n)] != n then None
      else Some(d.(nodes := d.nodes[Digest(n) := n]))
    case CreatePending(p) =>
      if d.pending.Some? && d.pending.value != p then None else Some(d.(pending := Some(p)))
    case CreateTransition(t) =>
      if t.newCount in d.transitions && d.transitions[t.newCount] != t then None
      else Some(d.(transitions := d.transitions[t.newCount := t]))
    case ReplacePrevious(r) => Some(d.(previous := Some(r)))
    case ReplaceCurrent(r) => Some(d.(current := Some(r)))
    case UnlinkPending => Some(d.(pending := None))
  }

  /** Perform writes in order until one is refused or the machine stops; `fuel` is the
      number of writes that still reach the disk. */
  function Run(d: Disk, writes: seq<Write>, fuel: nat): Outcome
    decreases |writes|
  {
    if writes == [] then Outcome(d, Done, fuel)
    else if fuel == 0 then Outcome(d, Crashed, 0)
    else match Perform(d, writes[0])
      case None => Outcome(d, Conflict, fuel - 1)
      case Some(next) => Run(next, writes[1..], fuel - 1)
  }

  lemma {:induction false} RunConcat(d: Disk, first: seq<Write>, second: seq<Write>, fuel: nat)
    ensures Run(d, first + second, fuel) ==
            var o := Run(d, first, fuel);
            if o.status == Done then Run(o.disk, second, o.fuel) else o
    decreases |first|
  {
    if first == [] {
      assert first + second == second;
    } else {
      assert (first + second)[0] == first[0] && (first + second)[1..] == first[1..] + second;
      if fuel > 0 && Perform(d, first[0]).Some? {
        RunConcat(Perform(d, first[0]).value, first[1..], second, fuel - 1);
      }
    }
  }

  class Device {
    var disk: Disk
    var fuel: nat

    constructor (disk: Disk, fuel: nat)
      ensures this.disk == disk && this.fuel == fuel
    {
      this.disk, this.fuel := disk, fuel;
    }

    /** `_durable_create_exact`, `_atomic_replace` and `unlink`, one write at a time. */
    method Commit(w: Write) returns (status: Status)
      modifies this
      ensures Outcome(disk, status, fuel) == Run(old(disk), [w], old(fuel))
      ensures status == Done ==> Perform(old(disk), w) == Some(disk)
      ensures status != Done ==> disk == old(disk)
    {
      if fuel == 0 {
        return Crashed;
      }
      fuel := fuel - 1;
      match Perform(disk, w)
      case None => status := Conflict;
      case Some(next) =>
        disk := next;
        status := Done;
    }
  }
}
