/** The semantic requests of the registry and the receipts that consume their nonces.
    A digest of a request, of a receipt or of a runtime path is modelled by the value it
    is taken of, so that equal digests mean equal contents. */
module Operations {
  import opened HexBits

  type Runtime = string

  datatype Kind = Bind | Advance | Switch | Acknowledgement | Transfer | Recovery | Continuity

  /** What `_operation_receipt` digests, one constructor for each operation kind. */
  datatype Operation =
    | OpBind(nonce: Sha, account: Sha, runtime: Runtime, epoch: Sha)
    | OpAdvance(nonce: Sha, account: Sha, runtime: Runtime, source: Sha, target: Sha)
    | OpSwitch(nonce: Sha, sourceAccount: Sha, targetAccount: Sha, runtime: Runtime, source: Sha, target: Sha)
    | OpAcknowledge(nonce: Sha, account: Sha, runtime: Runtime, epoch: Sha)
    | OpRecover(nonce: Sha, request: Sha, account: Sha, runtime: Runtime, epoch: Sha)
    | OpContinue(nonce: Sha, request: Sha, account: Sha, runtime: Runtime, epoch: Sha)
    | OpTransfer(nonce: Sha, account: Sha, sourceRuntime: Runtime, targetRuntime: Runtime,
                 source: Sha, target: Sha, reason: string)

  datatype Receipt = Receipt(nonce: Sha, kind: Kind, account: Sha, runtime: Runtime, epoch: Sha,
                             semantic: Operation)

  function KindOf(op: Operation): Kind {
    match op
    case OpBind(_, _, _, _) => Bind
    case OpAdvance(_, _, _, _, _) => Advance
    case OpSwitch(_, _, _, _, _, _) => Switch
    case OpAcknowledge(_, _, _, _) => Acknowledgement
    case OpRecover(_, _, _, _, _) => Recovery
    case OpContinue(_, _, _, _, _) => Continuity
    case OpTransfer(_, _, _, _, _, _, _) => Transfer
  }

  /** The account, runtime and epoch that hold once the operation has committed. */
  function TargetAccount(op: Operation): Sha {
    if op.OpSwitch? then op.targetAccount else op.account
  }

  function TargetRuntime(op: Operation): Runtime {
    if op.OpTransfer? then op.targetRuntime else op.runtime
  }

  function TargetEpoch(op: Operation): Sha {
    match op
    case OpBind(_, _, _, epoch) => epoch
    case OpAdvance(_, _, _, _, target) => target
    case OpSwitch(_, _, _, _, _, target) => target
    case OpAcknowledge(_, _, _, epoch) => epoch
    case OpRecover(_, _, _, _, epoch) => epoch
    case OpContinue(_, _, _, _, epoch) => epoch
    case OpTransfer(_, _, _, _, _, target, _) => target
  }

  function ReceiptOf(op: Operation): Receipt {
    Receipt(op.nonce, KindOf(op), TargetAccount(op), TargetRuntime(op), TargetEpoch(op), op)
  }
}
