/** The bundler's error type and its mapping to ERC-4337 JSON-RPC codes. */
module Errors {
  import opened Types
  import opened Packing
  import opened Validation

  const INVALID_PARAMS: int := -32602
  const INTERNAL_ERROR: int := -32603
  const SIMULATE_VALIDATION_REJECTED: int := -32500
  const PAYMASTER_REJECTED: int := -32501
  const OUT_OF_TIME_RANGE: int := -32503
  const ACCOUNT_VALIDATION_REVERTED: int := -32521

  /** `usize::MAX`, the op index of a complaint about the outer transaction. */
  const OUTER: nat := MAX_U64

  datatype InvalidReason = TipAboveCap | OuterFeeCapExceedsU128 | OuterTipExceedsU128

  datatype SignerError = InvalidKey | SigningFailed

  datatype RevertReason =
    | FailedOp(opIndex: U64, reason: string)
    | FailedOpWithRevert(opIndex: U64, reason: string, inner: Bytes)
    | SignatureValidationFailed(aggregator: Address)
    | PostOpReverted(returnData: Bytes)
    | StandardError(message: string)
    | Panic(code: U64)
    | Unknown(raw: Bytes)

  datatype BundlerError =
    | WrongChainId(expected: U64, got: U64)
    | EmptyBatch
    | BatchTooLarge(size: nat, max: nat)
    | InvalidUserOp(opIndex: nat, reason: InvalidReason)
    | PriorityFeeTooLow(opIndex: nat, tip: U256, min: U256)
    | FeeCapTooLow(opIndex: nat, feeCap: U256, required: U256)
    | InsufficientDeposit(opIndex: nat, sponsor: Address, required: U256, deposit: U256)
    | Cancelled
    | ReceiptTimeout(txHash: TxHash)
    | HandleOpsReverted(txHash: TxHash, blockNumber: U64, revert: RevertReason)
    | PackFailed(pack: PackError)
    | ValidationFailed(validation: ValidationError)
    | ProviderFault(provider: ProviderError)
    | SignerFault(signer: SignerError)

  /** The part of the JSON-RPC error a client can act on. */
  datatype RpcError = RpcError(code: int, txHash: Option<TxHash>)

  function ClassifyRevert(r: RevertReason): int {
    match r
    case FailedOp(_, reason) => if "AA3" <= reason then PAYMASTER_REJECTED else SIMULATE_VALIDATION_REJECTED
    case FailedOpWithRevert(_, reason, _) =>
      if "AA3" <= reason then PAYMASTER_REJECTED else SIMULATE_VALIDATION_REJECTED
    case SignatureValidationFailed(_) => SIMULATE_VALIDATION_REJECTED
    case PostOpReverted(_) => PAYMASTER_REJECTED
    case StandardError(_) => SIMULATE_VALIDATION_REJECTED
    case Panic(_) => SIMULATE_VALIDATION_REJECTED
    case Unknown(_) => INTERNAL_ERROR
  }

  function ClassifyValidation(e: ValidationError): int {
    match e
    case AccountSignatureFailed => SIMULATE_VALIDATION_REJECTED
    case PaymasterSignatureFailed => PAYMASTER_REJECTED
    case OutOfTimeRange(_, _, _) => OUT_OF_TIME_RANGE
    case UnsupportedAggregator => ACCOUNT_VALIDATION_REVERTED
    case ProviderFailed(_) => INTERNAL_ERROR
  }

  function Classify(e: BundlerError): RpcError {
    match e
    case WrongChainId(_, _) => RpcError(INVALID_PARAMS, None)
    case EmptyBatch => RpcError(INVALID_PARAMS, None)
    case BatchTooLarge(_, _) => RpcError(INVALID_PARAMS, None)
    case InvalidUserOp(_, _) => RpcError(INVALID_PARAMS, None)
    case PriorityFeeTooLow(_, _, _) => RpcError(INVALID_PARAMS, None)
    case FeeCapTooLow(_, _, _) => RpcError(INVALID_PARAMS, None)
    case InsufficientDeposit(_, _, _, _) => RpcError(SIMULATE_VALIDATION_REJECTED, None)
    case Cancelled => RpcError(INTERNAL_ERROR, None)
    case ReceiptTimeout(tx) => RpcError(INTERNAL_ERROR, Some(tx))
    case HandleOpsReverted(tx, _, reason) => RpcError(ClassifyRevert(reason), Some(tx))
    case PackFailed(_) => RpcError(INVALID_PARAMS, None)
    case ValidationFailed(v) => RpcError(ClassifyValidation(v), None)
    case ProviderFault(_) => RpcError(INTERNAL_ERROR, None)
    case SignerFault(_) => RpcError(INTERNAL_ERROR, None)
  }

  /** Codes that promise the client nothing reached the execution layer. */
  predicate NothingSentCode(code: int) {
    code == INVALID_PARAMS || code == OUT_OF_TIME_RANGE || code == ACCOUNT_VALIDATION_REVERTED
  }

  predicate BlamesPaymaster(r: RevertReason) {
    r.PostOpReverted? || ((r.FailedOp? || r.FailedOpWithRevert?) && "AA3" <= r.reason)
  }

  /** Which errors a client finds behind each code, and which carry a transaction hash. */
  lemma CodeTable(e: BundlerError)
    ensures Classify(e).code == -32602 <==>
            || e.WrongChainId? || e.EmptyBatch? || e.BatchTooLarge? || e.InvalidUserOp?
            || e.PriorityFeeTooLow? || e.FeeCapTooLow? || e.PackFailed?
    ensures Classify(e).code == -32501 <==>
            || (e.ValidationFailed? && e.validation.PaymasterSignatureFailed?)
            || (e.HandleOpsReverted? && BlamesPaymaster(e.revert))
    ensures Classify(e).code == -32500 <==>
            || e.InsufficientDeposit? || (e.ValidationFailed? && e.validation.AccountSignatureFailed?)
            || (e.HandleOpsReverted? && !BlamesPaymaster(e.revert) && !e.revert.Unknown?)
    ensures Classify(e).code == -32503 <==> e.ValidationFailed? && e.validation.OutOfTimeRange?
    ensures Classify(e).code == -32521 <==> e.ValidationFailed? && e.validation.UnsupportedAggregator?
    ensures Classify(e).code in {-32602, -32500, -32501, -32503, -32521, -32603}
    ensures Classify(e).txHash.Some? <==> e.ReceiptTimeout? || e.HandleOpsReverted?
    ensures Classify(e).txHash.Some? ==> Classify(e).txHash.value == e.txHash
  {
  }

  /** An onchain revert is never reported under a code that promises silence. */
  lemma RevertsSpeak(r: RevertReason)
    ensures !NothingSentCode(ClassifyRevert(r))
  {
  }
}
