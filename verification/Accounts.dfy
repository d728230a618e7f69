/** Reading payment accounts: which payments become jobs, and which are still eligible. */
module Accounts {
  import opened Types

  /** The fields of a Payment account the oracle looks at. */
  datatype Payment = Payment(
    uid: Uid,
    authority: Pubkey,
    slaHash: Bytes32,
    deliveryHash: Bytes32,
    amount: nat,
    mint: Pubkey,
    deliveryTimestamp: int,
    resolutionState: nat,
    expiresAt: int)

  /** The RPC's answer for one account. */
  datatype AccountRead = RpcFailed | Missing | TooShort | Found(payment: Payment)

  datatype ChainError = ChainError

  /** A job, if the payment is ours, delivered and unresolved. */
  function ReadPayment(oracle: Pubkey, key: Pubkey, read: AccountRead): Result<Option<EvaluationJob>, ChainError> {
    match read
    case RpcFailed => Failure(ChainError)
    case Missing => Failure(ChainError)
    case TooShort => Failure(ChainError)
    case Found(p) =>
      if p.authority != oracle then Success(None)
      else if p.deliveryTimestamp == 0 || p.resolutionState != 0 then Success(None)
      else Success(Some(EvaluationJob(p.uid, key, p.slaHash, p.deliveryHash, p.amount, p.mint, p.authority, p.expiresAt)))
  }

  /** The re-check before evaluation; a missing or malformed account is ineligible rather than an error. */
  function IsEligible(oracle: Pubkey, read: AccountRead, now: int): Result<bool, ChainError> {
    match read
    case RpcFailed => Failure(ChainError)
    case Missing => Success(false)
    case TooShort => Success(false)
    case Found(p) =>
      if p.authority != oracle then Success(false)
      else if p.deliveryTimestamp == 0 then Success(false)
      else if p.resolutionState != 0 then Success(false)
      else Success(now <= p.expiresAt)
  }
}
