/** Values shared by every part of the oracle: bytes, payments, jobs, documents and verdicts. */
module Types {

  datatype Option<+T> = None | Some(value: T)

  datatype Result<+T, +E> = Success(value: T) | Failure(error: E)

  newtype Byte = x: int | 0 <= x < 256

  type Bytes = seq<Byte>

  /** The `[u8; 32]` arrays: payment identifiers and SHA-256 digests. */
  type Bytes32 = b: Bytes | |b| == 32 witness seq(32, _ => 0)

  datatype Uid = Uid(bytes: Bytes32)

  /** A public key, identified by its base58 text (`Pubkey::to_string` is injective). */
  datatype Pubkey = Pubkey(text: string)

  datatype EvaluationJob = EvaluationJob(
    uid: Uid,
    pubkey: Pubkey,
    slaHash: Bytes32,
    deliveryHash: Bytes32,
    amount: nat,
    mint: Pubkey,
    authority: Pubkey,
    expiresAt: int)

  /** The resolution vocabulary of the escrow program; its numeric codes are not part of this model. */
  datatype ResolutionReason =
    | NoReason
    | GeneralRejection
    | StatusCodeOutOfRange
    | LatencyExceeded
    | RequiredFieldsMissing
    | SchemaValidationFailed
    | BodyTooShort

  datatype CheckResult = CheckResult(name: string, passed: bool, detail: string)

  datatype EvaluationResult = EvaluationResult(
    approved: bool,
    reason: ResolutionReason,
    checks: seq<CheckResult>)

  /** What a pipeline that settled hands back to its caller. */
  datatype PipelineOutcome = PipelineOutcome(
    result: EvaluationResult,
    signature: Option<string>,
    resolutionHash: Bytes32)

  function Min(a: nat, b: nat): nat {
    if a <= b then a else b
  }

  function Max(a: nat, b: nat): nat {
    if a >= b then a else b
  }
}
