/** One evaluation from eligibility check to settlement, and why every run of it settles the same way. */
module Pipeline {
  import opened Types
  import opened Accounts
  import opened Fetch
  import opened Evaluator
  import opened Fingerprint

  /** The oracle's configuration and the libraries it computes with. */
  datatype Setup<!V> = Setup(
    oracle: Pubkey,
    strict: bool,
    policy: Policy,
    authHeaderValid: bool,
    sha256: Bytes -> Bytes32,
    utf8: string -> Bytes,
    parseSla: Bytes -> Option<SlaDocument<V>>,
    parseEvidence: Bytes -> Option<DeliveryEvidence<V>>,
    ops: JsonOps<V>,
    code: ResolutionReason -> nat)

  /** How sending the transaction ended; after `NotConfirmed` it may still land. */
  datatype SettleReply = NoBlockhash | NotConfirmed | Confirmed(signature: string)

  /** Everything the outside world answers during one run. */
  datatype Answers = Answers(
    account: AccountRead,
    now: int,
    slaMirrors: seq<Mirror>,
    evidenceMirrors: seq<Mirror>,
    reply: SettleReply)

  datatype PipelineError = ChainUnreachable | NotEligible | SlaFailed | EvidenceFailed | SettlementFailed

  /** The verdict and fingerprint a run hands to `settle`. */
  datatype Settlement = Settlement(result: EvaluationResult, hash: Bytes32)

  function Judged<V>(c: Setup<V>, sla: SlaDocument<V>, e: DeliveryEvidence<V>): EvaluationResult {
    var v := Adjudicate(c.strict, c.ops, sla, e);
    EvaluationResult(v.approved, v.reason, Report(Battery(c.strict, c.ops, sla, e)))
  }

  function Settle<V>(c: Setup<V>, job: EvaluationJob, sla: SlaDocument<V>, e: DeliveryEvidence<V>): Settlement {
    var result := Judged(c, sla, e);
    Settlement(result, ResolutionHash(s => c.sha256(c.utf8(s)), c.code, job, sla, result))
  }

  /** The document a fetch hands on, if any. */
  function Retrieved<V, D>(c: Setup<V>, parse: Bytes -> Option<D>, hash: Bytes32, mirrors: seq<Mirror>): Option<D> {
    if !c.authHeaderValid then None
    else
      match Fetch.Verdict(Codec(c.sha256, parse), hash, mirrors, c.policy)
      case Some(Success(d)) => Some(d)
      case _ => None
  }

  datatype Documents<V> = Documents(sla: SlaDocument<V>, evidence: DeliveryEvidence<V>)

  /** The documents a run evaluates, if it gets that far. */
  function DocumentsOf<V>(c: Setup<V>, job: EvaluationJob, a: Answers): Option<Documents<V>> {
    if IsEligible(c.oracle, a.account, a.now) != Success(true) then None
    else
      match Retrieved(c, c.parseSla, job.slaHash, a.slaMirrors)
      case None => None
      case Some(sla) =>
        match Retrieved(c, c.parseEvidence, job.deliveryHash, a.evidenceMirrors)
        case None => None
        case Some(e) => Some(Documents(sla, e))
  }

  /** What a run brings to settlement, if it gets there. */
  function SettlementOf<V>(c: Setup<V>, job: EvaluationJob, a: Answers): Option<Settlement> {
    match DocumentsOf(c, job, a)
    case None => None
    case Some(d) => Some(Settle(c, job, d.sla, d.evidence))
  }

  /** The account says that this oracle may resolve the payment now. */
  predicate MayResolve<V>(c: Setup<V>, a: Answers) {
    && a.account.Found?
    && var p := a.account.payment;
    && p.authority == c.oracle && p.deliveryTimestamp != 0 && p.resolutionState == 0 && a.now <= p.expiresAt
  }

  /** A document with this hash is what the mirrors serve first. */
  ghost predicate Available<V, D>(c: Setup<V>, parse: Bytes -> Option<D>, hash: Bytes32, mirrors: seq<Mirror>) {
    exists raw :: FirstDecided(mirrors, c.policy, raw) && c.sha256(raw) == hash && parse(raw).Some?
  }

  /** What it takes to get to settlement, in the outside world's answers. */
  ghost predicate CanSettle<V>(c: Setup<V>, job: EvaluationJob, a: Answers) {
    && MayResolve(c, a) && c.authHeaderValid
    && Available(c, c.parseSla, job.slaHash, a.slaMirrors)
    && Available(c, c.parseEvidence, job.deliveryHash, a.evidenceMirrors)
  }

  lemma RetrievedIffAvailable<V, D>(c: Setup<V>, parse: Bytes -> Option<D>, hash: Bytes32, mirrors: seq<Mirror>)
    requires c.authHeaderValid
    ensures Retrieved(c, parse, hash, mirrors).Some? <==> Available(c, parse, hash, mirrors)
  {
    var served := TryMirrors(mirrors, c.policy).raw;
    if served.Some? {
      FirstDecisiveResponse(mirrors, c.policy, served.value);
    }
    if Available(c, parse, hash, mirrors) {
      var raw :| FirstDecided(mirrors, c.policy, raw) && c.sha256(raw) == hash && parse(raw).Some?;
      FirstDecisiveResponse(mirrors, c.policy, raw);
    }
  }

  /** A run gets to settlement exactly when the account is ours, delivered, unresolved and unexpired and both
      documents are what the mirrors serve first. */
  lemma SettlesExactly<V>(c: Setup<V>, job: EvaluationJob, a: Answers)
    ensures DocumentsOf(c, job, a).Some? <==> CanSettle(c, job, a)
    ensures SettlementOf(c, job, a).Some? <==> CanSettle(c, job, a)
  {
    if c.authHeaderValid {
      RetrievedIffAvailable(c, c.parseSla, job.slaHash, a.slaMirrors);
      RetrievedIffAvailable(c, c.parseEvidence, job.deliveryHash, a.evidenceMirrors);
    }
  }

  /** The re-check agrees with the independent reader of accounts: a payment passes it exactly when it would
      still be read as a job and has not expired. */
  lemma EligibleIffStillAJob<V>(c: Setup<V>, key: Pubkey, a: Answers)
    ensures IsEligible(c.oracle, a.account, a.now) == Success(true) <==> MayResolve(c, a)
    ensures MayResolve(c, a) <==>
            var r := ReadPayment(c.oracle, key, a.account); r.Success? && r.value.Some? && a.now <= r.value.value.expiresAt
  {
  }

  /** Every mirror was tried in vain. */
  predicate Exhausts<V>(c: Setup<V>, mirrors: seq<Mirror>) {
    c.authHeaderValid && TryMirrors(mirrors, c.policy).raw.None?
  }

  /** One of the two fetches of this run exhausts its mirrors: never both, as a missing SLA ends the run. */
  predicate Misses<V>(c: Setup<V>, job: EvaluationJob, a: Answers) {
    IsEligible(c.oracle, a.account, a.now) == Success(true) &&
    (Exhausts(c, a.slaMirrors) ||
     (Retrieved(c, c.parseSla, job.slaHash, a.slaMirrors).Some? && Exhausts(c, a.evidenceMirrors)))
  }

  /** No mirror ever gives a readable 2xx answer. */
  ghost predicate NobodyServes<V>(c: Setup<V>, mirrors: seq<Mirror>) {
    forall i :: 0 <= i < |mirrors| ==> !Decides(mirrors[i].script, c.policy)
  }

  /** The miss counter rises exactly when the payment may be resolved, requests can be sent, and nobody serves the
      SLA, or nobody serves the evidence once the right SLA is there. */
  lemma MissesExactly<V>(c: Setup<V>, job: EvaluationJob, a: Answers)
    ensures Misses(c, job, a) <==>
            MayResolve(c, a) && c.authHeaderValid &&
            (NobodyServes(c, a.slaMirrors) ||
             (Available(c, c.parseSla, job.slaHash, a.slaMirrors) && NobodyServes(c, a.evidenceMirrors)))
  {
    ExhaustsIffNobodyServes(c, a.slaMirrors);
    ExhaustsIffNobodyServes(c, a.evidenceMirrors);
    if c.authHeaderValid {
      RetrievedIffAvailable(c, c.parseSla, job.slaHash, a.slaMirrors);
    }
  }

  lemma ExhaustsIffNobodyServes<V>(c: Setup<V>, mirrors: seq<Mirror>)
    ensures Exhausts(c, mirrors) <==> c.authHeaderValid && NobodyServes(c, mirrors)
  {
    NothingDecides(mirrors, c.policy);
    forall i | 0 <= i < |mirrors|
      ensures Serves(mirrors[i], c.policy) == None <==> !Decides(mirrors[i].script, c.policy)
    {
      ServesIffDecides(mirrors[i], c.policy);
    }
  }

  method FetchDocument<V, D>(c: Setup<V>, parse: Bytes -> Option<D>, hash: Bytes32, mirrors: seq<Mirror>, failures: nat)
    returns (d: Option<D>, failures': nat)
    requires failures < U64_MODULUS
    ensures d == Retrieved(c, parse, hash, mirrors)
    ensures Exhausts(c, mirrors) ==> d.None?
    ensures failures' == (if Exhausts(c, mirrors) && failures + 1 < U64_MODULUS then failures + 1 else failures)
    ensures failures' < U64_MODULUS
  {
    var r, _, _, counted := FetchEvidence(Codec(c.sha256, parse), mirrors, c.policy, c.authHeaderValid, hash, failures);
    failures' := counted;
    d := if r.Success? then Some(r.value) else None;
  }

  /** `run_pipeline`. Nothing is sent without a blockhash; what is sent may land even if it is not confirmed. */
  method RunPipeline<V>(c: Setup<V>, job: EvaluationJob, a: Answers, failures: nat)
    returns (r: Result<PipelineOutcome, PipelineError>, sent: Option<Settlement>, failures': nat)
    requires failures < U64_MODULUS
    ensures sent == if a.reply.NoBlockhash? then None else SettlementOf(c, job, a)
    ensures r.Success? <==> sent.Some? && a.reply.Confirmed?
    ensures r.Success? ==> r.value == PipelineOutcome(sent.value.result, Some(a.reply.signature), sent.value.hash)
    ensures r == Failure(ChainUnreachable) <==> a.account.RpcFailed?
    ensures r == Failure(NotEligible) <==> !a.account.RpcFailed? && !MayResolve(c, a)
    ensures r == Failure(SlaFailed) <==>
            && MayResolve(c, a)
            && Retrieved(c, c.parseSla, job.slaHash, a.slaMirrors).None?
    ensures r == Failure(SettlementFailed) <==> SettlementOf(c, job, a).Some? && !a.reply.Confirmed?
    ensures sent.Some? ==>
              && a.account.Found? && a.account.payment.authority == c.oracle && a.account.payment.deliveryTimestamp != 0
              && a.account.payment.resolutionState == 0 && a.now <= a.account.payment.expiresAt
    ensures sent.Some? <==> CanSettle(c, job, a) && !a.reply.NoBlockhash?
    ensures sent.Some? ==>
              var d := DocumentsOf(c, job, a).value;
              && Evaluator.Verdict(sent.value.result.approved, sent.value.result.reason)
                 == Adjudicate(c.strict, c.ops, d.sla, d.evidence)
              && sent.value.result.checks == Report(Battery(c.strict, c.ops, d.sla, d.evidence))
              && sent.value.hash == c.sha256(c.utf8(Preimage(c.code, job, d.sla, sent.value.result)))
    ensures failures' == if Misses(c, job, a) && failures + 1 < U64_MODULUS then failures + 1 else failures
  {
    sent, failures' := None, failures;
    SettlesExactly(c, job, a);
    var eligible := IsEligible(c.oracle, a.account, a.now);
    if eligible.Failure? {
      return Failure(ChainUnreachable), sent, failures';
    }
    if !eligible.value {
      return Failure(NotEligible), sent, failures';
    }
    var sla, evidence;
    sla, failures' := FetchDocument(c, c.parseSla, job.slaHash, a.slaMirrors, failures');
    if sla.None? {
      return Failure(SlaFailed), sent, failures';
    }
    evidence, failures' := FetchDocument(c, c.parseEvidence, job.deliveryHash, a.evidenceMirrors, failures');
    if evidence.None? {
      return Failure(EvidenceFailed), sent, failures';
    }
    var result := Evaluate(c.strict, c.ops, sla.value, evidence.value);
    var hash := ResolutionHash(s => c.sha256(c.utf8(s)), c.code, job, sla.value, result);
    if a.reply.NoBlockhash? {
      return Failure(SettlementFailed), sent, failures';
    }
    sent := Some(Settlement(result, hash));
    match a.reply {
      case Confirmed(signature) => return Success(PipelineOutcome(result, Some(signature), hash)), sent, failures';
      case _ => return Failure(SettlementFailed), sent, failures';
    }
  }

  // One verdict per payment.

  /** The documents the committed bytes stand for: no mirror, retry or clock takes part. */
  function Parsed<V>(c: Setup<V>, slaBytes: Bytes, evidenceBytes: Bytes): Option<Documents<V>> {
    match c.parseSla(slaBytes)
    case None => None
    case Some(sla) =>
      match c.parseEvidence(evidenceBytes)
      case None => None
      case Some(e) => Some(Documents(sla, e))
  }

  /** The settlement the committed bytes stand for. */
  function Committed<V>(c: Setup<V>, job: EvaluationJob, slaBytes: Bytes, evidenceBytes: Bytes): Option<Settlement> {
    match Parsed(c, slaBytes, evidenceBytes)
    case None => None
    case Some(d) => Some(Settle(c, job, d.sla, d.evidence))
  }

  /** A fetch that succeeds has parsed bytes with the committed hash, and parses nothing else. */
  lemma RetrievedFrom<V, D>(c: Setup<V>, parse: Bytes -> Option<D>, hash: Bytes32, mirrors: seq<Mirror>)
    returns (raw: Bytes)
    requires Retrieved(c, parse, hash, mirrors).Some?
    ensures c.sha256(raw) == hash && parse(raw) == Retrieved(c, parse, hash, mirrors)
  {
    raw := TryMirrors(mirrors, c.policy).raw.value;
  }

  ghost predicate Binds<V>(c: Setup<V>, job: EvaluationJob) {
    Binding(c.sha256, job.slaHash) && Binding(c.sha256, job.deliveryHash)
  }

  /** Whatever is evaluated was parsed from the bytes committed on chain. */
  lemma EvaluatesCommittedBytes<V>(c: Setup<V>, job: EvaluationJob, a: Answers, slaBytes: Bytes, evidenceBytes: Bytes)
    requires Binds(c, job) && DocumentsOf(c, job, a).Some?
    requires c.sha256(slaBytes) == job.slaHash && c.sha256(evidenceBytes) == job.deliveryHash
    ensures DocumentsOf(c, job, a) == Parsed(c, slaBytes, evidenceBytes)
  {
    var s := RetrievedFrom(c, c.parseSla, job.slaHash, a.slaMirrors);
    var e := RetrievedFrom(c, c.parseEvidence, job.deliveryHash, a.evidenceMirrors);
    assert s == slaBytes && e == evidenceBytes;
  }

  /** Whatever settles is the settlement of the bytes committed on chain. */
  lemma SettlesCommittedBytes<V>(c: Setup<V>, job: EvaluationJob, a: Answers, slaBytes: Bytes, evidenceBytes: Bytes)
    requires Binds(c, job) && DocumentsOf(c, job, a).Some?
    requires c.sha256(slaBytes) == job.slaHash && c.sha256(evidenceBytes) == job.deliveryHash
    ensures SettlementOf(c, job, a) == Committed(c, job, slaBytes, evidenceBytes)
  {
    EvaluatesCommittedBytes(c, job, a, slaBytes, evidenceBytes);
  }

  /** The parts of a job that a settlement depends on. */
  predicate SameCommitment(j: EvaluationJob, k: EvaluationJob) {
    j.uid == k.uid && j.pubkey == k.pubkey && j.slaHash == k.slaHash && j.deliveryHash == k.deliveryHash
  }

  lemma CommitmentDecides<V>(c: Setup<V>, j: EvaluationJob, k: EvaluationJob, a: Answers)
    requires SameCommitment(j, k)
    ensures DocumentsOf(c, j, a) == DocumentsOf(c, k, a) && SettlementOf(c, j, a) == SettlementOf(c, k, a)
  {
  }

  /** Two runs for the same commitment that both get to evaluate see the same documents, whatever the mirrors
      answered, in whatever order, over whatever retries. */
  lemma DocumentsAreDeterministic<V>(c: Setup<V>, j: EvaluationJob, a: Answers, k: EvaluationJob, b: Answers)
    requires SameCommitment(j, k) && Binds(c, j)
    requires DocumentsOf(c, j, a).Some? && DocumentsOf(c, k, b).Some?
    ensures DocumentsOf(c, j, a) == DocumentsOf(c, k, b)
  {
    var s := RetrievedFrom(c, c.parseSla, k.slaHash, b.slaMirrors);
    var e := RetrievedFrom(c, c.parseEvidence, k.deliveryHash, b.evidenceMirrors);
    EvaluatesCommittedBytes(c, j, a, s, e);
    EvaluatesCommittedBytes(c, k, b, s, e);
  }

  /** So they bring the same result and the same resolution hash to settlement. */
  lemma SettlementIsDeterministic<V>(c: Setup<V>, j: EvaluationJob, a: Answers, k: EvaluationJob, b: Answers)
    requires SameCommitment(j, k) && Binds(c, j)
    requires DocumentsOf(c, j, a).Some? && DocumentsOf(c, k, b).Some?
    ensures SettlementOf(c, j, a) == SettlementOf(c, k, b)
  {
    DocumentsAreDeterministic(c, j, a, k, b);
    CommitmentDecides(c, j, k, b);
  }

  /** Some run for this job brings this to settlement. */
  ghost predicate MaySettle<V>(c: Setup<V>, job: EvaluationJob, result: EvaluationResult, hash: Bytes32) {
    exists a :: SettlementOf(c, job, a) == Some(Settlement(result, hash))
  }

  lemma OnlyCommittedSettles<V>(c: Setup<V>, job: EvaluationJob, r: EvaluationResult, h: Bytes32,
                                slaBytes: Bytes, evidenceBytes: Bytes)
    requires Binds(c, job) && MaySettle(c, job, r, h)
    requires c.sha256(slaBytes) == job.slaHash && c.sha256(evidenceBytes) == job.deliveryHash
    ensures Committed(c, job, slaBytes, evidenceBytes) == Some(Settlement(r, h))
  {
    var a :| SettlementOf(c, job, a) == Some(Settlement(r, h));
    SettlesCommittedBytes(c, job, a, slaBytes, evidenceBytes);
  }

  lemma OneSettlement<V>(c: Setup<V>, j: EvaluationJob, r: EvaluationResult, h: Bytes32,
                         k: EvaluationJob, r': EvaluationResult, h': Bytes32)
    requires SameCommitment(j, k) && Binds(c, j)
    requires MaySettle(c, j, r, h) && MaySettle(c, k, r', h')
    ensures r == r' && h == h'
  {
    var a :| SettlementOf(c, j, a) == Some(Settlement(r, h));
    var b :| SettlementOf(c, k, b) == Some(Settlement(r', h'));
    SettlementIsDeterministic(c, j, a, k, b);
  }
}
