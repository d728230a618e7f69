/** The whole oracle as one transition system: chain, ledger, worker and manual evaluations.

    A step is a labelled function that leaves the state alone when the label is not enabled, so every
    sequence of labels is a run and every interleaving is some sequence of labels. */
module Protocol {
  import opened Types
  import opened Ledger
  import opened Worker

  /** A submitted `ConfirmOracle` transaction. The same content signed over the same blockhash is the
      same transaction, so two agents may hold equal values. */
  datatype Tx = Tx(uid: Uid, approved: bool, reason: ResolutionReason, hash: Bytes32, signature: string)

  /** The record call an agent is in the middle of. */
  datatype Stage =
    | Detecting
    | Queueing
    | Starting
    | Failing(error: string)
    | DeadLettering(error: string)
    | Settling(result: EvaluationResult, hash: Bytes32, signature: string)

  function Outcome(s: Stage): PipelineOutcome
    requires s.Settling?
  {
    PipelineOutcome(s.result, Some(s.signature), s.hash)
  }

  function CallOf(job: EvaluationJob, s: Stage): (stmts: seq<Stmt>)
    ensures stmts != []
  {
    match s
    case Detecting => DetectedCall(job)
    case Queueing => QueuedCall(job)
    case Starting => StartedCall(job)
    case Failing(e) => FailedCall(job, e)
    case DeadLettering(e) => DeadLetterCall(job, e)
    case Settling(_, _, _) => SettledCall(job, Outcome(s))
  }

  datatype AgentId = WorkerId | Manual(request: nat)

  /** Where one sequential activity stands. `Writing` has executed `done` statements of its call. */
  datatype Agent =
    | Probing(job: EvaluationJob)
    | Writing(job: EvaluationJob, stage: Stage, done: nat)
    | Counting(job: EvaluationJob)
    | Checking(job: EvaluationJob, attempt: nat)
    | Evaluating(job: EvaluationJob, attempt: nat)
    | Awaiting(job: EvaluationJob, attempt: nat, result: EvaluationResult, hash: Bytes32, signature: string)

  /** The transaction that carries a result. */
  function TxFor(uid: Uid, result: EvaluationResult, hash: Bytes32, signature: string): Tx {
    Tx(uid, result.approved, result.reason, hash, signature)
  }

  /** The transaction an activity waits for, or whose settlement it records. */
  function SentTx(a: Agent): Tx
    requires a.Awaiting? || (a.Writing? && a.stage.Settling?)
  {
    if a.Awaiting? then TxFor(a.job.uid, a.result, a.hash, a.signature)
    else TxFor(a.job.uid, a.stage.result, a.stage.hash, a.stage.signature)
  }

  /** `chain` holds the resolution of every resolved payment and `confirmed` the accepted transactions in
      order. `late` holds the statements reported as failed: each may still execute at any time, or never.
      `orphans` is a history variable: the attempts counted by a statement whose `started` event will
      never be issued. */
  datatype State = State(
    delivered: set<Uid>,
    chain: map<Uid, Tx>,
    confirmed: seq<Tx>,
    submitted: set<Tx>,
    db: Db,
    agents: map<AgentId, Agent>,
    late: multiset<Stmt>,
    orphans: multiset<Uid>)

  const INIT := State({}, map[], [], {}, EMPTY_DB, map[], multiset{}, multiset{})

  datatype Label =
    | Deliver(uid: Uid)
    | TakeJob(job: EvaluationJob)
    | Request(request: nat, job: EvaluationJob)
    | Probe(read: ReadFate)
    | Write(id: AgentId, ok: bool)
    | Count(read: ReadFate)
    | Eligible(id: AgentId)
    | Evaluate(id: AgentId, result: EvaluationResult, hash: Bytes32, signature: string)
    | Land(tx: Tx)
    | Confirm(id: AgentId)
    | Fail(id: AgentId, error: string)
    | RunLate(stmt: Stmt)
    | Drop(request: nat)
    | CrashAll

  /** What an agent does after a record call; `None` when its work is over. */
  function AfterCall(id: AgentId, job: EvaluationJob, stage: Stage, ok: bool): Option<Agent> {
    match stage
    case Detecting => Some(Writing(job, Queueing, 0))
    case Queueing => if id.WorkerId? then Some(Writing(job, Starting, 0)) else Some(Checking(job, 1))
    case Starting => if ok then Some(Counting(job)) else Some(Checking(job, 1))
    case _ => None
  }

  function SetAgent(s: State, id: AgentId, a: Option<Agent>): State {
    if a.Some? then s.(agents := s.agents[id := a.value]) else s.(agents := s.agents - {id})
  }

  predicate InPipeline(a: Agent) {
    a.Checking? || a.Evaluating? || a.Awaiting?
  }

  /** A call goes on to its next statement, unless this was its last one or it failed. */
  function NextAgent(id: AgentId, a: Agent, ok: bool): Option<Agent>
    requires a.Writing?
  {
    if ok && a.done + 1 < |CallOf(a.job, a.stage)| then Some(a.(done := a.done + 1))
    else AfterCall(id, a.job, a.stage, ok)
  }

  /** The next statement of a record call executes, or is reported as failed and may still execute later. */
  function WriteStep(s: State, id: AgentId, ok: bool): State
    requires id in s.agents && s.agents[id].Writing?
    requires s.agents[id].done < |CallOf(s.agents[id].job, s.agents[id].stage)|
  {
    var a := s.agents[id];
    var stmt := CallOf(a.job, a.stage)[a.done];
    SetAgent(if ok then s.(db := Exec(s.db, stmt)) else s.(late := s.late + multiset{stmt}),
             id, NextAgent(id, a, ok))
  }

  /** The attempt counted by an upsert to `running` stays without its event. */
  function OrphanOf(stmt: Stmt): multiset<Uid> {
    if stmt.UpsertJob? && stmt.status == Running then multiset{stmt.job.uid} else multiset{}
  }

  /** The payment whose `started` event this agent is about to insert. */
  function PendingStart(a: Option<Agent>): multiset<Uid> {
    if a.Some? && a.value.Writing? && a.value.stage == Starting && a.value.done == 1
    then multiset{a.value.job.uid} else multiset{}
  }

  /** Only the worker writes `started` calls. */
  function StartInProgress(s: State): multiset<Uid> {
    PendingStart(Lookup(s.agents, WorkerId))
  }

  function Step(maxAttempts: nat, s: State, l: Label): State {
    match l
    case Deliver(uid) => s.(delivered := s.delivered + {uid})
    case TakeJob(job) =>
      if WorkerId in s.agents then s else SetAgent(s, WorkerId, Some(Probing(job)))
    case Request(k, job) =>
      if Manual(k) in s.agents || job.uid !in s.delivered then s
      else SetAgent(s, Manual(k), Some(Writing(job, Queueing, 0)))
    case Probe(read) =>
      if !(WorkerId in s.agents && s.agents[WorkerId].Probing?) then s
      else if read == ReadOk && IsTerminal(s.db, s.agents[WorkerId].job.uid) then SetAgent(s, WorkerId, None)
      else SetAgent(s, WorkerId, Some(Writing(s.agents[WorkerId].job, Detecting, 0)))
    case Write(id, ok) =>
      if id in s.agents && s.agents[id].Writing? && s.agents[id].done < |CallOf(s.agents[id].job, s.agents[id].stage)|
      then WriteStep(s, id, ok) else s
    case Count(read) =>
      if !(WorkerId in s.agents && s.agents[WorkerId].Counting?) then s
      else
        var job := s.agents[WorkerId].job;
        SetAgent(s, WorkerId, Some(Checking(job, CountedAttempt(s.db, job.uid, CallOk, read))))
    case Eligible(id) =>
      if id in s.agents && s.agents[id].Checking? && s.agents[id].job.uid in s.delivered
      then SetAgent(s, id, Some(Evaluating(s.agents[id].job, s.agents[id].attempt))) else s
    case Evaluate(id, result, hash, signature) =>
      if id in s.agents && s.agents[id].Evaluating? then
        var a := Awaiting(s.agents[id].job, s.agents[id].attempt, result, hash, signature);
        SetAgent(s.(submitted := s.submitted + {SentTx(a)}), id, Some(a))
      else s
    case Land(tx) =>
      // The program accepts ConfirmOracle only for a delivered, unresolved payment.
      if tx in s.submitted && tx.uid in s.delivered && tx.uid !in s.chain
      then s.(chain := s.chain[tx.uid := tx], confirmed := s.confirmed + [tx]) else s
    case Confirm(id) =>
      if id in s.agents && s.agents[id].Awaiting? && SentTx(s.agents[id]) in s.confirmed then
        var a := s.agents[id];
        SetAgent(s, id, Some(Writing(a.job, Settling(a.result, a.hash, a.signature), 0)))
      else s
    case Fail(id, error) =>
      if id in s.agents && InPipeline(s.agents[id]) then
        var a := s.agents[id];
        var dead := id.WorkerId? && a.attempt >= maxAttempts;
        SetAgent(s, id, Some(Writing(a.job, if dead then DeadLettering(error) else Failing(error), 0)))
      else s
    case RunLate(stmt) =>
      if stmt in s.late
      then s.(db := Exec(s.db, stmt), late := s.late - multiset{stmt}, orphans := s.orphans + OrphanOf(stmt))
      else s
    case Drop(k) =>
      // The caller of a manual evaluation hangs up and its handler is dropped where it stands.
      SetAgent(s, Manual(k), None)
    case CrashAll => s.(agents := map[], orphans := s.orphans + StartInProgress(s))
  }

  function Run(maxAttempts: nat, s: State, ls: seq<Label>): State
    decreases |ls|
  {
    if ls == [] then s else Run(maxAttempts, Step(maxAttempts, s, ls[0]), ls[1..])
  }

  lemma {:induction false} RunConcat(maxAttempts: nat, s: State, a: seq<Label>, b: seq<Label>)
    ensures Run(maxAttempts, s, a + b) == Run(maxAttempts, Run(maxAttempts, s, a), b)
    decreases |a|
  {
    if a == [] {
      assert a + b == b;
    } else {
      assert (a + b)[1..] == a[1..] + b;
      RunConcat(maxAttempts, Step(maxAttempts, s, a[0]), a[1..], b);
    }
  }
}
