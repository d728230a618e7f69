/** When agents settle only what pipelines produce, chain and ledger hold one verdict per payment, the same
    in every run. */
module Agreement {
  import opened Types
  import opened Ledger
  import opened Worker
  import opened Protocol
  import opened Pipeline
  import opened Refinement
  import opened ManualEvaluation
  import Safety

  /** The commitment of every payment: one job per payment, as its on-chain account never changes these. */
  type Payments = Uid -> EvaluationJob

  /** Agents take jobs of these payments and submit what a pipeline run for their job brought to settlement. */
  ghost predicate FaithfulLabel<V>(c: Setup<V>, jobs: Payments, s: State, l: Label) {
    match l
    case TakeJob(job) => SameCommitment(job, jobs(job.uid))
    case Request(_, job) => SameCommitment(job, jobs(job.uid))
    case Evaluate(id, result, hash, _) =>
      id in s.agents && s.agents[id].Evaluating? ==> MaySettle(c, s.agents[id].job, result, hash)
    case _ => true
  }

  ghost predicate Faithful<V>(c: Setup<V>, jobs: Payments, maxAttempts: nat, s: State, ls: seq<Label>)
    decreases |ls|
  {
    ls != [] ==>
      FaithfulLabel(c, jobs, s, ls[0]) && Faithful(c, jobs, maxAttempts, Step(maxAttempts, s, ls[0]), ls[1..])
  }

  ghost predicate Produced<V>(c: Setup<V>, jobs: Payments, u: Uid, result: EvaluationResult, hash: Bytes32) {
    MaySettle(c, jobs(u), result, hash)
  }

  ghost predicate AgentFaithful<V>(c: Setup<V>, jobs: Payments, a: Agent) {
    && SameCommitment(a.job, jobs(a.job.uid))
    && (a.Awaiting? ==> Produced(c, jobs, a.job.uid, a.result, a.hash))
    && (a.Writing? && a.stage.Settling? ==> Produced(c, jobs, a.job.uid, a.stage.result, a.stage.hash))
  }

  ghost predicate TxFaithful<V>(c: Setup<V>, jobs: Payments, tx: Tx) {
    exists checks :: Produced(c, jobs, tx.uid, EvaluationResult(tx.approved, tx.reason, checks), tx.hash)
  }

  ghost predicate RowFaithful<V>(c: Setup<V>, jobs: Payments, u: Uid, v: VerdictRow) {
    Produced(c, jobs, u, EvaluationResult(v.approved, v.reason, v.checks), v.resolutionHash)
  }

  ghost predicate StmtFaithful<V>(c: Setup<V>, jobs: Payments, stmt: Stmt) {
    stmt.UpsertVerdict? ==> RowFaithful(c, jobs, stmt.uid, stmt.verdict)
  }

  ghost predicate AllFaithful<V>(c: Setup<V>, jobs: Payments, s: State) {
    && (forall id :: id in s.agents ==> AgentFaithful(c, jobs, s.agents[id]))
    && (forall tx :: tx in s.submitted ==> TxFaithful(c, jobs, tx))
    && (forall u :: u in s.db.verdicts ==> RowFaithful(c, jobs, u, s.db.verdicts[u]))
    && (forall stmt :: stmt in s.late ==> StmtFaithful(c, jobs, stmt))
  }

  /** The statements of an agent's call carry its own result. */
  lemma CallFaithful<V>(c: Setup<V>, jobs: Payments, a: Agent)
    requires AgentFaithful(c, jobs, a) && a.Writing? && a.done < |CallOf(a.job, a.stage)|
    ensures StmtFaithful(c, jobs, CallOf(a.job, a.stage)[a.done])
  {
  }

  lemma NextFaithful<V>(c: Setup<V>, jobs: Payments, id: AgentId, a: Agent, ok: bool)
    requires AgentFaithful(c, jobs, a) && a.Writing?
    ensures NextAgent(id, a, ok).Some? ==> AgentFaithful(c, jobs, NextAgent(id, a, ok).value)
  {
  }

  lemma ExecFaithful<V>(c: Setup<V>, jobs: Payments, db: Db, stmt: Stmt)
    requires forall u :: u in db.verdicts ==> RowFaithful(c, jobs, u, db.verdicts[u])
    requires StmtFaithful(c, jobs, stmt)
    ensures forall u :: u in Exec(db, stmt).verdicts ==> RowFaithful(c, jobs, u, Exec(db, stmt).verdicts[u])
  {
  }

  lemma WriteFaithful<V>(c: Setup<V>, jobs: Payments, s: State, id: AgentId, ok: bool)
    requires AllFaithful(c, jobs, s) && id in s.agents && s.agents[id].Writing?
    requires s.agents[id].done < |CallOf(s.agents[id].job, s.agents[id].stage)|
    ensures AllFaithful(c, jobs, WriteStep(s, id, ok))
  {
    var a := s.agents[id];
    var stmt := CallOf(a.job, a.stage)[a.done];
    CallFaithful(c, jobs, a);
    NextFaithful(c, jobs, id, a, ok);
    ExecFaithful(c, jobs, s.db, stmt);
    var s' := WriteStep(s, id, ok);
    forall other | other in s'.agents
      ensures AgentFaithful(c, jobs, s'.agents[other])
    {
      if other != id {
        assert s'.agents[other] == s.agents[other];
      }
    }
  }

  /** A submission is what the pipeline produced. */
  lemma EvaluateFaithful<V>(c: Setup<V>, jobs: Payments, a: Agent, result: EvaluationResult, hash: Bytes32,
                            sent: Agent)
    requires AgentFaithful(c, jobs, a) && MaySettle(c, a.job, result, hash)
    requires sent.Awaiting? && sent.job == a.job && sent.result == result && sent.hash == hash
    ensures AgentFaithful(c, jobs, sent) && TxFaithful(c, jobs, SentTx(sent))
  {
    var w :| SettlementOf(c, a.job, w) == Some(Settlement(result, hash));
    CommitmentDecides(c, a.job, jobs(a.job.uid), w);
    assert MaySettle(c, jobs(a.job.uid), result, hash);
    assert EvaluationResult(result.approved, result.reason, result.checks) == result;
  }

  /** Giving one agent a faithful state keeps everything faithful. */
  lemma SetAgentFaithful<V>(c: Setup<V>, jobs: Payments, s: State, s': State, moved: AgentId)
    requires AllFaithful(c, jobs, s) && s'.db == s.db && s'.late == s.late
    requires forall id :: id in s'.agents && id != moved ==> id in s.agents && s'.agents[id] == s.agents[id]
    requires moved in s'.agents ==> AgentFaithful(c, jobs, s'.agents[moved])
    requires forall tx :: tx in s'.submitted ==> tx in s.submitted || TxFaithful(c, jobs, tx)
    ensures AllFaithful(c, jobs, s')
  {
  }

  lemma SubmitFaithful<V>(c: Setup<V>, jobs: Payments, s: State, id: AgentId, sent: Agent)
    requires AllFaithful(c, jobs, s) && sent.Awaiting?
    requires AgentFaithful(c, jobs, sent) && TxFaithful(c, jobs, SentTx(sent))
    ensures AllFaithful(c, jobs, SetAgent(s.(submitted := s.submitted + {SentTx(sent)}), id, Some(sent)))
  {
    SetAgentFaithful(c, jobs, s, SetAgent(s.(submitted := s.submitted + {SentTx(sent)}), id, Some(sent)), id);
  }

  lemma EvaluateStepFaithful<V>(c: Setup<V>, jobs: Payments, maxAttempts: nat, s: State, l: Label)
    requires l.Evaluate? && AllFaithful(c, jobs, s) && FaithfulLabel(c, jobs, s, l)
    ensures AllFaithful(c, jobs, Step(maxAttempts, s, l))
  {
    if l.id in s.agents && s.agents[l.id].Evaluating? {
      var a := s.agents[l.id];
      var sent := Awaiting(a.job, a.attempt, l.result, l.hash, l.signature);
      EvaluateFaithful(c, jobs, a, l.result, l.hash, sent);
      SubmitFaithful(c, jobs, s, l.id, sent);
    }
  }

  /** Where the moved agent goes on, its job and its settlement stay. */
  lemma MovedFaithful<V>(c: Setup<V>, jobs: Payments, maxAttempts: nat, s: State, l: Label)
    requires AllFaithful(c, jobs, s) && FaithfulLabel(c, jobs, s, l) && Safety.MovesAgent(l) && !l.Evaluate?
    ensures var s', id := Step(maxAttempts, s, l), Safety.MovedAgent(l);
      id in s'.agents ==> AgentFaithful(c, jobs, s'.agents[id])
  {
    var id := Safety.MovedAgent(l);
    if id in s.agents {
      assert AgentFaithful(c, jobs, s.agents[id]);
    }
  }

  lemma StepFaithful<V>(c: Setup<V>, jobs: Payments, maxAttempts: nat, s: State, l: Label)
    requires AllFaithful(c, jobs, s) && FaithfulLabel(c, jobs, s, l)
    ensures AllFaithful(c, jobs, Step(maxAttempts, s, l))
  {
    match l {
      case Write(id, ok) =>
        if id in s.agents && s.agents[id].Writing? && s.agents[id].done < |CallOf(s.agents[id].job, s.agents[id].stage)| {
          WriteFaithful(c, jobs, s, id, ok);
        }
      case RunLate(stmt) =>
        if stmt in s.late {
          ExecFaithful(c, jobs, s.db, stmt);
        }
      case Deliver(_) =>
      case Land(_) =>
      case CrashAll =>
      case Evaluate(_, _, _, _) => EvaluateStepFaithful(c, jobs, maxAttempts, s, l);
      case _ =>
        MovedFaithful(c, jobs, maxAttempts, s, l);
        Safety.MoveFrame(maxAttempts, s, l);
        SetAgentFaithful(c, jobs, s, Step(maxAttempts, s, l), Safety.MovedAgent(l));
    }
  }

  lemma {:induction false} RunFaithful<V>(c: Setup<V>, jobs: Payments, maxAttempts: nat, s: State, ls: seq<Label>)
    requires AllFaithful(c, jobs, s) && Faithful(c, jobs, maxAttempts, s, ls)
    ensures AllFaithful(c, jobs, Run(maxAttempts, s, ls))
    decreases |ls|
  {
    if ls != [] {
      StepFaithful(c, jobs, maxAttempts, s, ls[0]);
      RunFaithful(c, jobs, maxAttempts, Step(maxAttempts, s, ls[0]), ls[1..]);
    }
  }

  /** Any two runs that resolve a payment resolve it alike: whichever attempt lands, after whatever retries,
      crashes and races, approval, reason and hash are one function of the committed bytes. */
  lemma ChainVerdictIsUnique<V>(c: Setup<V>, jobs: Payments, n: nat, m: nat, ls: seq<Label>, ks: seq<Label>, u: Uid)
    requires Binds(c, jobs(u)) && Faithful(c, jobs, n, INIT, ls) && Faithful(c, jobs, m, INIT, ks)
    requires u in Run(n, INIT, ls).chain && u in Run(m, INIT, ks).chain
    ensures var x, y := Run(n, INIT, ls).chain[u], Run(m, INIT, ks).chain[u];
      x.approved == y.approved && x.reason == y.reason && x.hash == y.hash
  {
    var a := LandedIsProduced(c, jobs, n, ls, u);
    var b := LandedIsProduced(c, jobs, m, ks, u);
    var x, y := Run(n, INIT, ls).chain[u], Run(m, INIT, ks).chain[u];
    OneSettlement(c, jobs(u), a, x.hash, jobs(u), b, y.hash);
  }

  lemma LandedIsProduced<V>(c: Setup<V>, jobs: Payments, n: nat, ls: seq<Label>, u: Uid)
    returns (r: EvaluationResult)
    requires Faithful(c, jobs, n, INIT, ls) && u in Run(n, INIT, ls).chain
    ensures var tx := Run(n, INIT, ls).chain[u];
      Produced(c, jobs, u, r, tx.hash) && r.approved == tx.approved && r.reason == tx.reason
  {
    RunFaithful(c, jobs, n, INIT, ls);
    Safety.RunKeepsInv(n, INIT, ls);
    var tx := Run(n, INIT, ls).chain[u];
    assert TxFaithful(c, jobs, tx);
    var checks :| Produced(c, jobs, tx.uid, EvaluationResult(tx.approved, tx.reason, checks), tx.hash);
    r := EvaluationResult(tx.approved, tx.reason, checks);
  }

  /** A verdict row holds the whole settlement of the committed bytes: approval, reason, the ordered checks
      and the hash, the last being what the chain holds. */
  lemma VerdictRowIsCommitted<V>(c: Setup<V>, jobs: Payments, n: nat, ls: seq<Label>, u: Uid, slaBytes: Bytes,
                                 evidenceBytes: Bytes)
    requires Binds(c, jobs(u)) && Faithful(c, jobs, n, INIT, ls) && u in Run(n, INIT, ls).db.verdicts
    requires c.sha256(slaBytes) == jobs(u).slaHash && c.sha256(evidenceBytes) == jobs(u).deliveryHash
    ensures var s := Run(n, INIT, ls);
      var v := s.db.verdicts[u];
      && Committed(c, jobs(u), slaBytes, evidenceBytes)
         == Some(Settlement(EvaluationResult(v.approved, v.reason, v.checks), v.resolutionHash))
      && u in s.chain && s.chain[u].hash == v.resolutionHash
  {
    RowIsProduced(c, jobs, n, ls, u);
    Safety.VerdictsMatchChain(n, ls, u);
    var v := Run(n, INIT, ls).db.verdicts[u];
    OnlyCommittedSettles(c, jobs(u), EvaluationResult(v.approved, v.reason, v.checks), v.resolutionHash,
                         slaBytes, evidenceBytes);
  }

  lemma RowIsProduced<V>(c: Setup<V>, jobs: Payments, n: nat, ls: seq<Label>, u: Uid)
    requires Faithful(c, jobs, n, INIT, ls) && u in Run(n, INIT, ls).db.verdicts
    ensures RowFaithful(c, jobs, u, Run(n, INIT, ls).db.verdicts[u])
  {
    RunFaithful(c, jobs, n, INIT, ls);
  }

  lemma {:induction false} FaithfulPrefix<V>(c: Setup<V>, jobs: Payments, n: nat, s: State, a: seq<Label>, b: seq<Label>)
    requires Faithful(c, jobs, n, s, a + b)
    ensures Faithful(c, jobs, n, s, a)
    decreases |a|
  {
    if a != [] {
      assert (a + b)[0] == a[0] && (a + b)[1..] == a[1..] + b;
      FaithfulPrefix(c, jobs, n, Step(n, s, a[0]), a[1..], b);
    }
  }

  /** So a verdict row never changes once it is there, check list included. */
  lemma VerdictRowIsPermanent<V>(c: Setup<V>, jobs: Payments, n: nat, before: seq<Label>, after: seq<Label>, u: Uid)
    requires Binds(c, jobs(u)) && Faithful(c, jobs, n, INIT, before + after)
    requires u in Run(n, INIT, before).db.verdicts
    ensures var db' := Run(n, INIT, before + after).db;
      u in db'.verdicts && db'.verdicts[u] == Run(n, INIT, before).db.verdicts[u]
  {
    FaithfulPrefix(c, jobs, n, INIT, before, after);
    Safety.RecordsArePermanent(n, before, after, u);
    Safety.VerdictsMatchChain(n, before, u);
    VerdictHasJob(n, before, u);
    RowIsProduced(c, jobs, n, before, u);
    RowIsProduced(c, jobs, n, before + after, u);
    var v, v' := Run(n, INIT, before).db.verdicts[u], Run(n, INIT, before + after).db.verdicts[u];
    OneSettlement(c, jobs(u), EvaluationResult(v.approved, v.reason, v.checks), v.resolutionHash,
                  jobs(u), EvaluationResult(v'.approved, v'.reason, v'.checks), v'.resolutionHash);
  }

  lemma VerdictHasJob(n: nat, ls: seq<Label>, u: Uid)
    requires u in Run(n, INIT, ls).db.verdicts
    ensures u in Run(n, INIT, ls).db.jobs
  {
    Safety.RunKeepsInv(n, INIT, ls);
  }

  // The turns of worker and operators are such runs.

  /** A completed pipeline has settled what some run of it brings to settlement. */
  ghost predicate FromPipeline<V>(c: Setup<V>, job: EvaluationJob, p: PipelineResult) {
    p.Completed? ==> MaySettle(c, job, p.outcome.result, p.outcome.resolutionHash)
  }

  lemma OwnStep(maxAttempts: nat, id: AgentId, job: EvaluationJob, p: PipelineResult, s: State, l: Label)
    requires OwnLabel(id, job, p, l) && (id in s.agents ==> s.agents[id].job == job)
    ensures var s' := Step(maxAttempts, s, l); id in s'.agents ==> s'.agents[id].job == job
  {
  }

  lemma {:induction false} OwnLabelsFaithful<V>(
    c: Setup<V>, jobs: Payments, maxAttempts: nat, id: AgentId, job: EvaluationJob, p: PipelineResult, s: State,
    ls: seq<Label>)
    requires SameCommitment(job, jobs(job.uid)) && FromPipeline(c, job, p)
    requires (forall l :: l in ls ==> OwnLabel(id, job, p, l)) && (id in s.agents ==> s.agents[id].job == job)
    ensures Faithful(c, jobs, maxAttempts, s, ls)
    decreases |ls|
  {
    if ls != [] {
      OwnStep(maxAttempts, id, job, p, s, ls[0]);
      OwnLabelsFaithful(c, jobs, maxAttempts, id, job, p, Step(maxAttempts, s, ls[0]), ls[1..]);
    }
  }

  /** A worker turn under any faults, with a pipeline of this oracle, is a faithful run to the same ledger. */
  lemma WorkerTurnFaithful<V>(c: Setup<V>, jobs: Payments, maxAttempts: nat, w: WorkerState, s: State,
                              job: EvaluationJob, env: RunEnv)
    returns (ls: seq<Label>)
    requires w.ledger == Some(s.db) && WorkerId !in s.agents && Achievable(s, job, env.pipeline)
    requires SameCommitment(job, jobs(job.uid)) && FromPipeline(c, job, env.pipeline)
    ensures Faithful(c, jobs, maxAttempts, s, ls)
    ensures Process(maxAttempts, w, job, env).0.ledger == Some(Run(maxAttempts, s, ls).db)
  {
    ls := WorkerRunRefines(maxAttempts, w, s, job, env);
    OwnLabelsFaithful(c, jobs, maxAttempts, WorkerId, job, env.pipeline, s, ls);
  }

  /** So is a manual evaluation. */
  lemma ManualTurnFaithful<V>(c: Setup<V>, jobs: Payments, maxAttempts: nat, k: nat, s: State,
                              job: EvaluationJob, env: ManualEnv)
    returns (ls: seq<Label>)
    requires Manual(k) !in s.agents && job.uid in s.delivered && Achievable(s, job, env.pipeline)
    requires SameCommitment(job, jobs(job.uid)) && FromPipeline(c, job, env.pipeline)
    ensures Faithful(c, jobs, maxAttempts, s, ls)
    ensures ManualRun(s.db, job, env).db == Run(maxAttempts, s, ls).db
  {
    ls := ManualRunRefines(maxAttempts, k, s, job, env);
    OwnLabelsFaithful(c, jobs, maxAttempts, Manual(k), job, env.pipeline, s, ls);
  }
}
