/** The second writer of the ledger: evaluations requested by an operator. */
module ManualEvaluation {
  import opened Types
  import opened Ledger
  import opened Worker
  import opened Accounts
  import opened Protocol
  import opened Refinement

  /** The fates of the ledger statements in the order they are issued (0-1 queued, 2-4 the final record),
      and how the pipeline ends. */
  datatype ManualEnv = ManualEnv(fate: nat -> Fate, pipeline: PipelineResult)

  datatype Reply =
    | NotFound
    | ChainReadFailed
    | Evaluated(approved: bool, signature: Option<string>, checks: seq<CheckResult>)
    | Unsuccessful(error: string)

  function EndCall(job: EvaluationJob, p: PipelineResult): seq<Stmt> {
    if p.Completed? then SettledCall(job, p.outcome) else FailedCall(job, ManualErrorText(p))
  }

  datatype ManualResult = Gone(db: Db) | Done(db: Db)

  /** What a manual evaluation does to the ledger: no probe, no attempt, no dead-lettering. */
  function ManualRun(db: Db, job: EvaluationJob, env: ManualEnv): ManualResult {
    var q := RunCall(db, QueuedCall(job), env.fate, 0);
    if q.status == CallCrashed then Gone(q.db)
    else if env.pipeline.Died? then Gone(q.db)
    else
      var f := RunCall(q.db, EndCall(job, env.pipeline), env.fate, 2);
      if f.status == CallCrashed then Gone(f.db) else Done(f.db)
  }

  ghost predicate Survives(env: ManualEnv) {
    !env.pipeline.Died? && forall i: nat :: env.fate(i) != Crash
  }

  /** The handler, once the request is authorized. It shares counters and ledger with the worker and leaves
      the worker's own memory alone. */
  method EvaluateManually(w: EvaluationWorker, oracle: Pubkey, key: Pubkey, read: AccountRead, env: ManualEnv)
    returns (reply: Reply)
    requires Survives(env)
    modifies w`stats, if w.ledger == null then {} else {w.ledger}
    ensures reply.ChainReadFailed? <==> !read.Found?
    ensures reply.NotFound? <==>
            read.Found? && (read.payment.authority != oracle || read.payment.deliveryTimestamp == 0
                            || read.payment.resolutionState != 0)
    ensures reply.ChainReadFailed? || reply.NotFound? ==> w.View() == old(w.View())
    ensures reply.Evaluated? || reply.Unsuccessful? ==>
              && (env.pipeline.Completed? ==>
                    var result := env.pipeline.outcome.result;
                    && reply == Evaluated(result.approved, env.pipeline.outcome.signature, result.checks)
                    && w.stats == old(w.stats).(
                         evaluated := old(w.stats.evaluated) + 1,
                         approved := old(w.stats.approved) + (if result.approved then 1 else 0),
                         rejected := old(w.stats.rejected) + (if result.approved then 0 else 1)))
              && (!env.pipeline.Completed? ==>
                    reply.Unsuccessful? && w.stats == old(w.stats).(errors := old(w.stats.errors) + 1))
              && (w.ledger != null ==>
                    var p := read.payment;
                    var job := EvaluationJob(p.uid, key, p.slaHash, p.deliveryHash, p.amount, p.mint, p.authority,
                                             p.expiresAt);
                    Done(w.ledger.Contents()) == ManualRun(old(w.View()).ledger.value, job, env))
  {
    var r := ReadPayment(oracle, key, read);
    if r.Failure? {
      return ChainReadFailed;
    }
    if r.value.None? {
      return NotFound;
    }
    var job := r.value.value;
    if w.ledger != null {
      var _ := w.ledger.RecordStatus(job, Queued, None, EvQueued, env.fate, 0);
    }
    if env.pipeline.Completed? {
      var outcome := env.pipeline.outcome;
      reply := Evaluated(outcome.result.approved, outcome.signature, outcome.result.checks);
      if w.ledger != null {
        var _ := w.ledger.RecordSettled(job, outcome, env.fate, 2);
      }
      w.stats := w.stats.(evaluated := w.stats.evaluated + 1);
      if outcome.result.approved {
        w.stats := w.stats.(approved := w.stats.approved + 1);
      } else {
        w.stats := w.stats.(rejected := w.stats.rejected + 1);
      }
    } else {
      reply := Unsuccessful(if env.pipeline.TimedOut? then "Pipeline timed out" else ErrorText(env.pipeline));
      if w.ledger != null {
        var _ := w.ledger.RecordStatus(job, Failed, Some(ManualErrorText(env.pipeline)), EvFailed, env.fate, 2);
      }
      w.stats := w.stats.(errors := w.stats.errors + 1);
    }
  }

  // What it means for the worker's bookkeeping.

  predicate Executes(f: Fate) {
    f == Applied || f == ReplyLost
  }

  /** The statement at the head of the final record is issued and takes effect. */
  predicate EndUpserted(env: ManualEnv) {
    && env.fate(0) != Crash && !(env.fate(0) == Applied && env.fate(1) == Crash)
    && !env.pipeline.Died? && Executes(env.fate(2))
  }

  lemma QueuedRow(db: Db, job: EvaluationJob, fate: nat -> Fate)
    ensures var c := RunCall(db, QueuedCall(job), fate, 0);
      && c.db.jobs == (if Executes(fate(0)) then Exec(db, QueuedCall(job)[0]).jobs else db.jobs)
      && (c.status == CallCrashed <==> fate(0) == Crash || (fate(0) == Applied && fate(1) == Crash))
  {
    RunTwo(db, QueuedCall(job), fate, 0);
    RunOne(Exec(db, QueuedCall(job)[0]), [QueuedCall(job)[1]], fate, 1);
  }

  lemma EndRow(db: Db, job: EvaluationJob, p: PipelineResult, fate: nat -> Fate)
    ensures RunCall(db, EndCall(job, p), fate, 2).db.jobs
         == if Executes(fate(2)) then Exec(db, EndCall(job, p)[0]).jobs else db.jobs
  {
    var call := EndCall(job, p);
    if p.Completed? {
      RunThree(db, call, fate, 2);
      RunTwo(Exec(db, call[0]), [call[1], call[2]], fate, 3);
      RunOne(Exec(Exec(db, call[0]), call[1]), [call[2]], fate, 4);
    } else {
      RunTwo(db, call, fate, 2);
      RunOne(Exec(db, call[0]), [call[1]], fate, 3);
    }
  }

  /** Whatever faults it meets, a manual evaluation spends no attempt and touches no other payment's row. */
  lemma ManualSpendsNoAttempt(db: Db, job: EvaluationJob, env: ManualEnv, u: Uid)
    ensures AttemptCount(ManualRun(db, job, env).db, u) == AttemptCount(db, u)
    ensures u != job.uid ==> Lookup(ManualRun(db, job, env).db.jobs, u) == Lookup(db.jobs, u)
  {
    QueuedRow(db, job, env.fate);
    var queued := RunCall(db, QueuedCall(job), env.fate, 0).db;
    EndRow(queued, job, env.pipeline, env.fate);
    UpsertSpendsNoAttempt(db, QueuedCall(job)[0], u);
    UpsertSpendsNoAttempt(queued, EndCall(job, env.pipeline)[0], u);
  }

  lemma UpsertSpendsNoAttempt(db: Db, stmt: Stmt, u: Uid)
    requires stmt.UpsertJob? && stmt.status != Running
    ensures AttemptCount(Exec(db, stmt), u) == AttemptCount(db, u)
    ensures u != stmt.job.uid ==> Lookup(Exec(db, stmt).jobs, u) == Lookup(db.jobs, u)
  {
  }

  /** It does decide anew whether the payment is terminal: its last upsert that took effect has the word, so
      a settled or dead-lettered payment is open again unless the evaluation settles. */
  lemma ManualDecidesTerminality(db: Db, job: EvaluationJob, env: ManualEnv)
    ensures IsTerminal(ManualRun(db, job, env).db, job.uid) <==>
            if EndUpserted(env) then env.pipeline.Completed?
            else !Executes(env.fate(0)) && IsTerminal(db, job.uid)
  {
    QueuedRow(db, job, env.fate);
    EndRow(RunCall(db, QueuedCall(job), env.fate, 0).db, job, env.pipeline, env.fate);
  }

  // A manual evaluation as a run of the transition system.

  /** Under any faults; the payment was read as delivered and unresolved. */
  lemma ManualRunRefines(maxAttempts: nat, k: nat, s: Protocol.State, job: EvaluationJob, env: ManualEnv)
    returns (ls: seq<Label>)
    requires Manual(k) !in s.agents && job.uid in s.delivered && Achievable(s, job, env.pipeline)
    ensures var r := ManualRun(s.db, job, env);
      var s' := Protocol.Run(maxAttempts, s, ls);
      && s'.db == r.db && s'.delivered == s.delivered && Manual(k) !in s'.agents
      && (forall l :: l in ls ==> OwnLabel(Manual(k), job, env.pipeline, l))
      && (if r.Gone? then s'.agents == map[] else OthersWait(Manual(k), s, s'))
      && (r.Done? && env.pipeline.Completed? ==>
            job.uid in s'.chain && ConfirmTx(job, env.pipeline.outcome) in s'.confirmed)
  {
    var id := Manual(k);
    var s1 := Step(maxAttempts, s, Request(k, job));
    OneStep(maxAttempts, s, Request(k, job));
    var q := CallRefines(maxAttempts, id, s1, job, Queueing, 0, env.fate, 0);
    RunConcat(maxAttempts, s, [Request(k, job)], q);
    ls := [Request(k, job)] + q;
    assert CallOf(job, Queueing)[0..] == QueuedCall(job);
    var s2 := Protocol.Run(maxAttempts, s1, q);
    if RunCall(s.db, QueuedCall(job), env.fate, 0).status != CallCrashed {
      var rest := ManualEndRefines(maxAttempts, k, s2, job, env);
      RunConcat(maxAttempts, s, ls, rest);
      ls := ls + rest;
    }
  }

  lemma ManualEndRefines(maxAttempts: nat, k: nat, s: Protocol.State, job: EvaluationJob, env: ManualEnv)
    returns (ls: seq<Label>)
    requires Lookup(s.agents, Manual(k)) == Some(Checking(job, 1)) && Achievable(s, job, env.pipeline)
    ensures var s' := Protocol.Run(maxAttempts, s, ls);
      && s'.delivered == s.delivered && Manual(k) !in s'.agents
      && (forall l :: l in ls ==> OwnLabel(Manual(k), job, env.pipeline, l))
      && (env.pipeline.Died? ==> s'.db == s.db && s'.agents == map[])
      && (!env.pipeline.Died? ==>
            var f := RunCall(s.db, EndCall(job, env.pipeline), env.fate, 2);
            && s'.db == f.db
            && (if f.status == CallCrashed then s'.agents == map[] else OthersWait(Manual(k), s, s')))
      && (env.pipeline.Completed? ==>
            job.uid in s'.chain && ConfirmTx(job, env.pipeline.outcome) in s'.confirmed)
  {
    var id, p := Manual(k), env.pipeline;
    PipelineRefines(maxAttempts, id, s, job, 1, p);
    PipelineLabelsOwn(id, job, p);
    ls := PipelineLabels(id, p, job);
    if !p.Died? {
      var s1 := Protocol.Run(maxAttempts, s, ls);
      var stage := FinalStage(id, EndingFor(id, maxAttempts, 1, p), p);
      var rest := CallRefines(maxAttempts, id, s1, job, stage, 0, env.fate, 2);
      StageIsEndCall(job, id, EndingFor(id, maxAttempts, 1, p), p);
      RunConcat(maxAttempts, s, ls, rest);
      ls := ls + rest;
    }
  }

  lemma StageIsEndCall(job: EvaluationJob, id: AgentId, ending: Ending, p: PipelineResult)
    requires id.Manual? && !ending.EndDead? && (ending.EndSettled? <==> p.Completed?)
    requires ending.EndSettled? ==> p.outcome.signature.Some?
    ensures CallOf(job, FinalStage(id, ending, p))[0..] == EndCall(job, p)
  {
    if ending.EndSettled? {
      assert Outcome(FinalStage(id, ending, p)) == p.outcome;
    }
  }
}
