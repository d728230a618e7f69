/** Runs that show what the ledger does not promise: stronger claims than the safety theorems are false. */
module LedgerGaps {
  import opened Types
  import opened Ledger
  import opened Worker
  import opened CleanRuns
  import opened Protocol
  import opened Refinement

  /** A run without any ledger fault, crash or dropped request leads from one state to the other. */
  ghost predicate Reaches(maxAttempts: nat, s: State, s': State) {
    exists ls: seq<Label> :: Run(maxAttempts, s, ls) == s' && forall l :: l in ls ==> Faultless(l)
  }

  lemma ReachesByStep(maxAttempts: nat, s: State, l: Label)
    requires Faultless(l)
    ensures Reaches(maxAttempts, s, Step(maxAttempts, s, l))
  {
    OneStep(maxAttempts, s, l);
  }

  lemma ReachesOnwards(maxAttempts: nat, a: State, b: State, c: State)
    requires Reaches(maxAttempts, a, b) && Reaches(maxAttempts, b, c)
    ensures Reaches(maxAttempts, a, c)
  {
    var ls :| Run(maxAttempts, a, ls) == b && forall l :: l in ls ==> Faultless(l);
    var ms :| Run(maxAttempts, b, ms) == c && forall l :: l in ms ==> Faultless(l);
    RunConcat(maxAttempts, a, ls, ms);
  }

  /** A manual request writes a two-statement record call without faults. */
  lemma ManualCall(maxAttempts: nat, s: State, job: EvaluationJob, stage: Stage) returns (s': State)
    requires (stage == Queueing || stage.Failing?) && Lookup(s.agents, Manual(0)) == Some(Writing(job, stage, 0))
    ensures Reaches(maxAttempts, s, s') && OnlyLedgerMoved(s, s')
    ensures s'.db == Exec(Exec(s.db, CallOf(job, stage)[0]), CallOf(job, stage)[1])
    ensures Lookup(s'.agents, Manual(0)) == AfterCall(Manual(0), job, stage, true)
    ensures forall id :: id != Manual(0) ==> Lookup(s'.agents, id) == Lookup(s.agents, id)
  {
    var s1 := WriteStep(s, Manual(0), true);
    ReachesByStep(maxAttempts, s, Write(Manual(0), true));
    s' := WriteStep(s1, Manual(0), true);
    ReachesByStep(maxAttempts, s1, Write(Manual(0), true));
    ReachesOnwards(maxAttempts, s, s1, s');
  }

  lemma RequestArrives(maxAttempts: nat, job: EvaluationJob) returns (s: State)
    ensures Reaches(maxAttempts, INIT, s) && s.delivered == {job.uid} && s.chain == map[] && s.db == EMPTY_DB
    ensures WorkerId !in s.agents && Lookup(s.agents, Manual(0)) == Some(Writing(job, Queueing, 0))
  {
    var s1 := Step(maxAttempts, INIT, Deliver(job.uid));
    ReachesByStep(maxAttempts, INIT, Deliver(job.uid));
    s := Step(maxAttempts, s1, Request(0, job));
    ReachesByStep(maxAttempts, s1, Request(0, job));
    ReachesOnwards(maxAttempts, INIT, s1, s);
  }

  /** A manual request is queued and found eligible while the payment is still unresolved. */
  lemma ManualRequestWaits(maxAttempts: nat, job: EvaluationJob) returns (s: State)
    ensures Reaches(maxAttempts, INIT, s) && s.delivered == {job.uid} && s.chain == map[]
    ensures WorkerId !in s.agents && Lookup(s.agents, Manual(0)) == Some(Evaluating(job, 1))
    ensures !IsTerminal(s.db, job.uid)
  {
    var s1 := RequestArrives(maxAttempts, job);
    var s2 := ManualCall(maxAttempts, s1, job, Queueing);
    assert Lookup(s2.agents, WorkerId) == Lookup(s1.agents, WorkerId);
    s := Step(maxAttempts, s2, Eligible(Manual(0)));
    ReachesByStep(maxAttempts, s2, Eligible(Manual(0)));
    ReachesOnwards(maxAttempts, INIT, s1, s2);
    ReachesOnwards(maxAttempts, INIT, s2, s);
  }

  /** Meanwhile the worker settles the payment and records it. */
  lemma WorkerSettles(maxAttempts: nat, s: State, job: EvaluationJob, o: PipelineOutcome) returns (s': State)
    requires o.signature.Some? && job.uid in s.delivered && job.uid !in s.chain
    requires WorkerId !in s.agents && !IsTerminal(s.db, job.uid)
    ensures Reaches(maxAttempts, s, s') && OthersWait(WorkerId, s, s') && job.uid in s'.chain
    ensures job.uid in s'.db.jobs && s'.db.jobs[job.uid].status == Settled
    ensures s'.db.jobs[job.uid].signature == o.signature && s'.db.jobs[job.uid].resolutionHash == Some(o.resolutionHash)
    ensures job.uid in s'.db.verdicts
  {
    var env := CleanEnv(Completed(o));
    CleanProcess(maxAttempts, Boot(Some(s.db)), job, env);
    var ls := WorkerRunRefines(maxAttempts, Boot(Some(s.db)), s, job, env);
    s' := Run(maxAttempts, s, ls);
  }

  /** The losing manual run records its failure. */
  lemma ManualRunFails(maxAttempts: nat, s: State, job: EvaluationJob, error: string) returns (s': State)
    requires Lookup(s.agents, Manual(0)) == Some(Evaluating(job, 1)) && job.uid in s.db.jobs
    ensures Reaches(maxAttempts, s, s') && s'.chain == s.chain && s'.db.verdicts == s.db.verdicts
    ensures job.uid in s'.db.jobs && s'.db.jobs[job.uid].status == Failed
    ensures s'.db.jobs[job.uid].signature == s.db.jobs[job.uid].signature
    ensures s'.db.jobs[job.uid].resolutionHash == s.db.jobs[job.uid].resolutionHash
  {
    var s1 := Step(maxAttempts, s, Fail(Manual(0), error));
    ReachesByStep(maxAttempts, s, Fail(Manual(0), error));
    s' := ManualCall(maxAttempts, s1, job, Failing(error));
    ReachesOnwards(maxAttempts, s, s1, s');
  }

  /** `settled` is not final: a manual run that loses the race overwrites it with `failed`, without a
      single ledger fault. Signature, resolution hash, verdicts and chain stay. */
  lemma SettledCanBecomeFailed(maxAttempts: nat, job: EvaluationJob, o: PipelineOutcome, error: string)
    returns (s: State, s': State)
    requires o.signature.Some?
    ensures Reaches(maxAttempts, INIT, s) && Reaches(maxAttempts, s, s')
    ensures job.uid in s.db.jobs && s.db.jobs[job.uid].status == Settled
    ensures job.uid in s'.db.jobs && s'.db.jobs[job.uid].status == Failed && !IsTerminal(s'.db, job.uid)
    ensures s'.db.jobs[job.uid].signature == s.db.jobs[job.uid].signature == o.signature
    ensures s'.db.jobs[job.uid].resolutionHash == s.db.jobs[job.uid].resolutionHash == Some(o.resolutionHash)
    ensures s'.db.verdicts == s.db.verdicts && job.uid in s'.db.verdicts
    ensures s'.chain == s.chain && job.uid in s'.chain
  {
    var s1 := ManualRequestWaits(maxAttempts, job);
    s := WorkerSettles(maxAttempts, s1, job, o);
    ReachesOnwards(maxAttempts, INIT, s1, s);
    s' := ManualRunFails(maxAttempts, s, job, error);
  }

  lemma TimeOutAfterSending(maxAttempts: nat, s: State, job: EvaluationJob, tx: Tx, result: EvaluationResult)
    returns (s': State)
    requires Lookup(s.agents, WorkerId) == Some(Checking(job, 1)) && job.uid in s.delivered
    requires tx == Tx(job.uid, result.approved, result.reason, tx.hash, tx.signature)
    ensures Reaches(maxAttempts, s, s') && s'.db == s.db && s'.chain == s.chain && s'.delivered == s.delivered
    ensures tx in s'.submitted
    ensures Lookup(s'.agents, WorkerId)
         == Some(Writing(job, FinalStage(WorkerId, EndingOf(maxAttempts, 1, TimedOut), TimedOut), 0))
  {
    var s1 := SendFirst(maxAttempts, s, job, tx, result);
    s' := Step(maxAttempts, s1, Fail(WorkerId, "pipeline timeout"));
    ReachesByStep(maxAttempts, s1, Fail(WorkerId, "pipeline timeout"));
    ReachesOnwards(maxAttempts, s, s1, s');
  }

  lemma SendFirst(maxAttempts: nat, s: State, job: EvaluationJob, tx: Tx, result: EvaluationResult)
    returns (s': State)
    requires Lookup(s.agents, WorkerId) == Some(Checking(job, 1)) && job.uid in s.delivered
    requires tx == Tx(job.uid, result.approved, result.reason, tx.hash, tx.signature)
    ensures Reaches(maxAttempts, s, s') && s'.db == s.db && s'.chain == s.chain && s'.delivered == s.delivered
    ensures tx in s'.submitted
    ensures Lookup(s'.agents, WorkerId) == Some(Awaiting(job, 1, result, tx.hash, tx.signature))
  {
    var s1 := Step(maxAttempts, s, Eligible(WorkerId));
    ReachesByStep(maxAttempts, s, Eligible(WorkerId));
    var l := Evaluate(WorkerId, result, tx.hash, tx.signature);
    s' := Step(maxAttempts, s1, l);
    ReachesByStep(maxAttempts, s1, l);
    ReachesOnwards(maxAttempts, s, s1, s');
  }

  lemma FirstRunStarts(maxAttempts: nat, job: EvaluationJob) returns (s: State)
    ensures Reaches(maxAttempts, INIT, s) && s.delivered == {job.uid} && s.chain == map[]
    ensures s.db == StartedDb(EMPTY_DB, job) && Lookup(s.agents, WorkerId) == Some(Checking(job, 1))
  {
    var env := CleanEnv(TimedOut);
    var s1 := Step(maxAttempts, INIT, Deliver(job.uid));
    ReachesByStep(maxAttempts, INIT, Deliver(job.uid));
    var ls := StartRefines(maxAttempts, s1, job, env);
    CleanStart(EMPTY_DB, job, env);
    s := Run(maxAttempts, s1, ls);
    ReachesOnwards(maxAttempts, INIT, s1, s);
  }

  lemma TimeoutRecorded(maxAttempts: nat, s: State, job: EvaluationJob) returns (s': State)
    requires var ending := EndingOf(maxAttempts, 1, TimedOut);
      Lookup(s.agents, WorkerId) == Some(Writing(job, FinalStage(WorkerId, ending, TimedOut), 0))
    requires s.db == StartedDb(EMPTY_DB, job)
    ensures Reaches(maxAttempts, s, s') && OnlyLedgerMoved(s, s') && WorkerId !in s'.agents
    ensures s'.db == DbAfter(EMPTY_DB, job, EndingOf(maxAttempts, 1, TimedOut), TimedOut)
  {
    var env, ending := CleanEnv(TimedOut), EndingOf(maxAttempts, 1, TimedOut);
    var ls := EndRefines(maxAttempts, s, job, ending, env);
    CleanFailure(EMPTY_DB, job, ending, TimedOut, env.fate);
    s' := Run(maxAttempts, s, ls);
  }

  /** A resolved payment need not have a verdict row: its transaction can land after the run that sent it
      timed out and recorded the failure. No ledger call fails, and the worker is idle again. */
  lemma ResolvedWithoutVerdict(maxAttempts: nat, job: EvaluationJob, result: EvaluationResult, hash: Bytes32,
                               signature: string)
    returns (s: State)
    ensures Reaches(maxAttempts, INIT, s) && job.uid in s.chain && WorkerId !in s.agents
    ensures job.uid in s.db.jobs && s.db.jobs[job.uid].status == if maxAttempts <= 1 then DeadLetter else Failed
    ensures s.db.jobs[job.uid].signature.None? && job.uid !in s.db.verdicts
  {
    var tx := Tx(job.uid, result.approved, result.reason, hash, signature);
    var s1 := FirstRunStarts(maxAttempts, job);
    var s2 := TimeOutAfterSending(maxAttempts, s1, job, tx, result);
    var s3 := TimeoutRecorded(maxAttempts, s2, job);
    s := Step(maxAttempts, s3, Land(tx));
    ReachesByStep(maxAttempts, s3, Land(tx));
    ReachesOnwards(maxAttempts, INIT, s1, s2);
    ReachesOnwards(maxAttempts, INIT, s2, s3);
    ReachesOnwards(maxAttempts, INIT, s3, s);
  }
}
