/** Runs in which no ledger statement fails and the process does not die. */
module CleanRuns {
  import opened Types
  import opened Ledger
  import opened Worker

  function CleanEnv(p: PipelineResult): RunEnv {
    RunEnv(ReadOk, (i: nat) => Applied, ReadOk, p)
  }

  predicate Clean(queue: seq<Arrival>) {
    forall i :: 0 <= i < |queue| ==> !queue[i].env.pipeline.Died? && FaultFree(queue[i].env)
  }

  /** The ledger statements a run issues when none of them fails. */
  function StatementCount(env: RunEnv): nat {
    if env.pipeline.Completed? then 9 else 8
  }

  /** Neither read fails, and no statement is lost, misreported or cut off by a crash. */
  predicate FaultFree(env: RunEnv) {
    env.probe == ReadOk && env.count == ReadOk && forall i: nat :: i < StatementCount(env) ==> env.fate(i) == Applied
  }

  function StatusOf(ending: Ending): Status {
    match ending
    case EndSettled(_) => Settled
    case EndRetry => Failed
    case EndDead => DeadLetter
  }

  function EventOf(ending: Ending): EventKind {
    match ending
    case EndSettled(_) => EvSettled
    case EndRetry => EvFailed
    case EndDead => EvDeadLetter
  }

  /** The job row a clean run leaves. */
  function RowAfter(prior: Option<JobRow>, job: EvaluationJob, ending: Ending, p: PipelineResult): JobRow
    requires ending.EndSettled? ==> p.Completed?
  {
    var attempts := if prior.Some? then prior.value.attempts else 0;
    var error := if prior.Some? then prior.value.lastError else None;
    var signature := if prior.Some? then prior.value.signature else None;
    var hash := if prior.Some? then prior.value.resolutionHash else None;
    match ending
    case EndSettled(_) =>
      JobRow(Columns(job), Settled, attempts + 1, error,
             Coalesce(p.outcome.signature, signature), Some(p.outcome.resolutionHash))
    case _ =>
      JobRow(Columns(job), StatusOf(ending), attempts + 1, Some(ErrorText(p)), signature, hash)
  }

  function VerdictAfter(prior: Option<VerdictRow>, o: PipelineOutcome): VerdictRow {
    VerdictRow(o.result.approved, o.result.reason, o.resolutionHash, o.result.checks,
               if prior.Some? then Coalesce(o.signature, prior.value.signature) else o.signature)
  }

  function VerdictsAfter(verdicts: map<Uid, VerdictRow>, uid: Uid, ending: Ending, p: PipelineResult)
    : map<Uid, VerdictRow>
    requires ending.EndSettled? ==> p.Completed?
  {
    if ending.EndSettled? then verdicts[uid := VerdictAfter(Lookup(verdicts, uid), p.outcome)] else verdicts
  }

  function DbAfter(db: Db, job: EvaluationJob, ending: Ending, p: PipelineResult): Db
    requires ending.EndSettled? ==> p.Completed?
  {
    Db(db.jobs[job.uid := RowAfter(Lookup(db.jobs, job.uid), job, ending, p)],
       VerdictsAfter(db.verdicts, job.uid, ending, p),
       db.events[job.uid := EventsOf(db, job.uid) + [EvDetected, EvQueued, EvStarted, EventOf(ending)]])
  }

  /** One clean status call: the row moves to the status and the log gains its event. */
  lemma CleanStatusCall(db: Db, job: EvaluationJob, status: Status, error: Option<string>, event: EventKind,
                        fate: nat -> Fate, at: nat)
    requires fate(at) == Applied && fate(at + 1) == Applied
    ensures RunCall(db, StatusCall(job, status, error, event), fate, at)
         == CallResult(Db(db.jobs[job.uid := MergeJob(Lookup(db.jobs, job.uid), UpsertJob(job, status, error, None, None))],
                          db.verdicts,
                          db.events[job.uid := EventsOf(db, job.uid) + [event]]), CallOk)
  {
    RunTwo(db, StatusCall(job, status, error, event), fate, at);
  }

  /** The ledger once a clean run has been started. */
  function StartedDb(db: Db, job: EvaluationJob): Db {
    var prior := Lookup(db.jobs, job.uid);
    var row := JobRow(Columns(job), Running, AttemptCount(db, job.uid) + 1,
                      if prior.Some? then prior.value.lastError else None,
                      if prior.Some? then prior.value.signature else None,
                      if prior.Some? then prior.value.resolutionHash else None);
    Db(db.jobs[job.uid := row], db.verdicts,
       db.events[job.uid := EventsOf(db, job.uid) + [EvDetected, EvQueued, EvStarted]])
  }

  lemma CleanStart(db: Db, job: EvaluationJob, env: RunEnv)
    requires FaultFree(env) && !IsTerminal(db, job.uid)
    ensures LedgerStart(db, job, env) == StartRun(StartedDb(db, job), AttemptCount(db, job.uid) + 1)
  {
    CleanStatusCall(db, job, Detected, None, EvDetected, env.fate, 0);
    var d := RunCall(db, DetectedCall(job), env.fate, 0).db;
    CleanStatusCall(d, job, Queued, None, EvQueued, env.fate, 2);
    var q := RunCall(d, QueuedCall(job), env.fate, 2).db;
    CleanStatusCall(q, job, Running, None, EvStarted, env.fate, 4);
    ThreeCalls(db, job);
  }

  /** The tables after one status call. */
  function Called(db: Db, job: EvaluationJob, status: Status, event: EventKind): Db {
    Db(db.jobs[job.uid := MergeJob(Lookup(db.jobs, job.uid), UpsertJob(job, status, None, None, None))],
       db.verdicts, db.events[job.uid := EventsOf(db, job.uid) + [event]])
  }

  lemma ThreeCalls(db: Db, job: EvaluationJob)
    ensures Called(Called(Called(db, job, Detected, EvDetected), job, Queued, EvQueued), job, Running, EvStarted)
         == StartedDb(db, job)
  {
    assert EventsOf(db, job.uid) + [EvDetected] + [EvQueued] + [EvStarted]
        == EventsOf(db, job.uid) + [EvDetected, EvQueued, EvStarted];
  }

  lemma CleanFailure(db: Db, job: EvaluationJob, ending: Ending, p: PipelineResult, fate: nat -> Fate)
    requires !ending.EndSettled? && fate(6) == Applied && fate(7) == Applied
    ensures RunCall(StartedDb(db, job), FinalCall(job, ending, p), fate, 6)
         == CallResult(DbAfter(db, job, ending, p), CallOk)
  {
    var s := StartedDb(db, job);
    CleanStatusCall(s, job, StatusOf(ending), Some(ErrorText(p)), EventOf(ending), fate, 6);
    assert EventsOf(s, job.uid) + [EventOf(ending)]
        == EventsOf(db, job.uid) + [EvDetected, EvQueued, EvStarted, EventOf(ending)];
    assert RunCall(s, FinalCall(job, ending, p), fate, 6).db == DbAfter(db, job, ending, p);
  }

  lemma CleanSettlement(db: Db, job: EvaluationJob, ending: Ending, p: PipelineResult, fate: nat -> Fate)
    requires ending.EndSettled? && p.Completed?
    requires fate(6) == Applied && fate(7) == Applied && fate(8) == Applied
    ensures RunCall(StartedDb(db, job), FinalCall(job, ending, p), fate, 6)
         == CallResult(DbAfter(db, job, ending, p), CallOk)
  {
    var s := StartedDb(db, job);
    RunThree(s, SettledCall(job, p.outcome), fate, 6);
    assert EventsOf(s, job.uid) + [EvSettled]
        == EventsOf(db, job.uid) + [EvDetected, EvQueued, EvStarted, EvSettled];
    assert RunCall(s, FinalCall(job, ending, p), fate, 6).db == DbAfter(db, job, ending, p);
  }

  /** A clean run of the ledger-backed worker in closed form. */
  lemma CleanProcess(maxAttempts: nat, w: WorkerState, job: EvaluationJob, env: RunEnv)
    requires w.ledger.Some? && FaultFree(env) && !env.pipeline.Died?
    ensures IsTerminal(w.ledger.value, job.uid) ==> Process(maxAttempts, w, job, env) == (w, Skipped)
    ensures !IsTerminal(w.ledger.value, job.uid) ==>
      var n := AttemptCount(w.ledger.value, job.uid) + 1;
      var ending := EndingOf(maxAttempts, n, env.pipeline);
      Process(maxAttempts, w, job, env) ==
      (ReleaseMemory(w.(ledger := Some(DbAfter(w.ledger.value, job, ending, env.pipeline)),
                        stats := CountRun(w.stats, ending)), job.uid, ending),
       Ran(n, ending))
  {
    var db := w.ledger.value;
    if !IsTerminal(db, job.uid) {
      CleanStart(db, job, env);
      var ending := EndingOf(maxAttempts, AttemptCount(db, job.uid) + 1, env.pipeline);
      if ending.EndSettled? {
        CleanSettlement(db, job, ending, env.pipeline, env.fate);
      } else {
        CleanFailure(db, job, ending, env.pipeline, env.fate);
      }
    }
  }
}
