/** Ledger runs of the worker loop, and manual evaluations, are runs of the transition system, so its safety
    theorems cover them. */
module Refinement {
  import opened Types
  import opened Ledger
  import opened Worker
  import opened CleanRuns
  import opened Protocol

  /** What a stretch of an agent's own ledger steps leaves alone. */
  ghost predicate OnlyLedgerMoved(s: State, s': State) {
    && s'.delivered == s.delivered && s'.chain == s.chain && s'.confirmed == s.confirmed
    && s'.submitted == s.submitted
  }

  /** Every agent but this one is where it was. */
  ghost predicate OthersWait(id: AgentId, s: State, s': State) {
    forall other :: other != id ==> Lookup(s'.agents, other) == Lookup(s.agents, other)
  }

  /** A label under which nobody takes up a job or submits a transaction. */
  predicate Quiet(l: Label) {
    !l.TakeJob? && !l.Request? && !l.Evaluate?
  }

  /** A label of an activity for this job whose pipeline ends like this. */
  predicate OwnLabel(id: AgentId, job: EvaluationJob, p: PipelineResult, l: Label) {
    match l
    case TakeJob(j) => j == job
    case Request(_, j) => j == job
    case Evaluate(agent, result, hash, _) =>
      agent == id && p.Completed? && result == p.outcome.result && hash == p.outcome.resolutionHash
    case _ => true
  }

  /** A label that is no fault: nothing is reported as failed, comes late, is cut off or is abandoned. */
  predicate Faultless(l: Label) {
    match l
    case Probe(read) => read == ReadOk
    case Count(read) => read == ReadOk
    case Write(_, ok) => ok
    case RunLate(_) => false
    case Drop(_) => false
    case CrashAll => false
    case _ => true
  }

  /** The statements of a call are all applied. */
  predicate AllApplied(fate: nat -> Fate, at: nat, n: nat) {
    forall i: nat :: at <= i < at + n ==> fate(i) == Applied
  }

  lemma OneStep(maxAttempts: nat, s: State, l: Label)
    ensures Run(maxAttempts, s, [l]) == Step(maxAttempts, s, l)
  {
    assert [l][1..] == [];
  }

  /** The labels under which one statement meets its fate. */
  function Labels(id: AgentId, stmt: Stmt, f: Fate): seq<Label> {
    match f
    case Applied => [Write(id, true)]
    case Lost => [Write(id, false)]
    case ReplyLost => [Write(id, false), RunLate(stmt)]
    case Crash => [CrashAll]
  }

  lemma StatementRefines(maxAttempts: nat, id: AgentId, s: State, job: EvaluationJob, stage: Stage, done: nat, f: Fate)
    requires done < |CallOf(job, stage)| && Lookup(s.agents, id) == Some(Writing(job, stage, done))
    ensures var stmt := CallOf(job, stage)[done];
      var s' := Run(maxAttempts, s, Labels(id, stmt, f));
      && OnlyLedgerMoved(s, s')
      && s'.db == (if f == Applied || f == ReplyLost then Exec(s.db, stmt) else s.db)
      && (f == Crash ==> s'.agents == map[])
      && (f != Crash ==>
            && OthersWait(id, s, s')
            && Lookup(s'.agents, id) == NextAgent(id, Writing(job, stage, done), f == Applied))
  {
    match f {
      case Applied => OneStep(maxAttempts, s, Write(id, true));
      case Lost => OneStep(maxAttempts, s, Write(id, false));
      case Crash => OneStep(maxAttempts, s, CrashAll);
      case ReplyLost => LostReplyRefines(maxAttempts, id, s, job, stage, done);
    }
  }

  /** A statement whose reply is lost is reported as failed and executes right afterwards. */
  lemma LostReplyRefines(maxAttempts: nat, id: AgentId, s: State, job: EvaluationJob, stage: Stage, done: nat)
    requires done < |CallOf(job, stage)| && Lookup(s.agents, id) == Some(Writing(job, stage, done))
    ensures var stmt := CallOf(job, stage)[done];
      var s' := Run(maxAttempts, s, Labels(id, stmt, ReplyLost));
      && OnlyLedgerMoved(s, s') && OthersWait(id, s, s')
      && s'.db == Exec(s.db, stmt)
      && Lookup(s'.agents, id) == NextAgent(id, Writing(job, stage, done), false)
  {
    var stmt := CallOf(job, stage)[done];
    var s1 := Step(maxAttempts, s, Write(id, false));
    assert Labels(id, stmt, ReplyLost) == [Write(id, false)] + [RunLate(stmt)];
    RunConcat(maxAttempts, s, [Write(id, false)], [RunLate(stmt)]);
    OneStep(maxAttempts, s, Write(id, false));
    OneStep(maxAttempts, s1, RunLate(stmt));
    assert stmt in s1.late;
  }

  /** A record call, from its statement `done` on. */
  lemma {:induction false} CallRefines(
    maxAttempts: nat, id: AgentId, s: State, job: EvaluationJob, stage: Stage, done: nat, fate: nat -> Fate, at: nat)
    returns (ls: seq<Label>)
    requires done < |CallOf(job, stage)| && Lookup(s.agents, id) == Some(Writing(job, stage, done))
    ensures var c := RunCall(s.db, CallOf(job, stage)[done..], fate, at);
      var s' := Run(maxAttempts, s, ls);
      && OnlyLedgerMoved(s, s') && s'.db == c.db && (forall l :: l in ls ==> Quiet(l))
      && (AllApplied(fate, at, |CallOf(job, stage)| - done) ==> forall l :: l in ls ==> Faultless(l))
      && (c.status == CallCrashed ==> s'.agents == map[])
      && (c.status != CallCrashed ==>
            && OthersWait(id, s, s')
            && Lookup(s'.agents, id) == AfterCall(id, job, stage, c.status == CallOk))
    decreases |CallOf(job, stage)| - done
  {
    var call := CallOf(job, stage);
    ls := Labels(id, call[done], fate(at));
    StatementRefines(maxAttempts, id, s, job, stage, done, fate(at));
    assert call[done..][0] == call[done] && call[done..][1..] == call[done + 1..];
    if fate(at) == Applied && done + 1 < |call| {
      var s1 := Run(maxAttempts, s, ls);
      var rest := CallRefines(maxAttempts, id, s1, job, stage, done + 1, fate, at + 1);
      RunConcat(maxAttempts, s, ls, rest);
      ls := ls + rest;
    }
  }

  /** The run's beginning: probe, three record calls, attempt number. */
  lemma StartRefines(maxAttempts: nat, s: State, job: EvaluationJob, env: RunEnv) returns (ls: seq<Label>)
    requires WorkerId !in s.agents
    ensures var s' := Run(maxAttempts, s, ls);
      && OnlyLedgerMoved(s, s') && (forall l :: l in ls ==> OwnLabel(WorkerId, job, env.pipeline, l))
      && (FaultFree(env) ==> forall l :: l in ls ==> Faultless(l))
      && match LedgerStart(s.db, job, env)
         case SkipRun => s'.db == s.db && WorkerId !in s'.agents && OthersWait(WorkerId, s, s')
         case DieEarly(db) => s'.db == db && s'.agents == map[]
         case StartRun(db, n) =>
           s'.db == db && OthersWait(WorkerId, s, s') && Lookup(s'.agents, WorkerId) == Some(Checking(job, n))
  {
    var s1 := Step(maxAttempts, s, TakeJob(job));
    var s2 := Step(maxAttempts, s1, Probe(env.probe));
    ls := [TakeJob(job)] + [Probe(env.probe)];
    RunConcat(maxAttempts, s, [TakeJob(job)], [Probe(env.probe)]);
    OneStep(maxAttempts, s, TakeJob(job));
    OneStep(maxAttempts, s1, Probe(env.probe));
    if !(env.probe == ReadOk && IsTerminal(s.db, job.uid)) {
      var rest := RecordsRefine(maxAttempts, s2, job, env);
      RunConcat(maxAttempts, s, ls, rest);
      ls := ls + rest;
    }
  }

  /** The beginning after the probe. */
  lemma RecordsRefine(maxAttempts: nat, s: State, job: EvaluationJob, env: RunEnv) returns (ls: seq<Label>)
    requires Lookup(s.agents, WorkerId) == Some(Writing(job, Detecting, 0))
    requires !(env.probe == ReadOk && IsTerminal(s.db, job.uid))
    ensures var s' := Run(maxAttempts, s, ls);
      && OnlyLedgerMoved(s, s') && (forall l :: l in ls ==> Quiet(l))
      && (FaultFree(env) ==> forall l :: l in ls ==> Faultless(l))
      && match LedgerStart(s.db, job, env)
         case SkipRun => false
         case DieEarly(db) => s'.db == db && s'.agents == map[]
         case StartRun(db, n) =>
           s'.db == db && OthersWait(WorkerId, s, s') && Lookup(s'.agents, WorkerId) == Some(Checking(job, n))
  {
    ls := CallRefines(maxAttempts, WorkerId, s, job, Detecting, 0, env.fate, 0);
    assert CallOf(job, Detecting)[0..] == DetectedCall(job);
    var s1 := Run(maxAttempts, s, ls);
    var dc := RunCall(s.db, DetectedCall(job), env.fate, 0);
    if dc.status == CallCrashed {
      return;
    }
    var q := CallRefines(maxAttempts, WorkerId, s1, job, Queueing, 0, env.fate, 2);
    assert CallOf(job, Queueing)[0..] == QueuedCall(job);
    var s2 := Run(maxAttempts, s1, q);
    RunConcat(maxAttempts, s, ls, q);
    ls := ls + q;
    var qc := RunCall(dc.db, QueuedCall(job), env.fate, 2);
    if qc.status == CallCrashed {
      return;
    }
    var rest := StartedRefines(maxAttempts, s2, job, env);
    RunConcat(maxAttempts, s, ls, rest);
    ls := ls + rest;
  }

  lemma StartedRefines(maxAttempts: nat, s: State, job: EvaluationJob, env: RunEnv) returns (ls: seq<Label>)
    requires Lookup(s.agents, WorkerId) == Some(Writing(job, Starting, 0))
    ensures var c := RunCall(s.db, StartedCall(job), env.fate, 4);
      var s' := Run(maxAttempts, s, ls);
      && OnlyLedgerMoved(s, s') && s'.db == c.db && (forall l :: l in ls ==> Quiet(l))
      && (FaultFree(env) ==> forall l :: l in ls ==> Faultless(l))
      && (c.status == CallCrashed ==> s'.agents == map[])
      && (c.status != CallCrashed ==>
            && OthersWait(WorkerId, s, s')
            && Lookup(s'.agents, WorkerId)
            == Some(Checking(job, CountedAttempt(c.db, job.uid, c.status, env.count))))
  {
    ls := CallRefines(maxAttempts, WorkerId, s, job, Starting, 0, env.fate, 4);
    assert CallOf(job, Starting)[0..] == StartedCall(job);
    var s1 := Run(maxAttempts, s, ls);
    if RunCall(s.db, StartedCall(job), env.fate, 4).status == CallOk {
      RunConcat(maxAttempts, s, ls, [Protocol.Count(env.count)]);
      OneStep(maxAttempts, s1, Protocol.Count(env.count));
      ls := ls + [Protocol.Count(env.count)];
    }
  }

  /** What it takes for a pipeline to have completed with this outcome: its transaction is, or can be,
      the one the chain accepts. */
  ghost predicate Achievable(s: State, job: EvaluationJob, p: PipelineResult) {
    p.Completed? ==>
      && p.outcome.signature.Some? && job.uid in s.delivered
      && (job.uid in s.chain ==> ConfirmTx(job, p.outcome) in s.confirmed)
  }

  function ConfirmTx(job: EvaluationJob, o: PipelineOutcome): Tx
    requires o.signature.Some?
  {
    TxFor(job.uid, o.result, o.resolutionHash, o.signature.value)
  }

  /** Manual evaluations have their own timeout text and never dead-letter. */
  function ErrorOf(id: AgentId, p: PipelineResult): string {
    if id.Manual? then ManualErrorText(p) else ErrorText(p)
  }

  function EndingFor(id: AgentId, maxAttempts: nat, n: nat, p: PipelineResult): Ending
    requires !p.Died?
  {
    if id.WorkerId? then EndingOf(maxAttempts, n, p)
    else if p.Completed? then EndSettled(p.outcome.result.approved)
    else EndRetry
  }

  function PipelineLabels(id: AgentId, p: PipelineResult, job: EvaluationJob): seq<Label>
    requires p.Completed? ==> p.outcome.signature.Some?
  {
    match p
    case Completed(o) =>
      [Eligible(id)]
      + ([Evaluate(id, o.result, o.resolutionHash, o.signature.value)]
         + ([Land(ConfirmTx(job, o))] + [Confirm(id)]))
    case Died => [CrashAll]
    case _ => [Fail(id, ErrorOf(id, p))]
  }

  function FinalStage(id: AgentId, ending: Ending, p: PipelineResult): Stage
    requires ending.EndSettled? ==> p.Completed? && p.outcome.signature.Some?
  {
    match ending
    case EndSettled(_) => Settling(p.outcome.result, p.outcome.resolutionHash, p.outcome.signature.value)
    case EndRetry => Failing(ErrorOf(id, p))
    case EndDead => DeadLettering(ErrorOf(id, p))
  }

  lemma SettlementRefines(maxAttempts: nat, id: AgentId, s: State, job: EvaluationJob, n: nat, o: PipelineOutcome)
    requires Lookup(s.agents, id) == Some(Checking(job, n)) && Achievable(s, job, Completed(o))
    ensures var s' := Run(maxAttempts, s, PipelineLabels(id, Completed(o), job));
      && s'.db == s.db && s'.delivered == s.delivered && OthersWait(id, s, s')
      && Lookup(s'.agents, id)
         == Some(Writing(job, Settling(o.result, o.resolutionHash, o.signature.value), 0))
      && job.uid in s'.chain && ConfirmTx(job, o) in s'.confirmed
  {
    var l1, l2 := Eligible(id), Evaluate(id, o.result, o.resolutionHash, o.signature.value);
    var l3, l4 := Land(ConfirmTx(job, o)), Confirm(id);
    var s1 := Step(maxAttempts, s, l1);
    var s2 := Step(maxAttempts, s1, l2);
    var s3 := Step(maxAttempts, s2, l3);
    OneStep(maxAttempts, s, l1);
    OneStep(maxAttempts, s1, l2);
    OneStep(maxAttempts, s2, l3);
    OneStep(maxAttempts, s3, l4);
    RunConcat(maxAttempts, s, [l1], [l2] + ([l3] + [l4]));
    RunConcat(maxAttempts, s1, [l2], [l3] + [l4]);
    RunConcat(maxAttempts, s2, [l3], [l4]);
    assert SentTx(s2.agents[id]) == ConfirmTx(job, o);
    assert ConfirmTx(job, o) in s3.confirmed;
  }

  lemma FailureRefines(maxAttempts: nat, id: AgentId, s: State, job: EvaluationJob, n: nat, p: PipelineResult)
    requires Lookup(s.agents, id) == Some(Checking(job, n)) && (p.Errored? || p.TimedOut?)
    ensures var s' := Run(maxAttempts, s, PipelineLabels(id, p, job));
      && s'.db == s.db && OnlyLedgerMoved(s, s') && OthersWait(id, s, s')
      && Lookup(s'.agents, id) == Some(Writing(job, FinalStage(id, EndingFor(id, maxAttempts, n, p), p), 0))
  {
    OneStep(maxAttempts, s, Fail(id, ErrorOf(id, p)));
  }

  /** The pipeline itself: it settles through the chain, fails, or takes the process down. */
  lemma PipelineRefines(maxAttempts: nat, id: AgentId, s: State, job: EvaluationJob, n: nat, p: PipelineResult)
    requires Lookup(s.agents, id) == Some(Checking(job, n)) && Achievable(s, job, p)
    ensures var s' := Run(maxAttempts, s, PipelineLabels(id, p, job));
      && s'.db == s.db && s'.delivered == s.delivered
      && (p.Died? ==> s'.agents == map[])
      && (!p.Died? ==>
            && OthersWait(id, s, s')
            && Lookup(s'.agents, id) == Some(Writing(job, FinalStage(id, EndingFor(id, maxAttempts, n, p), p), 0)))
      && (!p.Completed? ==> OnlyLedgerMoved(s, s'))
      && (p.Completed? ==> job.uid in s'.chain && ConfirmTx(job, p.outcome) in s'.confirmed)
  {
    match p {
      case Completed(o) => SettlementRefines(maxAttempts, id, s, job, n, o);
      case Died => OneStep(maxAttempts, s, CrashAll);
      case _ => FailureRefines(maxAttempts, id, s, job, n, p);
    }
  }

  /** One turn of the ledger-backed worker loop, under any faults, is a run of the transition system. */
  lemma WorkerRunRefines(maxAttempts: nat, w: WorkerState, s: State, job: EvaluationJob, env: RunEnv)
    returns (ls: seq<Label>)
    requires w.ledger == Some(s.db) && WorkerId !in s.agents && Achievable(s, job, env.pipeline)
    ensures var (w', d) := Process(maxAttempts, w, job, env);
      var s' := Run(maxAttempts, s, ls);
      && w'.ledger == Some(s'.db) && WorkerId !in s'.agents && s'.delivered == s.delivered
      && (forall l :: l in ls ==> OwnLabel(WorkerId, job, env.pipeline, l))
      && (FaultFree(env) && !env.pipeline.Died? ==> forall l :: l in ls ==> Faultless(l))
      && (if d.Crashed? then s'.agents == map[] else OthersWait(WorkerId, s, s'))
      && (d.Ran? && d.ending.EndSettled? ==>
            job.uid in s'.chain && ConfirmTx(job, env.pipeline.outcome) in s'.confirmed)
  {
    ls := StartRefines(maxAttempts, s, job, env);
    var start := LedgerStart(s.db, job, env);
    if start.StartRun? {
      var s1 := Run(maxAttempts, s, ls);
      var rest := FinishRefines(maxAttempts, w.(ledger := Some(start.db)), s1, job, start.attempt, env);
      RunConcat(maxAttempts, s, ls, rest);
      ls := ls + rest;
    }
  }

  lemma FinishRefines(maxAttempts: nat, w: WorkerState, s: State, job: EvaluationJob, n: nat, env: RunEnv)
    returns (ls: seq<Label>)
    requires w.ledger == Some(s.db) && Lookup(s.agents, WorkerId) == Some(Checking(job, n))
    requires Achievable(s, job, env.pipeline)
    ensures var (w', d) := FinishRun(maxAttempts, w, job, n, env);
      var s' := Run(maxAttempts, s, ls);
      && w'.ledger == Some(s'.db) && WorkerId !in s'.agents && s'.delivered == s.delivered
      && (forall l :: l in ls ==> OwnLabel(WorkerId, job, env.pipeline, l))
      && (FaultFree(env) && !env.pipeline.Died? ==> forall l :: l in ls ==> Faultless(l))
      && (if d.Crashed? then s'.agents == map[] else OthersWait(WorkerId, s, s'))
      && (d.Ran? && d.ending.EndSettled? ==>
            job.uid in s'.chain && ConfirmTx(job, env.pipeline.outcome) in s'.confirmed)
  {
    PipelineRefines(maxAttempts, WorkerId, s, job, n, env.pipeline);
    PipelineLabelsOwn(WorkerId, job, env.pipeline);
    FinishForm(maxAttempts, w, job, n, env);
    ls := PipelineLabels(WorkerId, env.pipeline, job);
    if !env.pipeline.Died? {
      var ending := EndingOf(maxAttempts, n, env.pipeline);
      var rest := EndRefines(maxAttempts, Run(maxAttempts, s, ls), job, ending, env);
      RunConcat(maxAttempts, s, ls, rest);
      ls := ls + rest;
    }
  }

  /** What a run that gets past its pipeline comes to. */
  lemma FinishForm(maxAttempts: nat, w: WorkerState, job: EvaluationJob, n: nat, env: RunEnv)
    requires w.ledger.Some?
    ensures var (w', d) := FinishRun(maxAttempts, w, job, n, env);
      if env.pipeline.Died? then w'.ledger == w.ledger && d == Crashed(true)
      else
        var ending := EndingOf(maxAttempts, n, env.pipeline);
        var c := RunCall(w.ledger.value, FinalCall(job, ending, env.pipeline), env.fate, 6);
        w'.ledger == Some(c.db) && d == if c.status == CallCrashed then Crashed(true) else Ran(n, ending)
  {
  }

  lemma PipelineLabelsOwn(id: AgentId, job: EvaluationJob, p: PipelineResult)
    requires p.Completed? ==> p.outcome.signature.Some?
    ensures forall l :: l in PipelineLabels(id, p, job) ==> OwnLabel(id, job, p, l) && (!p.Died? ==> Faultless(l))
  {
  }

  /** The final record of a run. */
  lemma EndRefines(maxAttempts: nat, s: State, job: EvaluationJob, ending: Ending, env: RunEnv)
    returns (ls: seq<Label>)
    requires ending.EndSettled? <==> env.pipeline.Completed?
    requires ending.EndSettled? ==> env.pipeline.outcome.signature.Some?
    requires Lookup(s.agents, WorkerId) == Some(Writing(job, FinalStage(WorkerId, ending, env.pipeline), 0))
    ensures var c := RunCall(s.db, FinalCall(job, ending, env.pipeline), env.fate, 6);
      var s' := Run(maxAttempts, s, ls);
      && OnlyLedgerMoved(s, s') && s'.db == c.db && WorkerId !in s'.agents && (forall l :: l in ls ==> Quiet(l))
      && (FaultFree(env) ==> forall l :: l in ls ==> Faultless(l))
      && (if c.status == CallCrashed then s'.agents == map[] else OthersWait(WorkerId, s, s'))
  {
    var stage := FinalStage(WorkerId, ending, env.pipeline);
    ls := CallRefines(maxAttempts, WorkerId, s, job, stage, 0, env.fate, 6);
    FinalCallIsStageCall(job, ending, env.pipeline);
  }

  lemma FinalCallIsStageCall(job: EvaluationJob, ending: Ending, p: PipelineResult)
    requires ending.EndSettled? ==> p.Completed? && p.outcome.signature.Some?
    ensures CallOf(job, FinalStage(WorkerId, ending, p))[0..] == FinalCall(job, ending, p)
  {
    if ending.EndSettled? {
      assert Outcome(FinalStage(WorkerId, ending, p)) == p.outcome;
    }
  }
}
