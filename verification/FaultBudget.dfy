/** How often the worker can run the pipeline for one payment, ledger faults and restarts included, as long as
    every statement takes effect during its run or never. `LateBudget` lifts that condition. */
module FaultBudget {
  import opened Types
  import opened Ledger
  import opened Worker
  import opened CleanRuns

  datatype Event = Job(arrival: Arrival) | Restart

  function Next(maxAttempts: nat, w: WorkerState, e: Event): WorkerState {
    match e
    case Job(a) => Process(maxAttempts, w, a.job, a.env).0
    case Restart => Boot(w.ledger)
  }

  function After(maxAttempts: nat, w: WorkerState, h: seq<Event>): WorkerState
    decreases |h|
  {
    if h == [] then w else After(maxAttempts, Next(maxAttempts, w, h[0]), h[1..])
  }

  /** The worker got as far as the pipeline for this payment. */
  predicate RunsPipeline(maxAttempts: nat, w: WorkerState, e: Event, u: Uid) {
    e.Job? && e.arrival.job.uid == u &&
    var d := Process(maxAttempts, w, e.arrival.job, e.arrival.env).1;
    d.Ran? || d == Crashed(true)
  }

  /** The worker did not skip the payment and met a ledger error or a crash on the way. The first fault a
      run meets is always one of those `FaultFree` lists, and a run without any meets none. */
  predicate MeetsFault(w: WorkerState, e: Event, u: Uid)
    requires w.ledger.Some?
  {
    && e.Job? && e.arrival.job.uid == u
    && !(e.arrival.env.probe == ReadOk && IsTerminal(w.ledger.value, u))
    && !(FaultFree(e.arrival.env) && !e.arrival.env.pipeline.Died?)
  }

  lemma LedgerSurvives(maxAttempts: nat, w: WorkerState, e: Event)
    requires w.ledger.Some?
    ensures Next(maxAttempts, w, e).ledger.Some?
  {
  }

  function PipelineRuns(maxAttempts: nat, w: WorkerState, h: seq<Event>, u: Uid): nat
    decreases |h|
  {
    if h == [] then 0
    else (if RunsPipeline(maxAttempts, w, h[0], u) then 1 else 0)
         + PipelineRuns(maxAttempts, Next(maxAttempts, w, h[0]), h[1..], u)
  }

  function FaultyRuns(maxAttempts: nat, w: WorkerState, h: seq<Event>, u: Uid): nat
    requires w.ledger.Some?
    decreases |h|
  {
    if h == [] then 0
    else
      LedgerSurvives(maxAttempts, w, h[0]);
      (if MeetsFault(w, h[0], u) then 1 else 0)
      + FaultyRuns(maxAttempts, Next(maxAttempts, w, h[0]), h[1..], u)
  }

  /** Runs still to come without further faults: the retries the budget leaves, and one that ends it. */
  function Remaining(maxAttempts: nat, db: Db, u: Uid): nat {
    (if AttemptCount(db, u) + 1 < maxAttempts then maxAttempts - 1 - AttemptCount(db, u) else 0)
    + if IsTerminal(db, u) then 0 else 1
  }

  lemma {:induction false} CallKeepsAttempts(db: Db, stmts: seq<Stmt>, fate: nat -> Fate, at: nat, u: Uid)
    ensures AttemptCount(RunCall(db, stmts, fate, at).db, u) >= AttemptCount(db, u)
    ensures (forall i :: 0 <= i < |stmts| ==> StmtUid(stmts[i]) != u) ==>
              Lookup(RunCall(db, stmts, fate, at).db.jobs, u) == Lookup(db.jobs, u)
    decreases |stmts|
  {
    if stmts != [] {
      CallKeepsAttempts(Exec(db, stmts[0]), stmts[1..], fate, at + 1, u);
    }
  }

  lemma StartKeepsAttempts(db: Db, job: EvaluationJob, env: RunEnv, u: Uid)
    ensures var s := LedgerStart(db, job, env);
      s.SkipRun? ||
      (AttemptCount(s.db, u) >= AttemptCount(db, u) &&
       (job.uid != u ==> Lookup(s.db.jobs, u) == Lookup(db.jobs, u)))
  {
    var d := RunCall(db, DetectedCall(job), env.fate, 0);
    var q := RunCall(d.db, QueuedCall(job), env.fate, 2);
    CallKeepsAttempts(db, DetectedCall(job), env.fate, 0, u);
    CallKeepsAttempts(d.db, QueuedCall(job), env.fate, 2, u);
    CallKeepsAttempts(q.db, StartedCall(job), env.fate, 4, u);
  }

  /** Whatever happens to a run, attempts never go down and other payments' rows never change. */
  lemma RunKeepsAttempts(maxAttempts: nat, w: WorkerState, e: Event, u: Uid)
    requires w.ledger.Some?
    ensures var w' := Next(maxAttempts, w, e);
      && w'.ledger.Some?
      && AttemptCount(w'.ledger.value, u) >= AttemptCount(w.ledger.value, u)
      && (e.Job? && e.arrival.job.uid != u ==> Lookup(w'.ledger.value.jobs, u) == Lookup(w.ledger.value.jobs, u))
  {
    if e.Job? {
      var db, job, env := w.ledger.value, e.arrival.job, e.arrival.env;
      StartKeepsAttempts(db, job, env, u);
      var s := LedgerStart(db, job, env);
      if s.StartRun? && !env.pipeline.Died? {
        var call := FinalCall(job, EndingOf(maxAttempts, s.attempt, env.pipeline), env.pipeline);
        CallKeepsAttempts(s.db, call, env.fate, 6, u);
      }
    }
  }

  /** One event pays for the run it causes: out of what remains, or, after a fault, out of two extra. */
  lemma EventPays(maxAttempts: nat, w: WorkerState, e: Event, u: Uid)
    requires w.ledger.Some?
    ensures Next(maxAttempts, w, e).ledger.Some?
    ensures (if RunsPipeline(maxAttempts, w, e, u) then 1 else 0)
            + Remaining(maxAttempts, Next(maxAttempts, w, e).ledger.value, u)
         <= Remaining(maxAttempts, w.ledger.value, u) + if MeetsFault(w, e, u) then 2 else 0
  {
    RunKeepsAttempts(maxAttempts, w, e, u);
    if e.Job? && e.arrival.job.uid == u && !MeetsFault(w, e, u) {
      if FaultFree(e.arrival.env) && !e.arrival.env.pipeline.Died? {
        CleanProcess(maxAttempts, w, e.arrival.job, e.arrival.env);
      }
    }
  }

  lemma {:induction false} RunsWithinBudget(maxAttempts: nat, w: WorkerState, h: seq<Event>, u: Uid)
    requires w.ledger.Some?
    ensures PipelineRuns(maxAttempts, w, h, u)
         <= Remaining(maxAttempts, w.ledger.value, u) + 2 * FaultyRuns(maxAttempts, w, h, u)
    decreases |h|
  {
    if h != [] {
      EventPays(maxAttempts, w, h[0], u);
      RunsWithinBudget(maxAttempts, Next(maxAttempts, w, h[0]), h[1..], u);
    }
  }

  /** The fault budget, over whole sequential histories with restarts, from an empty ledger. It does not survive
      statements that execute after their run: see `LateBudgetTight.LateStatementsExceedSequentialBound`. */
  lemma FaultBudgetBound(maxAttempts: nat, h: seq<Event>, u: Uid)
    ensures PipelineRuns(maxAttempts, Boot(Some(EMPTY_DB)), h, u)
         <= Budget(maxAttempts) + 2 * FaultyRuns(maxAttempts, Boot(Some(EMPTY_DB)), h, u)
  {
    RunsWithinBudget(maxAttempts, Boot(Some(EMPTY_DB)), h, u);
  }

  /** Without a fault of its own, a terminal payment's row never changes: restarts and other payments'
      faults included. */
  lemma {:induction false} TerminalWithoutFaults(maxAttempts: nat, w: WorkerState, h: seq<Event>, u: Uid)
    requires w.ledger.Some? && IsTerminal(w.ledger.value, u)
    requires FaultyRuns(maxAttempts, w, h, u) == 0
    ensures After(maxAttempts, w, h).ledger.Some?
    ensures Lookup(After(maxAttempts, w, h).ledger.value.jobs, u) == Lookup(w.ledger.value.jobs, u)
    ensures PipelineRuns(maxAttempts, w, h, u) == 0
    decreases |h|
  {
    if h != [] {
      RunKeepsAttempts(maxAttempts, w, h[0], u);
      TerminalWithoutFaults(maxAttempts, Next(maxAttempts, w, h[0]), h[1..], u);
    }
  }

  // The bound is attained for every budget and every number of faults.

  /** A clean run that times out. */
  function Timeout(job: EvaluationJob): Event {
    Job(Arrival(job, CleanEnv(TimedOut)))
  }

  /** The probe fails, the run times out, and its final record is lost. */
  function CostlyFault(job: EvaluationJob): Event {
    Job(Arrival(job, RunEnv(ReadFailed, (i: nat) => if i == 6 then Lost else Applied, ReadOk, TimedOut)))
  }

  function Timeouts(job: EvaluationJob, k: nat): seq<Event> {
    if k == 0 then [] else [Timeout(job)] + Timeouts(job, k - 1)
  }

  function Faults(job: EvaluationJob, f: nat): seq<Event> {
    if f == 0 then [] else [CostlyFault(job), Timeout(job)] + Faults(job, f - 1)
  }

  lemma FirstEvent(maxAttempts: nat, w: WorkerState, e: Event, rest: seq<Event>, u: Uid)
    requires w.ledger.Some?
    ensures var w' := Next(maxAttempts, w, e);
      && w'.ledger.Some?
      && PipelineRuns(maxAttempts, w, [e] + rest, u)
         == (if RunsPipeline(maxAttempts, w, e, u) then 1 else 0) + PipelineRuns(maxAttempts, w', rest, u)
      && FaultyRuns(maxAttempts, w, [e] + rest, u)
         == (if MeetsFault(w, e, u) then 1 else 0) + FaultyRuns(maxAttempts, w', rest, u)
  {
    LedgerSurvives(maxAttempts, w, e);
    assert ([e] + rest)[0] == e && ([e] + rest)[1..] == rest;
  }

  /** The state after a clean timeout, and what that event adds to the counts. */
  lemma AfterTimeout(maxAttempts: nat, w: WorkerState, job: EvaluationJob, rest: seq<Event>) returns (w': WorkerState)
    requires w.ledger.Some? && !IsTerminal(w.ledger.value, job.uid)
    ensures w'.ledger.Some?
    ensures AttemptCount(w'.ledger.value, job.uid) == AttemptCount(w.ledger.value, job.uid) + 1
    ensures IsTerminal(w'.ledger.value, job.uid) == (AttemptCount(w.ledger.value, job.uid) + 1 >= maxAttempts)
    ensures PipelineRuns(maxAttempts, w, [Timeout(job)] + rest, job.uid)
         == 1 + PipelineRuns(maxAttempts, w', rest, job.uid)
    ensures FaultyRuns(maxAttempts, w, [Timeout(job)] + rest, job.uid)
         == FaultyRuns(maxAttempts, w', rest, job.uid)
  {
    FirstEvent(maxAttempts, w, Timeout(job), rest, job.uid);
    CleanProcess(maxAttempts, w, job, CleanEnv(TimedOut));
    w' := Next(maxAttempts, w, Timeout(job));
  }

  lemma CostlyFaultStep(maxAttempts: nat, w: WorkerState, job: EvaluationJob)
    requires w.ledger.Some? && IsTerminal(w.ledger.value, job.uid)
    ensures var w' := Next(maxAttempts, w, CostlyFault(job));
      && w'.ledger.Some?
      && RunsPipeline(maxAttempts, w, CostlyFault(job), job.uid) && MeetsFault(w, CostlyFault(job), job.uid)
      && AttemptCount(w'.ledger.value, job.uid) == AttemptCount(w.ledger.value, job.uid) + 1
      && !IsTerminal(w'.ledger.value, job.uid)
  {
    var db, env := w.ledger.value, CostlyFault(job).arrival.env;
    CleanStatusCall(db, job, Detected, None, EvDetected, env.fate, 0);
    var d := RunCall(db, DetectedCall(job), env.fate, 0).db;
    CleanStatusCall(d, job, Queued, None, EvQueued, env.fate, 2);
    var q := RunCall(d, QueuedCall(job), env.fate, 2).db;
    CleanStatusCall(q, job, Running, None, EvStarted, env.fate, 4);
    var s := RunCall(q, StartedCall(job), env.fate, 4).db;
    RunTwo(s, FinalCall(job, EndingOf(maxAttempts, s.jobs[job.uid].attempts, TimedOut), TimedOut), env.fate, 6);
  }

  lemma AfterCostlyFault(maxAttempts: nat, w: WorkerState, job: EvaluationJob, rest: seq<Event>)
    returns (w': WorkerState)
    requires w.ledger.Some? && IsTerminal(w.ledger.value, job.uid)
    ensures w'.ledger.Some?
    ensures AttemptCount(w'.ledger.value, job.uid) == AttemptCount(w.ledger.value, job.uid) + 1
    ensures !IsTerminal(w'.ledger.value, job.uid)
    ensures PipelineRuns(maxAttempts, w, [CostlyFault(job)] + rest, job.uid)
         == 1 + PipelineRuns(maxAttempts, w', rest, job.uid)
    ensures FaultyRuns(maxAttempts, w, [CostlyFault(job)] + rest, job.uid)
         == 1 + FaultyRuns(maxAttempts, w', rest, job.uid)
  {
    FirstEvent(maxAttempts, w, CostlyFault(job), rest, job.uid);
    CostlyFaultStep(maxAttempts, w, job);
    w' := Next(maxAttempts, w, CostlyFault(job));
  }

  lemma {:induction false} TimeoutsSpendBudget(
    maxAttempts: nat, w: WorkerState, job: EvaluationJob, k: nat, rest: seq<Event>) returns (w': WorkerState)
    requires w.ledger.Some? && !IsTerminal(w.ledger.value, job.uid)
    requires k >= 1 && AttemptCount(w.ledger.value, job.uid) + k == Budget(maxAttempts)
    ensures w'.ledger.Some? && IsTerminal(w'.ledger.value, job.uid)
    ensures AttemptCount(w'.ledger.value, job.uid) == Budget(maxAttempts)
    ensures PipelineRuns(maxAttempts, w, Timeouts(job, k) + rest, job.uid)
         == k + PipelineRuns(maxAttempts, w', rest, job.uid)
    ensures FaultyRuns(maxAttempts, w, Timeouts(job, k) + rest, job.uid)
         == FaultyRuns(maxAttempts, w', rest, job.uid)
    decreases k
  {
    var more := Timeouts(job, k - 1) + rest;
    assert Timeouts(job, k) + rest == [Timeout(job)] + more;
    w' := AfterTimeout(maxAttempts, w, job, more);
    if k == 1 {
      assert more == rest;
    } else {
      w' := TimeoutsSpendBudget(maxAttempts, w', job, k - 1, rest);
    }
  }

  lemma {:induction false} FaultsCostTwo(maxAttempts: nat, w: WorkerState, job: EvaluationJob, f: nat)
    requires w.ledger.Some? && IsTerminal(w.ledger.value, job.uid)
    requires AttemptCount(w.ledger.value, job.uid) >= maxAttempts
    ensures PipelineRuns(maxAttempts, w, Faults(job, f), job.uid) == 2 * f
    ensures FaultyRuns(maxAttempts, w, Faults(job, f), job.uid) == f
    decreases f
  {
    if f > 0 {
      var more := Faults(job, f - 1);
      assert Faults(job, f) == [CostlyFault(job)] + ([Timeout(job)] + more);
      var w1 := AfterCostlyFault(maxAttempts, w, job, [Timeout(job)] + more);
      var w2 := AfterTimeout(maxAttempts, w1, job, more);
      FaultsCostTwo(maxAttempts, w2, job, f - 1);
    }
  }

  lemma FaultBudgetIsTight(maxAttempts: nat, job: EvaluationJob, f: nat)
    ensures exists h: seq<Event> ::
      && FaultyRuns(maxAttempts, Boot(Some(EMPTY_DB)), h, job.uid) == f
      && PipelineRuns(maxAttempts, Boot(Some(EMPTY_DB)), h, job.uid) == Budget(maxAttempts) + 2 * f
  {
    var w := Boot(Some(EMPTY_DB));
    var k := Budget(maxAttempts);
    var spent := TimeoutsSpendBudget(maxAttempts, w, job, k, Faults(job, f));
    FaultsCostTwo(maxAttempts, spent, job, f);
    var h := Timeouts(job, k) + Faults(job, f);
    assert FaultyRuns(maxAttempts, w, h, job.uid) == f;
  }
}
