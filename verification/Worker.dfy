/** The evaluation worker: one sequential loop over the job queue, with the ledger or with memory only. */
module Worker {
  import opened Types
  import opened Ledger

  datatype Stats = Stats(evaluated: nat, approved: nat, rejected: nat, errors: nat, deadLetter: nat)

  const NO_STATS := Stats(0, 0, 0, 0, 0)

  datatype ReadFate = ReadOk | ReadFailed

  /** How the pipeline of one run ends; `Died` means the process goes down with it. */
  datatype PipelineResult = Completed(outcome: PipelineOutcome) | Errored(error: string) | TimedOut | Died

  /** Everything outside the worker's control during one run: the two ledger reads, the fate of the
      ledger statements in the order they are issued (0-1 detected, 2-3 queued, 4-5 started,
      6-8 the final record), and the pipeline. */
  datatype RunEnv = RunEnv(probe: ReadFate, fate: nat -> Fate, count: ReadFate, pipeline: PipelineResult)

  datatype Arrival = Arrival(job: EvaluationJob, env: RunEnv)

  datatype Ending = EndSettled(approved: bool) | EndRetry | EndDead

  datatype Decision = Skipped | Ran(attempt: nat, ending: Ending) | Crashed(ranPipeline: bool)

  /** `ledger` is `None` when no database is configured; the two collections live in memory. */
  datatype WorkerState = WorkerState(
    ledger: Option<Db>,
    processed: set<Uid>,
    attempts: map<Uid, nat>,
    stats: Stats)

  /** A fresh process over a surviving ledger. */
  function Boot(ledger: Option<Db>): WorkerState {
    WorkerState(ledger, {}, map[], NO_STATS)
  }

  /** The runs the attempt budget allows a payment: the first is never refused. */
  function Budget(maxAttempts: nat): nat {
    Max(1, maxAttempts)
  }

  function EndingOf(maxAttempts: nat, attempt: nat, p: PipelineResult): Ending
    requires !p.Died?
  {
    if p.Completed? then EndSettled(p.outcome.result.approved)
    else if attempt >= maxAttempts then EndDead
    else EndRetry
  }

  function ErrorText(p: PipelineResult): string {
    if p.Errored? then p.error else "pipeline timeout"
  }

  /** The same for an operator's evaluation. */
  function ManualErrorText(p: PipelineResult): string {
    if p.TimedOut? then "manual pipeline timeout" else ErrorText(p)
  }

  function FinalCall(job: EvaluationJob, ending: Ending, p: PipelineResult): seq<Stmt>
    requires ending.EndSettled? ==> p.Completed?
  {
    match ending
    case EndSettled(_) => SettledCall(job, p.outcome)
    case EndRetry => FailedCall(job, ErrorText(p))
    case EndDead => DeadLetterCall(job, ErrorText(p))
  }

  function CountRun(s: Stats, ending: Ending): Stats {
    match ending
    case EndSettled(true) => s.(evaluated := s.evaluated + 1, approved := s.approved + 1)
    case EndSettled(false) => s.(evaluated := s.evaluated + 1, rejected := s.rejected + 1)
    case EndRetry => s.(errors := s.errors + 1)
    case EndDead => s.(errors := s.errors + 1, deadLetter := s.deadLetter + 1)
  }

  datatype Start = SkipRun | DieEarly(db: Db) | StartRun(db: Db, attempt: nat)

  function CountedAttempt(db: Db, uid: Uid, recorded: CallStatus, count: ReadFate): nat {
    if recorded == CallOk && count == ReadOk && AttemptCount(db, uid) > 0 then AttemptCount(db, uid) else 1
  }

  /** The ledger half of a run's beginning: probe, three record calls, attempt number. */
  function LedgerStart(db: Db, job: EvaluationJob, env: RunEnv): Start {
    if env.probe == ReadOk && IsTerminal(db, job.uid) then SkipRun
    else
      var d := RunCall(db, DetectedCall(job), env.fate, 0);
      if d.status == CallCrashed then DieEarly(d.db) else
      var q := RunCall(d.db, QueuedCall(job), env.fate, 2);
      if q.status == CallCrashed then DieEarly(q.db) else
      var s := RunCall(q.db, StartedCall(job), env.fate, 4);
      if s.status == CallCrashed then DieEarly(s.db) else
      StartRun(s.db, CountedAttempt(s.db, job.uid, s.status, env.count))
  }

  /** What memory does when a run ends: a retryable end releases the payment, the others forget its count. */
  function ReleaseMemory(w: WorkerState, uid: Uid, ending: Ending): WorkerState {
    if ending == EndRetry then w.(processed := w.processed - {uid})
    else w.(attempts := w.attempts - {uid})
  }

  function FinishRun(maxAttempts: nat, w: WorkerState, job: EvaluationJob, attempt: nat, env: RunEnv)
    : (WorkerState, Decision)
  {
    if env.pipeline.Died? then (Boot(w.ledger), Crashed(true))
    else
      var ending := EndingOf(maxAttempts, attempt, env.pipeline);
      var released := ReleaseMemory(w.(stats := CountRun(w.stats, ending)), job.uid, ending);
      match w.ledger
      case None => (released, Ran(attempt, ending))
      case Some(db) =>
        var f := RunCall(db, FinalCall(job, ending, env.pipeline), env.fate, 6);
        if f.status == CallCrashed then (Boot(Some(f.db)), Crashed(true))
        else (released.(ledger := Some(f.db)), Ran(attempt, ending))
  }

  /** One turn of the worker loop. */
  function Process(maxAttempts: nat, w: WorkerState, job: EvaluationJob, env: RunEnv): (WorkerState, Decision) {
    match w.ledger
    case Some(db) =>
      (match LedgerStart(db, job, env)
       case SkipRun => (w, Skipped)
       case DieEarly(db') => (Boot(Some(db')), Crashed(false))
       case StartRun(db', n) => FinishRun(maxAttempts, w.(ledger := Some(db')), job, n, env))
    case None =>
      if job.uid in w.processed then (w, Skipped)
      else
        var n := (if job.uid in w.attempts then w.attempts[job.uid] else 0) + 1;
        FinishRun(maxAttempts, w.(processed := w.processed + {job.uid}, attempts := w.attempts[job.uid := n]),
                  job, n, env)
  }

  function ProcessAll(maxAttempts: nat, w: WorkerState, queue: seq<Arrival>): WorkerState
    decreases |queue|
  {
    if queue == [] then w
    else ProcessAll(maxAttempts, Process(maxAttempts, w, queue[0].job, queue[0].env).0, queue[1..])
  }

  function Decisions(maxAttempts: nat, w: WorkerState, queue: seq<Arrival>): (ds: seq<Decision>)
    decreases |queue|
  {
    if queue == [] then []
    else
      var (w', d) := Process(maxAttempts, w, queue[0].job, queue[0].env);
      [d] + Decisions(maxAttempts, w', queue[1..])
  }

  lemma {:induction false} ProcessAllSnoc(maxAttempts: nat, w: WorkerState, queue: seq<Arrival>, a: Arrival)
    ensures ProcessAll(maxAttempts, w, queue + [a])
         == Process(maxAttempts, ProcessAll(maxAttempts, w, queue), a.job, a.env).0
    ensures Decisions(maxAttempts, w, queue + [a])
         == Decisions(maxAttempts, w, queue) + [Process(maxAttempts, ProcessAll(maxAttempts, w, queue), a.job, a.env).1]
    decreases |queue|
  {
    if queue == [] {
      assert (queue + [a])[1..] == [];
    } else {
      assert (queue + [a])[1..] == queue[1..] + [a];
      ProcessAllSnoc(maxAttempts, Process(maxAttempts, w, queue[0].job, queue[0].env).0, queue[1..], a);
    }
  }

  /** A run the process survives. */
  ghost predicate NoCrash(env: RunEnv) {
    !env.pipeline.Died? && forall i: nat :: env.fate(i) != Crash
  }

  /** The worker object. The ledger is shared with the HTTP handler, so it is a separate object. */
  class EvaluationWorker {
    const maxAttempts: nat
    const ledger: OracleDb?
    var processed: set<Uid>
    var attempts: map<Uid, nat>
    var stats: Stats

    ghost function View(): WorkerState
      reads this, if ledger == null then {} else {ledger}
    {
      WorkerState(if ledger == null then None else Some(ledger.Contents()), processed, attempts, stats)
    }

    constructor (maxAttempts: nat, ledger: OracleDb?)
      ensures this.maxAttempts == maxAttempts && this.ledger == ledger
      ensures View() == Boot(if ledger == null then None else Some(ledger.Contents()))
    {
      this.maxAttempts, this.ledger := maxAttempts, ledger;
      processed, attempts, stats := {}, map[], NO_STATS;
    }

    /** With a ledger: the terminal probe, three record calls and the attempt number. */
    method BeginInLedger(ledger: OracleDb, job: EvaluationJob, env: RunEnv) returns (run: bool, attempt: nat)
      requires NoCrash(env)
      modifies ledger
      ensures LedgerStart(old(ledger.Contents()), job, env) == if run then StartRun(ledger.Contents(), attempt) else SkipRun
      ensures !run ==> ledger.Contents() == old(ledger.Contents())
    {
      if env.probe == ReadOk {
        var terminal := ledger.Terminal(job.uid);
        if terminal {
          return false, 0;
        }
      }
      var _ := ledger.RecordStatus(job, Detected, None, EvDetected, env.fate, 0);
      var _ := ledger.RecordStatus(job, Queued, None, EvQueued, env.fate, 2);
      var recorded := ledger.RecordStatus(job, Running, None, EvStarted, env.fate, 4);
      attempt := 1;
      if recorded && env.count == ReadOk {
        var n := ledger.Attempts(job.uid);
        if n > 0 {
          attempt := n;
        }
      }
      run := true;
    }

    /** Decide whether the job runs and, if so, as which attempt. */
    method Begin(job: EvaluationJob, env: RunEnv) returns (run: bool, attempt: nat)
      requires NoCrash(env)
      modifies this, if ledger == null then {} else {ledger}
      ensures stats == old(stats)
      ensures !run ==> View() == old(View()) && Process(maxAttempts, old(View()), job, env) == (View(), Skipped)
      ensures run ==>
                Process(maxAttempts, old(View()), job, env) == FinishRun(maxAttempts, View(), job, attempt, env)
    {
      attempt := 0;
      if ledger != null {
        run, attempt := BeginInLedger(ledger, job, env);
      } else {
        if job.uid in processed {
          return false, 0;
        }
        processed := processed + {job.uid};
        if job.uid in attempts {
          attempt := attempts[job.uid];
        }
        attempt := attempt + 1;
        attempts := attempts[job.uid := attempt];
        run := true;
      }
    }

    method Finish(job: EvaluationJob, attempt: nat, env: RunEnv) returns (d: Decision)
      requires NoCrash(env)
      modifies this, if ledger == null then {} else {ledger}
      ensures (View(), d) == FinishRun(maxAttempts, old(View()), job, attempt, env)
      ensures env.pipeline.Completed? ==>
                var approved := env.pipeline.outcome.result.approved;
                && stats.evaluated == old(stats.evaluated) + 1 && stats.errors == old(stats.errors)
                && stats.approved == old(stats.approved) + (if approved then 1 else 0)
                && stats.rejected == old(stats.rejected) + (if approved then 0 else 1)
                && stats.deadLetter == old(stats.deadLetter)
      ensures !env.pipeline.Completed? ==>
                && stats.errors == old(stats.errors) + 1 && stats.evaluated == old(stats.evaluated)
                && stats.approved == old(stats.approved) && stats.rejected == old(stats.rejected)
                && stats.deadLetter == old(stats.deadLetter) + (if attempt >= maxAttempts then 1 else 0)
    {
      if env.pipeline.Completed? {
        var outcome := env.pipeline.outcome;
        if ledger != null {
          var _ := ledger.RecordSettled(job, outcome, env.fate, 6);
        }
        stats := stats.(evaluated := stats.evaluated + 1);
        if outcome.result.approved {
          stats := stats.(approved := stats.approved + 1);
        } else {
          stats := stats.(rejected := stats.rejected + 1);
        }
        attempts := attempts - {job.uid};
        d := Ran(attempt, EndSettled(outcome.result.approved));
      } else {
        var dead := attempt >= maxAttempts;
        if ledger != null {
          if dead {
            var _ := ledger.RecordStatus(job, DeadLetter, Some(ErrorText(env.pipeline)), EvDeadLetter, env.fate, 6);
          } else {
            var _ := ledger.RecordStatus(job, Failed, Some(ErrorText(env.pipeline)), EvFailed, env.fate, 6);
          }
        }
        if !dead {
          processed := processed - {job.uid};
        }
        stats := stats.(errors := stats.errors + 1);
        if dead {
          stats := stats.(deadLetter := stats.deadLetter + 1);
          attempts := attempts - {job.uid};
        }
        d := Ran(attempt, if dead then EndDead else EndRetry);
      }
    }

    /** The worker loop over a queue, oldest job first. */
    method Run(queue: seq<Arrival>) returns (ds: seq<Decision>)
      requires forall i :: 0 <= i < |queue| ==> NoCrash(queue[i].env)
      modifies this, if ledger == null then {} else {ledger}
      ensures View() == ProcessAll(maxAttempts, old(View()), queue)
      ensures ds == Decisions(maxAttempts, old(View()), queue)
    {
      ds := [];
      var i := 0;
      while i < |queue|
        invariant 0 <= i <= |queue|
        invariant View() == ProcessAll(maxAttempts, old(View()), queue[..i])
        invariant ds == Decisions(maxAttempts, old(View()), queue[..i])
      {
        var a := queue[i];
        ProcessAllSnoc(maxAttempts, old(View()), queue[..i], a);
        assert queue[..i + 1] == queue[..i] + [a];
        var run, attempt := Begin(a.job, a.env);
        var d := Skipped;
        if run {
          d := Finish(a.job, attempt, a.env);
        }
        ds := ds + [d];
        i := i + 1;
      }
      assert queue[..i] == queue;
    }
  }
}
