/** Counters against ledger rows: nothing a clean run does is lost or counted twice. */
module Conservation {
  import opened Types
  import opened Ledger
  import opened Worker
  import opened CleanRuns

  ghost function SumAttempts(jobs: map<Uid, JobRow>, keys: set<Uid>): nat
    requires keys <= jobs.Keys
  {
    if keys == {} then 0
    else
      var u :| u in keys;
      jobs[u].attempts + SumAttempts(jobs, keys - {u})
  }

  /** The order in which the rows are added up does not matter. */
  lemma {:induction false} SumPick(jobs: map<Uid, JobRow>, keys: set<Uid>, u: Uid)
    requires keys <= jobs.Keys && u in keys
    ensures SumAttempts(jobs, keys) == jobs[u].attempts + SumAttempts(jobs, keys - {u})
    decreases |keys|
  {
    var v :| v in keys && SumAttempts(jobs, keys) == jobs[v].attempts + SumAttempts(jobs, keys - {v});
    if u != v {
      SumPick(jobs, keys - {v}, u);
      SumPick(jobs, keys - {u}, v);
      assert keys - {v} - {u} == keys - {u} - {v};
    }
  }

  lemma {:induction false} SumFrame(jobs: map<Uid, JobRow>, jobs': map<Uid, JobRow>, keys: set<Uid>)
    requires keys <= jobs.Keys && keys <= jobs'.Keys
    requires forall u :: u in keys ==> jobs[u] == jobs'[u]
    ensures SumAttempts(jobs, keys) == SumAttempts(jobs', keys)
    decreases |keys|
  {
    if keys != {} {
      var u :| u in keys;
      SumPick(jobs, keys, u);
      SumPick(jobs', keys, u);
      SumFrame(jobs, jobs', keys - {u});
    }
  }

  lemma SumUpdate(jobs: map<Uid, JobRow>, u: Uid, row: JobRow)
    ensures var jobs' := jobs[u := row];
      SumAttempts(jobs', jobs'.Keys) + (if u in jobs then jobs[u].attempts else 0)
      == SumAttempts(jobs, jobs.Keys) + row.attempts
  {
    var jobs' := jobs[u := row];
    SumPick(jobs', jobs'.Keys, u);
    SumFrame(jobs, jobs', jobs.Keys - {u});
    assert jobs'.Keys - {u} == jobs.Keys - {u};
    if u in jobs {
      SumPick(jobs, jobs.Keys, u);
    } else {
      assert jobs.Keys - {u} == jobs.Keys;
    }
  }

  function WithStatus(jobs: map<Uid, JobRow>, s: Status): set<Uid> {
    set u | u in jobs && jobs[u].status == s
  }

  ghost predicate Balanced(w: WorkerState) {
    && w.ledger.Some?
    && var db := w.ledger.value;
    && w.stats.evaluated + w.stats.errors == SumAttempts(db.jobs, db.jobs.Keys)
    && w.stats.evaluated == w.stats.approved + w.stats.rejected == |WithStatus(db.jobs, Settled)|
    && w.stats.deadLetter == |WithStatus(db.jobs, DeadLetter)|
  }

  lemma StepBalanced(maxAttempts: nat, w: WorkerState, a: Arrival)
    requires Balanced(w) && FaultFree(a.env) && !a.env.pipeline.Died?
    ensures Balanced(Process(maxAttempts, w, a.job, a.env).0)
  {
    CleanProcess(maxAttempts, w, a.job, a.env);
    var db := w.ledger.value;
    if !IsTerminal(db, a.job.uid) {
      var ending := EndingOf(maxAttempts, AttemptCount(db, a.job.uid) + 1, a.env.pipeline);
      RunBalanced(w, a.job, ending, a.env.pipeline);
    }
  }

  lemma RunBalanced(w: WorkerState, job: EvaluationJob, ending: Ending, p: PipelineResult)
    requires Balanced(w) && !IsTerminal(w.ledger.value, job.uid) && (ending.EndSettled? ==> p.Completed?)
    ensures Balanced(ReleaseMemory(w.(ledger := Some(DbAfter(w.ledger.value, job, ending, p)),
                                      stats := CountRun(w.stats, ending)), job.uid, ending))
  {
    var db, u := w.ledger.value, job.uid;
    var row := RowAfter(Lookup(db.jobs, u), job, ending, p);
    SumUpdate(db.jobs, u, row);
    StatusUpdate(db.jobs, u, row, Settled);
    StatusUpdate(db.jobs, u, row, DeadLetter);
  }

  lemma StatusUpdate(jobs: map<Uid, JobRow>, u: Uid, row: JobRow, s: Status)
    requires u in jobs ==> jobs[u].status != s
    ensures |WithStatus(jobs[u := row], s)| == |WithStatus(jobs, s)| + if row.status == s then 1 else 0
  {
    if row.status == s {
      assert WithStatus(jobs[u := row], s) == WithStatus(jobs, s) + {u};
    } else {
      assert WithStatus(jobs[u := row], s) == WithStatus(jobs, s);
    }
  }

  /** At every loop head of a clean run from an empty ledger. */
  lemma {:induction false} CountersMatchLedger(maxAttempts: nat, queue: seq<Arrival>)
    requires Clean(queue)
    ensures Balanced(ProcessAll(maxAttempts, Boot(Some(EMPTY_DB)), queue))
    decreases |queue|
  {
    if queue == [] {
      assert WithStatus(EMPTY_DB.jobs, Settled) == {} && WithStatus(EMPTY_DB.jobs, DeadLetter) == {};
    } else {
      var last := |queue| - 1;
      assert queue == queue[..last] + [queue[last]];
      CountersMatchLedger(maxAttempts, queue[..last]);
      ProcessAllSnoc(maxAttempts, Boot(Some(EMPTY_DB)), queue[..last], queue[last]);
      StepBalanced(maxAttempts, ProcessAll(maxAttempts, Boot(Some(EMPTY_DB)), queue[..last]), queue[last]);
    }
  }

  function Approving(verdicts: map<Uid, VerdictRow>): set<Uid> {
    set u | u in verdicts && verdicts[u].approved
  }

  function Rejecting(verdicts: map<Uid, VerdictRow>): set<Uid> {
    set u | u in verdicts && !verdicts[u].approved
  }

  ghost predicate VerdictsCounted(w: WorkerState) {
    && w.ledger.Some?
    && var db := w.ledger.value;
    && (forall u :: u in db.verdicts <==> u in db.jobs && db.jobs[u].status == Settled)
    && w.stats.approved == |Approving(db.verdicts)| && w.stats.rejected == |Rejecting(db.verdicts)|
  }

  lemma VerdictUpdate(verdicts: map<Uid, VerdictRow>, u: Uid, v: VerdictRow, after: map<Uid, VerdictRow>)
    requires u !in verdicts && after == verdicts[u := v]
    ensures |Approving(after)| == |Approving(verdicts)| + if v.approved then 1 else 0
    ensures |Rejecting(after)| == |Rejecting(verdicts)| + if v.approved then 0 else 1
  {
    forall x
      ensures x in Approving(after) <==> x in Approving(verdicts) || (x == u && v.approved)
      ensures x in Rejecting(after) <==> x in Rejecting(verdicts) || (x == u && !v.approved)
    {
    }
    GrowsBy(Approving(verdicts), Approving(after), u, v.approved);
    GrowsBy(Rejecting(verdicts), Rejecting(after), u, !v.approved);
  }

  lemma GrowsBy(s: set<Uid>, s': set<Uid>, u: Uid, grows: bool)
    requires u !in s && forall x :: x in s' <==> x in s || (x == u && grows)
    ensures |s'| == |s| + if grows then 1 else 0
  {
    assert s' == if grows then s + {u} else s;
  }

  lemma RunCountsVerdict(w: WorkerState, job: EvaluationJob, n: nat, maxAttempts: nat, p: PipelineResult)
    requires VerdictsCounted(w) && !IsTerminal(w.ledger.value, job.uid) && !p.Died?
    ensures var ending := EndingOf(maxAttempts, n, p);
      VerdictsCounted(ReleaseMemory(w.(ledger := Some(DbAfter(w.ledger.value, job, ending, p)),
                                       stats := CountRun(w.stats, ending)), job.uid, ending))
  {
    var db := w.ledger.value;
    if p.Completed? {
      var v := VerdictAfter(None, p.outcome);
      VerdictUpdate(db.verdicts, job.uid, v, db.verdicts[job.uid := v]);
    }
  }

  /** After every clean queue from an empty ledger, the approved counter is the number of verdict rows that
      approve, the rejected one the number of those that reject, and they belong to the settled payments. */
  lemma CountersMatchVerdicts(maxAttempts: nat, queue: seq<Arrival>)
    requires Clean(queue)
    ensures var w := ProcessAll(maxAttempts, Boot(Some(EMPTY_DB)), queue);
      && w.ledger.Some?
      && var db := w.ledger.value;
      && (forall u :: u in db.verdicts <==> u in db.jobs && db.jobs[u].status == Settled)
      && w.stats.approved == |set u | u in db.verdicts && db.verdicts[u].approved|
      && w.stats.rejected == |set u | u in db.verdicts && !db.verdicts[u].approved|
  {
    CountVerdicts(maxAttempts, queue);
  }

  lemma {:induction false} CountVerdicts(maxAttempts: nat, queue: seq<Arrival>)
    requires Clean(queue)
    ensures VerdictsCounted(ProcessAll(maxAttempts, Boot(Some(EMPTY_DB)), queue))
    decreases |queue|
  {
    if queue != [] {
      var last := |queue| - 1;
      var a := queue[last];
      assert queue == queue[..last] + [a];
      CountVerdicts(maxAttempts, queue[..last]);
      ProcessAllSnoc(maxAttempts, Boot(Some(EMPTY_DB)), queue[..last], a);
      var w := ProcessAll(maxAttempts, Boot(Some(EMPTY_DB)), queue[..last]);
      CleanProcess(maxAttempts, w, a.job, a.env);
      if !IsTerminal(w.ledger.value, a.job.uid) {
        RunCountsVerdict(w, a.job, AttemptCount(w.ledger.value, a.job.uid) + 1, maxAttempts, a.env.pipeline);
      }
    }
  }

  function Image(e: EventKind): Status {
    match e
    case EvDetected => Detected
    case EvQueued => Queued
    case EvStarted => Running
    case EvFailed => Failed
    case EvDeadLetter => DeadLetter
    case EvSettled => Settled
  }

  /** Every row's status is the image of the payment's last lifecycle event. */
  ghost predicate LogExplainsStatus(db: Db) {
    forall u :: u in db.jobs ==>
      EventsOf(db, u) != [] && db.jobs[u].status == Image(EventsOf(db, u)[|EventsOf(db, u)| - 1])
  }

  /** The property holds between any two record calls of a fault-free single writer. */
  lemma StatusCallKeepsLog(db: Db, job: EvaluationJob, error: Option<string>, event: EventKind,
                           fate: nat -> Fate, at: nat)
    requires LogExplainsStatus(db) && fate(at) == Applied && fate(at + 1) == Applied
    ensures LogExplainsStatus(RunCall(db, StatusCall(job, Image(event), error, event), fate, at).db)
  {
    CleanStatusCall(db, job, Image(event), error, event, fate, at);
  }

  lemma SettledCallKeepsLog(db: Db, job: EvaluationJob, o: PipelineOutcome, fate: nat -> Fate, at: nat)
    requires LogExplainsStatus(db)
    requires fate(at) == Applied && fate(at + 1) == Applied && fate(at + 2) == Applied
    ensures LogExplainsStatus(RunCall(db, SettledCall(job, o), fate, at).db)
  {
    RunThree(db, SettledCall(job, o), fate, at);
  }

  lemma {:induction false} StatusIsLastEvent(maxAttempts: nat, queue: seq<Arrival>)
    requires Clean(queue)
    ensures var w := ProcessAll(maxAttempts, Boot(Some(EMPTY_DB)), queue);
      w.ledger.Some? && LogExplainsStatus(w.ledger.value)
    decreases |queue|
  {
    if queue != [] {
      var last := |queue| - 1;
      assert queue == queue[..last] + [queue[last]];
      StatusIsLastEvent(maxAttempts, queue[..last]);
      ProcessAllSnoc(maxAttempts, Boot(Some(EMPTY_DB)), queue[..last], queue[last]);
      RunKeepsLog(maxAttempts, ProcessAll(maxAttempts, Boot(Some(EMPTY_DB)), queue[..last]), queue[last]);
    }
  }

  /** A whole fault-free run takes every row to the image of its last event. */
  lemma RunKeepsLog(maxAttempts: nat, w: WorkerState, a: Arrival)
    requires w.ledger.Some? && LogExplainsStatus(w.ledger.value)
    requires FaultFree(a.env) && !a.env.pipeline.Died?
    ensures var w' := Process(maxAttempts, w, a.job, a.env).0;
      w'.ledger.Some? && LogExplainsStatus(w'.ledger.value)
  {
    CleanProcess(maxAttempts, w, a.job, a.env);
    var db := w.ledger.value;
    if !IsTerminal(db, a.job.uid) {
      var ending := EndingOf(maxAttempts, AttemptCount(db, a.job.uid) + 1, a.env.pipeline);
      DbAfterKeepsLog(db, a.job, ending, a.env.pipeline);
    }
  }

  lemma DbAfterKeepsLog(db: Db, job: EvaluationJob, ending: Ending, p: PipelineResult)
    requires LogExplainsStatus(db) && (ending.EndSettled? ==> p.Completed?)
    ensures LogExplainsStatus(DbAfter(db, job, ending, p))
  {
    var db', u := DbAfter(db, job, ending, p), job.uid;
    assert db'.jobs[u].status == StatusOf(ending) == Image(EventOf(ending));
    assert EventsOf(db', u) == EventsOf(db, u) + [EvDetected, EvQueued, EvStarted, EventOf(ending)];
    forall v | v in db'.jobs && v != u
      ensures EventsOf(db', v) != [] && db'.jobs[v].status == Image(EventsOf(db', v)[|EventsOf(db', v)| - 1])
    {
      assert db'.jobs[v] == db.jobs[v] && EventsOf(db', v) == EventsOf(db, v);
    }
  }
}
