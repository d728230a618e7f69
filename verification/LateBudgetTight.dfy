/** Both bounds on pipeline runs are attained, for every budget and every number of faulty runs. */
module LateBudgetTight {
  import opened Types
  import opened Ledger
  import opened Worker
  import opened Protocol
  import opened LateBudget

  /** These labels lead from one state and tally to another, without a manual request for the payment. */
  ghost predicate Leads(maxAttempts: nat, s: State, t: Tally, ls: seq<Label>, s': State, t': Tally, u: Uid) {
    && Run(maxAttempts, s, ls) == s' && ObserveAll(maxAttempts, s, t, ls, u) == t' && NoRequestFor(u, ls)
  }

  lemma LeadsByStep(maxAttempts: nat, s: State, t: Tally, l: Label, u: Uid)
    requires !l.Request?
    ensures Leads(maxAttempts, s, t, [l], Step(maxAttempts, s, l), Observe(maxAttempts, s, t, l, u), u)
  {
    assert [l][1..] == [];
  }

  lemma {:induction false} LeadsOnwards(
    maxAttempts: nat, s: State, t: Tally, a: seq<Label>, s1: State, t1: Tally, b: seq<Label>, s2: State, t2: Tally,
    u: Uid)
    requires Leads(maxAttempts, s, t, a, s1, t1, u) && Leads(maxAttempts, s1, t1, b, s2, t2, u)
    ensures Leads(maxAttempts, s, t, a + b, s2, t2, u)
    decreases |a|
  {
    if a == [] {
      assert a + b == b;
    } else {
      assert (a + b)[0] == a[0] && (a + b)[1..] == a[1..] + b;
      LeadsOnwards(maxAttempts, Step(maxAttempts, s, a[0]), Observe(maxAttempts, s, t, a[0], u), a[1..], s1, t1,
                   b, s2, t2, u);
    }
  }

  /** The worker is idle and this is the payment's row. */
  ghost predicate Idle(s: State, u: Uid, attempts: nat, terminal: bool) {
    ViewOf(s, u) == View(None, attempts, terminal)
  }

  /** One statement of a run. */
  lemma OneWrite(maxAttempts: nat, s: State, t: Tally, job: EvaluationJob, stage: Stage, done: nat, ok: bool)
    returns (s': State, t': Tally)
    requires WorkerOf(s) == Some(Writing(job, stage, done)) && done < |CallOf(job, stage)|
    requires ok || t.tainted
    ensures Leads(maxAttempts, s, t, [Write(WorkerId, ok)], s', t', job.uid)
    ensures ViewOf(s', job.uid) == Written(ViewOf(s, job.uid), ok)
    ensures s'.late == if ok then s.late else s.late + multiset{CallOf(job, stage)[done]}
    ensures t' == t.(runs := t.runs + if stage.Starting? && !ok then 1 else 0)
  {
    var l := Write(WorkerId, ok);
    LeadsByStep(maxAttempts, s, t, l, job.uid);
    WorkerWrites(s, ok, job.uid);
    s', t' := Step(maxAttempts, s, l), Observe(maxAttempts, s, t, l, job.uid);
  }

  /** A record call of two statements, both of which take effect. */
  lemma GoodCall(maxAttempts: nat, s: State, t: Tally, job: EvaluationJob, stage: Stage)
    returns (ls: seq<Label>, s': State)
    requires WorkerOf(s) == Some(Writing(job, stage, 0)) && !stage.Settling?
    ensures Leads(maxAttempts, s, t, ls, s', t, job.uid) && s'.late == s.late
    ensures ViewOf(s', job.uid)
         == View(AfterCall(WorkerId, job, stage, true),
                 ViewOf(s, job.uid).attempts + if stage.Starting? then 1 else 0, Closing(stage))
  {
    var s1, t1 := OneWrite(maxAttempts, s, t, job, stage, 0, true);
    var s2, t2 := OneWrite(maxAttempts, s1, t1, job, stage, 1, true);
    ls, s' := [Write(WorkerId, true)] + [Write(WorkerId, true)], s2;
    LeadsOnwards(maxAttempts, s, t, [Write(WorkerId, true)], s1, t1, [Write(WorkerId, true)], s2, t2, job.uid);
  }

  /** A run takes up the job; the probe fails or finds the payment open. */
  lemma RunBegins(maxAttempts: nat, s: State, t: Tally, job: EvaluationJob, read: ReadFate)
    returns (ls: seq<Label>, s': State, t': Tally)
    requires WorkerId !in s.agents && !(read == ReadOk && IsTerminal(s.db, job.uid))
    ensures Leads(maxAttempts, s, t, ls, s', t', job.uid) && s'.late == s.late
    ensures ViewOf(s', job.uid) == ViewOf(s, job.uid).(worker := Some(Writing(job, Detecting, 0)))
    ensures t' == if read == ReadOk then t.(tainted := false) else t.(faulty := t.faulty + 1, tainted := true)
  {
    var s1, t1 := Step(maxAttempts, s, TakeJob(job)), Observe(maxAttempts, s, t, TakeJob(job), job.uid);
    LeadsByStep(maxAttempts, s, t, TakeJob(job), job.uid);
    s', t' := Step(maxAttempts, s1, Probe(read)), Observe(maxAttempts, s1, t1, Probe(read), job.uid);
    LeadsByStep(maxAttempts, s1, t1, Probe(read), job.uid);
    ls := [TakeJob(job)] + [Probe(read)];
    LeadsOnwards(maxAttempts, s, t, [TakeJob(job)], s1, t1, [Probe(read)], s', t', job.uid);
  }

  function FailureStage(maxAttempts: nat, attempt: nat): Stage {
    if attempt >= maxAttempts then DeadLettering("pipeline timeout") else Failing("pipeline timeout")
  }

  /** The attempt is counted and the pipeline times out. */
  lemma CountAndTimeOut(maxAttempts: nat, s: State, t: Tally, job: EvaluationJob)
    returns (ls: seq<Label>, s': State, t': Tally)
    requires WorkerOf(s) == Some(Counting(job)) && ViewOf(s, job.uid).attempts > 0
    ensures Leads(maxAttempts, s, t, ls, s', t', job.uid) && s'.late == s.late && t' == t.(runs := t.runs + 1)
    ensures var v := ViewOf(s, job.uid);
      ViewOf(s', job.uid) == v.(worker := Some(Writing(job, FailureStage(maxAttempts, v.attempts), 0)))
  {
    var l := Protocol.Count(ReadOk);
    var s1, t1 := Step(maxAttempts, s, l), Observe(maxAttempts, s, t, l, job.uid);
    LeadsByStep(maxAttempts, s, t, l, job.uid);
    ls, s', t' := TimeOut(maxAttempts, s1, t1, job, ViewOf(s, job.uid).attempts);
    LeadsOnwards(maxAttempts, s, t, [l], s1, t1, ls, s', t', job.uid);
    ls := [l] + ls;
  }

  lemma TimeOut(maxAttempts: nat, s: State, t: Tally, job: EvaluationJob, attempt: nat)
    returns (ls: seq<Label>, s': State, t': Tally)
    requires WorkerOf(s) == Some(Checking(job, attempt))
    ensures Leads(maxAttempts, s, t, ls, s', t', job.uid) && s'.late == s.late && t' == t
    ensures ViewOf(s', job.uid)
         == ViewOf(s, job.uid).(worker := Some(Writing(job, FailureStage(maxAttempts, attempt), 0)))
  {
    var l := Fail(WorkerId, "pipeline timeout");
    LeadsByStep(maxAttempts, s, t, l, job.uid);
    ls, s', t' := [l], Step(maxAttempts, s, l), Observe(maxAttempts, s, t, l, job.uid);
  }

  /** A run without faults whose pipeline times out. */
  lemma CleanTimeout(maxAttempts: nat, s: State, t: Tally, job: EvaluationJob, attempts: nat)
    returns (ls: seq<Label>, s': State, t': Tally)
    requires Idle(s, job.uid, attempts, false)
    ensures Leads(maxAttempts, s, t, ls, s', t', job.uid) && s'.late == s.late
    ensures Idle(s', job.uid, attempts + 1, attempts + 1 >= maxAttempts)
    ensures t' == t.(runs := t.runs + 1, tainted := false)
  {
    var u := job.uid;
    var s1, t1, s2, more;
    ls, s1, t1 := RunBegins(maxAttempts, s, t, job, ReadOk);
    more, s2 := GoodCall(maxAttempts, s1, t1, job, Detecting);
    LeadsOnwards(maxAttempts, s, t, ls, s1, t1, more, s2, t1, u);
    ls := ls + more;
    more, s' := GoodCall(maxAttempts, s2, t1, job, Queueing);
    LeadsOnwards(maxAttempts, s, t, ls, s2, t1, more, s', t1, u);
    ls := ls + more;
    more, s', t' := StartAndTimeOut(maxAttempts, s', t1, job, attempts);
    LeadsOnwards(maxAttempts, s, t, ls, Run(maxAttempts, s, ls), t1, more, s', t', u);
    ls := ls + more;
  }

  lemma StartAndTimeOut(maxAttempts: nat, s: State, t: Tally, job: EvaluationJob, attempts: nat)
    returns (ls: seq<Label>, s': State, t': Tally)
    requires WorkerOf(s) == Some(Writing(job, Starting, 0)) && ViewOf(s, job.uid).attempts == attempts
    ensures Leads(maxAttempts, s, t, ls, s', t', job.uid) && s'.late == s.late
    ensures Idle(s', job.uid, attempts + 1, attempts + 1 >= maxAttempts)
    ensures t' == t.(runs := t.runs + 1)
  {
    var u := job.uid;
    var s1, s2, more;
    ls, s1 := GoodCall(maxAttempts, s, t, job, Starting);
    more, s2, t' := CountAndTimeOut(maxAttempts, s1, t, job);
    LeadsOnwards(maxAttempts, s, t, ls, s1, t, more, s2, t', u);
    ls := ls + more;
    more, s' := GoodCall(maxAttempts, s2, t', job, FailureStage(maxAttempts, attempts + 1));
    LeadsOnwards(maxAttempts, s, t, ls, s2, t', more, s', t', u);
    ls := ls + more;
  }

  /** The last statements of a faulty run: three upserts reported as failed around its pipeline. */
  lemma LoseUpserts(maxAttempts: nat, s: State, t: Tally, job: EvaluationJob)
    returns (ls: seq<Label>, s': State, t': Tally)
    requires WorkerOf(s) == Some(Writing(job, Queueing, 0)) && t.tainted
    ensures Leads(maxAttempts, s, t, ls, s', t', job.uid) && t' == t.(runs := t.runs + 1)
    ensures ViewOf(s', job.uid) == ViewOf(s, job.uid).(worker := None)
    ensures s'.late == s.late + multiset{QueuedCall(job)[0]} + multiset{StartedCall(job)[0]}
                     + multiset{CallOf(job, FailureStage(maxAttempts, 1))[0]}
  {
    var u := job.uid;
    var lost := [Write(WorkerId, false)];
    var s1, t1 := OneWrite(maxAttempts, s, t, job, Queueing, 0, false);
    var s2, t2 := OneWrite(maxAttempts, s1, t1, job, Starting, 0, false);
    LeadsOnwards(maxAttempts, s, t, lost, s1, t1, lost, s2, t2, u);
    var more, s3, t3 := TimeOut(maxAttempts, s2, t2, job, 1);
    LeadsOnwards(maxAttempts, s, t, lost + lost, s2, t2, more, s3, t3, u);
    s', t' := OneWrite(maxAttempts, s3, t3, job, FailureStage(maxAttempts, 1), 0, false);
    LeadsOnwards(maxAttempts, s, t, lost + lost + more, s3, t3, lost, s', t', u);
    ls := lost + lost + more + lost;
  }

  /** A run of a closed payment whose probe fails: it leaves the payment open and its upserts late. */
  lemma FaultyRun(maxAttempts: nat, s: State, t: Tally, job: EvaluationJob, attempts: nat)
    returns (ls: seq<Label>, s': State, t': Tally)
    requires Idle(s, job.uid, attempts, true)
    ensures Leads(maxAttempts, s, t, ls, s', t', job.uid) && Idle(s', job.uid, attempts, false)
    ensures t' == t.(runs := t.runs + 1, faulty := t.faulty + 1, tainted := true)
    ensures s'.late == s.late + multiset{QueuedCall(job)[0]} + multiset{StartedCall(job)[0]}
                     + multiset{CallOf(job, FailureStage(maxAttempts, 1))[0]}
  {
    var u := job.uid;
    var s1, t1, s2, more;
    ls, s1, t1 := RunBegins(maxAttempts, s, t, job, ReadFailed);
    more, s2 := GoodCall(maxAttempts, s1, t1, job, Detecting);
    LeadsOnwards(maxAttempts, s, t, ls, s1, t1, more, s2, t1, u);
    ls := ls + more;
    more, s', t' := LoseUpserts(maxAttempts, s2, t1, job);
    LeadsOnwards(maxAttempts, s, t, ls, s2, t1, more, s', t', u);
    ls := ls + more;
  }

  /** A late upsert opens a closed payment, and a run without faults closes it again. */
  lemma LateRun(maxAttempts: nat, s: State, t: Tally, job: EvaluationJob, attempts: nat, stmt: Stmt)
    returns (ls: seq<Label>, s': State, t': Tally, attempts': nat)
    requires Idle(s, job.uid, attempts, true) && attempts >= maxAttempts
    requires stmt in s.late && Reopens(stmt, job.uid)
    ensures Leads(maxAttempts, s, t, ls, s', t', job.uid) && s'.late == s.late - multiset{stmt}
    ensures attempts' >= maxAttempts && Idle(s', job.uid, attempts', true)
    ensures t' == t.(runs := t.runs + 1, late := t.late + 1, tainted := false)
  {
    var l := RunLate(stmt);
    var s1, t1 := Step(maxAttempts, s, l), Observe(maxAttempts, s, t, l, job.uid);
    LeadsByStep(maxAttempts, s, t, l, job.uid);
    ExecView(s.db, stmt, job.uid);
    var more;
    attempts' := ViewOf(s1, job.uid).attempts;
    more, s', t' := CleanTimeout(maxAttempts, s1, t1, job, attempts');
    LeadsOnwards(maxAttempts, s, t, [l], s1, t1, more, s', t', job.uid);
    ls, attempts' := [l] + more, attempts' + 1;
  }

  /** A faulty run and everything it brings about. */
  lemma OneFault(maxAttempts: nat, s: State, t: Tally, job: EvaluationJob, attempts: nat)
    returns (ls: seq<Label>, s': State, t': Tally, attempts': nat)
    requires Idle(s, job.uid, attempts, true) && attempts >= maxAttempts
    ensures Leads(maxAttempts, s, t, ls, s', t', job.uid)
    ensures attempts' >= maxAttempts && Idle(s', job.uid, attempts', true)
    ensures t'.runs == t.runs + PerFault(maxAttempts) && t'.faulty == t.faulty + 1
    ensures t'.late == t.late + PerFault(maxAttempts) - 2
  {
    var u := job.uid;
    var s1, t1, s2, t2, more;
    ls, s1, t1 := FaultyRun(maxAttempts, s, t, job, attempts);
    more, s2, t2 := CleanTimeout(maxAttempts, s1, t1, job, attempts);
    LeadsOnwards(maxAttempts, s, t, ls, s1, t1, more, s2, t2, u);
    ls := ls + more;
    more, s1, t1, attempts' := LateRun(maxAttempts, s2, t2, job, attempts + 1, QueuedCall(job)[0]);
    LeadsOnwards(maxAttempts, s, t, ls, s2, t2, more, s1, t1, u);
    ls := ls + more;
    more, s2, t2, attempts' := LateRun(maxAttempts, s1, t1, job, attempts', StartedCall(job)[0]);
    LeadsOnwards(maxAttempts, s, t, ls, s1, t1, more, s2, t2, u);
    ls, s', t' := ls + more, s2, t2;
    if maxAttempts > 1 {
      more, s', t', attempts' :=
        LateRun(maxAttempts, s2, t2, job, attempts', CallOf(job, FailureStage(maxAttempts, 1))[0]);
      LeadsOnwards(maxAttempts, s, t, ls, s2, t2, more, s', t', u);
      ls := ls + more;
    }
  }

  lemma {:induction false} ManyFaults(maxAttempts: nat, s: State, t: Tally, job: EvaluationJob, attempts: nat, f: nat)
    returns (ls: seq<Label>, s': State, t': Tally)
    requires Idle(s, job.uid, attempts, true) && attempts >= maxAttempts
    ensures Leads(maxAttempts, s, t, ls, s', t', job.uid)
    ensures t'.runs == t.runs + PerFault(maxAttempts) * f && t'.faulty == t.faulty + f
    ensures t'.late == t.late + (PerFault(maxAttempts) - 2) * f
    decreases f
  {
    ls, s', t' := [], s, t;
    if f > 0 {
      var s1, t1, n, more;
      ls, s1, t1, n := OneFault(maxAttempts, s, t, job, attempts);
      more, s', t' := ManyFaults(maxAttempts, s1, t1, job, n, f - 1);
      LeadsOnwards(maxAttempts, s, t, ls, s1, t1, more, s', t', job.uid);
      ls := ls + more;
    }
  }

  lemma {:induction false} SpendBudget(maxAttempts: nat, s: State, t: Tally, job: EvaluationJob, attempts: nat)
    returns (ls: seq<Label>, s': State, t': Tally, attempts': nat)
    requires Idle(s, job.uid, attempts, false) && (attempts < maxAttempts || attempts == 0)
    ensures Leads(maxAttempts, s, t, ls, s', t', job.uid)
    ensures attempts' >= maxAttempts && Idle(s', job.uid, attempts', true)
    ensures t'.runs + attempts == t.runs + Budget(maxAttempts)
    ensures t'.faulty == t.faulty && t'.late == t.late
    decreases maxAttempts - attempts
  {
    attempts' := attempts + 1;
    ls, s', t' := CleanTimeout(maxAttempts, s, t, job, attempts);
    if attempts + 1 < maxAttempts {
      var s1, t1, more := s', t', [];
      more, s', t', attempts' := SpendBudget(maxAttempts, s1, t1, job, attempts + 1);
      LeadsOnwards(maxAttempts, s, t, ls, s1, t1, more, s', t', job.uid);
      ls := ls + more;
    }
  }

  /** Both bounds at once: five runs per faulty one (four with a budget of at most one attempt), three (two) of
      them owed to late upserts. In particular the sequential bound of two per fault does not hold when
      statements reported as failed take effect later. */
  lemma LateBudgetIsTight(maxAttempts: nat, job: EvaluationJob, f: nat)
    ensures exists ls: seq<Label> ::
      var t := ObserveAll(maxAttempts, INIT, NO_TALLY, ls, job.uid);
      && NoRequestFor(job.uid, ls) && t.faulty == f
      && t.runs == Budget(maxAttempts) + PerFault(maxAttempts) * f
      && t.runs == Budget(maxAttempts) + 2 * f + t.late
  {
    var ls, s, t, n := SpendBudget(maxAttempts, INIT, NO_TALLY, job, 0);
    var more, s', t' := ManyFaults(maxAttempts, s, t, job, n, f);
    LeadsOnwards(maxAttempts, INIT, NO_TALLY, ls, s, t, more, s', t', job.uid);
    assert ObserveAll(maxAttempts, INIT, NO_TALLY, ls + more, job.uid) == t';
  }

  /** The smallest instance: one attempt allowed, one faulty run, five pipeline runs where the sequential
      bound says three. */
  lemma LateStatementsExceedSequentialBound(job: EvaluationJob)
    ensures exists ls: seq<Label> ::
      var t := ObserveAll(1, INIT, NO_TALLY, ls, job.uid);
      NoRequestFor(job.uid, ls) && t.faulty == 1 && t.runs == 5 > 1 + 2 * t.faulty
  {
    LateBudgetIsTight(1, job, 1);
  }
}
