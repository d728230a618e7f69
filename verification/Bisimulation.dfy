/** The ledger-backed worker and the in-memory worker make the same decisions. */
module Bisimulation {
  import opened Types
  import opened Ledger
  import opened Worker
  import opened CleanRuns

  ghost predicate Similar(lw: WorkerState, mw: WorkerState) {
    && lw.ledger.Some? && mw.ledger.None?
    && lw.stats == mw.stats
    && (forall u :: u in mw.processed <==> IsTerminal(lw.ledger.value, u))
    && (forall u :: u !in mw.processed ==>
          AttemptCount(lw.ledger.value, u) == if u in mw.attempts then mw.attempts[u] else 0)
  }

  /** What a clean run does to terminality and attempts, payment by payment. */
  lemma RowsAfter(db: Db, job: EvaluationJob, ending: Ending, p: PipelineResult, u: Uid)
    requires ending.EndSettled? ==> p.Completed?
    ensures var db' := DbAfter(db, job, ending, p);
      && IsTerminal(db', u) == (if u == job.uid then ending != EndRetry else IsTerminal(db, u))
      && AttemptCount(db', u) == AttemptCount(db, u) + if u == job.uid then 1 else 0
  {
  }

  /** A run of the in-memory worker in closed form. */
  lemma MemoryProcess(maxAttempts: nat, w: WorkerState, job: EvaluationJob, env: RunEnv)
    requires w.ledger.None? && job.uid !in w.processed && !env.pipeline.Died?
    ensures var n := (if job.uid in w.attempts then w.attempts[job.uid] else 0) + 1;
      var ending := EndingOf(maxAttempts, n, env.pipeline);
      Process(maxAttempts, w, job, env) ==
      (ReleaseMemory(w.(processed := w.processed + {job.uid}, attempts := w.attempts[job.uid := n],
                        stats := CountRun(w.stats, ending)), job.uid, ending),
       Ran(n, ending))
  {
  }

  lemma SimilarAfterRun(lw: WorkerState, mw: WorkerState, job: EvaluationJob, n: nat, ending: Ending, p: PipelineResult)
    requires Similar(lw, mw) && job.uid !in mw.processed && n == AttemptCount(lw.ledger.value, job.uid) + 1
    requires ending.EndSettled? ==> p.Completed?
    ensures Similar(
              ReleaseMemory(lw.(ledger := Some(DbAfter(lw.ledger.value, job, ending, p)),
                                stats := CountRun(lw.stats, ending)), job.uid, ending),
              ReleaseMemory(mw.(processed := mw.processed + {job.uid}, attempts := mw.attempts[job.uid := n],
                                stats := CountRun(mw.stats, ending)), job.uid, ending))
  {
    forall u {
      RowsAfter(lw.ledger.value, job, ending, p, u);
    }
  }

  lemma StepSimilar(maxAttempts: nat, lw: WorkerState, mw: WorkerState, a: Arrival)
    requires Similar(lw, mw) && FaultFree(a.env) && !a.env.pipeline.Died?
    ensures Process(maxAttempts, lw, a.job, a.env).1 == Process(maxAttempts, mw, a.job, a.env).1
    ensures Similar(Process(maxAttempts, lw, a.job, a.env).0, Process(maxAttempts, mw, a.job, a.env).0)
  {
    CleanProcess(maxAttempts, lw, a.job, a.env);
    if a.job.uid !in mw.processed {
      MemoryProcess(maxAttempts, mw, a.job, a.env);
      var n := AttemptCount(lw.ledger.value, a.job.uid) + 1;
      SimilarAfterRun(lw, mw, a.job, n, EndingOf(maxAttempts, n, a.env.pipeline), a.env.pipeline);
    }
  }

  lemma {:induction false} RunsSimilar(maxAttempts: nat, lw: WorkerState, mw: WorkerState, queue: seq<Arrival>)
    requires Similar(lw, mw) && Clean(queue)
    ensures Decisions(maxAttempts, lw, queue) == Decisions(maxAttempts, mw, queue)
    ensures Similar(ProcessAll(maxAttempts, lw, queue), ProcessAll(maxAttempts, mw, queue))
    decreases |queue|
  {
    if queue != [] {
      StepSimilar(maxAttempts, lw, mw, queue[0]);
      RunsSimilar(maxAttempts, Process(maxAttempts, lw, queue[0].job, queue[0].env).0,
                  Process(maxAttempts, mw, queue[0].job, queue[0].env).0, queue[1..]);
    }
  }

  /** From fresh starts, on every job and outcome sequence: same decisions, same counters. */
  lemma LedgerAndMemoryBisimilar(maxAttempts: nat, queue: seq<Arrival>)
    requires Clean(queue)
    ensures Decisions(maxAttempts, Boot(Some(EMPTY_DB)), queue) == Decisions(maxAttempts, Boot(None), queue)
    ensures ProcessAll(maxAttempts, Boot(Some(EMPTY_DB)), queue).stats
         == ProcessAll(maxAttempts, Boot(None), queue).stats
  {
    RunsSimilar(maxAttempts, Boot(Some(EMPTY_DB)), Boot(None), queue);
  }

  // What the in-memory collections mean, in terms of the decisions taken so far.

  function RunsOf(uid: Uid, queue: seq<Arrival>, ds: seq<Decision>): nat
    requires |queue| == |ds|
  {
    if queue == [] then 0
    else
      var last := |queue| - 1;
      RunsOf(uid, queue[..last], ds[..last]) + if queue[last].job.uid == uid && ds[last].Ran? then 1 else 0
  }

  /** Some run of the payment ended settled or dead-lettered. */
  ghost predicate Ended(uid: Uid, queue: seq<Arrival>, ds: seq<Decision>)
    requires |queue| == |ds|
  {
    exists i :: 0 <= i < |queue| && queue[i].job.uid == uid && ds[i].Ran? && ds[i].ending != EndRetry
  }

  ghost predicate Survived(queue: seq<Arrival>) {
    forall i :: 0 <= i < |queue| ==> !queue[i].env.pipeline.Died?
  }

  /** What the collections of the in-memory worker mean after these decisions. */
  ghost predicate MemoryMeans(maxAttempts: nat, w: WorkerState, queue: seq<Arrival>, ds: seq<Decision>)
    requires |queue| == |ds|
  {
    && w.ledger.None?
    && (forall u :: u in w.processed <==> Ended(u, queue, ds))
    && w.attempts.Keys !! w.processed
    && (forall u :: u in w.attempts <==> RunsOf(u, queue, ds) > 0 && !Ended(u, queue, ds))
    && (forall u :: u in w.attempts ==> 1 <= w.attempts[u] == RunsOf(u, queue, ds) < maxAttempts)
  }

  lemma StepMeaning(maxAttempts: nat, w: WorkerState, queue: seq<Arrival>, ds: seq<Decision>, a: Arrival)
    requires |queue| == |ds| && MemoryMeans(maxAttempts, w, queue, ds) && !a.env.pipeline.Died?
    ensures var (w', d) := Process(maxAttempts, w, a.job, a.env);
      MemoryMeans(maxAttempts, w', queue + [a], ds + [d])
  {
    var (w', d) := Process(maxAttempts, w, a.job, a.env);
    forall u
      ensures Ended(u, queue + [a], ds + [d]) <==>
              Ended(u, queue, ds) || (a.job.uid == u && d.Ran? && d.ending != EndRetry)
      ensures RunsOf(u, queue + [a], ds + [d]) == RunsOf(u, queue, ds) + if a.job.uid == u && d.Ran? then 1 else 0
    {
      OneMore(u, queue, ds, a, d);
    }
    if a.job.uid !in w.processed {
      MemoryProcess(maxAttempts, w, a.job, a.env);
      RunsUntilEnded(maxAttempts, queue, ds, w, a.job.uid);
    }
  }

  lemma OneMore(u: Uid, queue: seq<Arrival>, ds: seq<Decision>, a: Arrival, d: Decision)
    requires |queue| == |ds|
    ensures Ended(u, queue + [a], ds + [d]) <==>
            Ended(u, queue, ds) || (a.job.uid == u && d.Ran? && d.ending != EndRetry)
    ensures RunsOf(u, queue + [a], ds + [d]) == RunsOf(u, queue, ds) + if a.job.uid == u && d.Ran? then 1 else 0
  {
    EndedSnoc(u, queue + [a], ds + [d]);
    assert (queue + [a])[..|queue|] == queue && (ds + [d])[..|ds|] == ds;
  }

  /** `processed` is exactly the settled and dead-lettered payments; `attempts` is disjoint from it and
      counts the runs so far of every other payment that has run, always below the budget. */
  lemma {:induction false} MemoryMeaning(maxAttempts: nat, queue: seq<Arrival>)
    requires Survived(queue)
    ensures var w, ds := ProcessAll(maxAttempts, Boot(None), queue), Decisions(maxAttempts, Boot(None), queue);
      |ds| == |queue| && MemoryMeans(maxAttempts, w, queue, ds)
    decreases |queue|
  {
    if queue != [] {
      var before, a := queue[..|queue| - 1], queue[|queue| - 1];
      assert queue == before + [a];
      MemoryMeaning(maxAttempts, before);
      ProcessAllSnoc(maxAttempts, Boot(None), before, a);
      StepMeaning(maxAttempts, ProcessAll(maxAttempts, Boot(None), before), before,
                  Decisions(maxAttempts, Boot(None), before), a);
    }
  }

  lemma EndedSnoc(u: Uid, queue: seq<Arrival>, ds: seq<Decision>)
    requires |queue| == |ds| > 0
    ensures var last := |queue| - 1;
      Ended(u, queue, ds) <==>
      Ended(u, queue[..last], ds[..last]) ||
      (queue[last].job.uid == u && ds[last].Ran? && ds[last].ending != EndRetry)
  {
    var last := |queue| - 1;
    if Ended(u, queue[..last], ds[..last]) {
      var i :| 0 <= i < last && queue[..last][i].job.uid == u && ds[..last][i].Ran? && ds[..last][i].ending != EndRetry;
      assert queue[i].job.uid == u && ds[i].Ran? && ds[i].ending != EndRetry;
    }
    if Ended(u, queue, ds) && !(queue[last].job.uid == u && ds[last].Ran? && ds[last].ending != EndRetry) {
      var i :| 0 <= i < |queue| && queue[i].job.uid == u && ds[i].Ran? && ds[i].ending != EndRetry;
      assert queue[..last][i].job.uid == u && ds[..last][i].Ran? && ds[..last][i].ending != EndRetry;
    }
  }

  /** A payment that never ended has no runs unless it is in `attempts`. */
  lemma RunsUntilEnded(maxAttempts: nat, queue: seq<Arrival>, ds: seq<Decision>, w: WorkerState, u: Uid)
    requires |queue| == |ds|
    requires forall v :: v in w.processed <==> Ended(v, queue, ds)
    requires forall v :: v in w.attempts <==> RunsOf(v, queue, ds) > 0 && !Ended(v, queue, ds)
    ensures u !in w.processed && u !in w.attempts ==> RunsOf(u, queue, ds) == 0
  {
  }
}
