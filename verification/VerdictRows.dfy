/** When a resolved payment has its verdict row. */
module VerdictRows {
  import opened Types
  import opened Ledger
  import opened Worker
  import opened Protocol
  import opened Refinement
  import Safety

  /** This activity still has the transaction's verdict to record: it waits for the confirmation, or is in
      the first two statements of the settlement record. */
  ghost predicate Holds(a: Agent, tx: Tx) {
    (a.Awaiting? || (a.Writing? && a.stage.Settling? && a.done < 2)) && SentTx(a) == tx
  }

  ghost predicate Held(s: State, tx: Tx) {
    exists id :: id in s.agents && Holds(s.agents[id], tx)
  }

  /** An activity that holds the transaction gives it up: its pipeline fails or times out after sending, one
      of the first two statements of its record is reported as failed, its caller hangs up, or the process
      crashes. */
  ghost predicate Abandons(s: State, l: Label, tx: Tx) {
    match l
    case Fail(id, _) => id in s.agents && s.agents[id].Awaiting? && Holds(s.agents[id], tx)
    case Write(id, ok) => !ok && id in s.agents && s.agents[id].Writing? && Holds(s.agents[id], tx)
    case Drop(k) => Manual(k) in s.agents && Holds(s.agents[Manual(k)], tx)
    case CrashAll => Held(s, tx)
    case _ => false
  }

  /** Somewhere in the run the transaction was abandoned. */
  ghost predicate Abandoned(maxAttempts: nat, ls: seq<Label>, tx: Tx) {
    exists i :: 0 <= i < |ls| && Abandons(Run(maxAttempts, INIT, ls[..i]), ls[i], tx)
  }

  /** What becomes of a holder in one step. */
  lemma HolderMoves(maxAttempts: nat, s: State, l: Label, tx: Tx, id: AgentId)
    requires Safety.Inv(s) && id in s.agents && Holds(s.agents[id], tx)
    ensures var s' := Step(maxAttempts, s, l);
      (id in s'.agents && Holds(s'.agents[id], tx)) || tx.uid in s'.db.verdicts || Abandons(s, l, tx)
  {
    match l {
      case Write(agent, ok) =>
        if agent == id && s.agents[id].Writing? {
          assert Safety.AgentOk(s, id, s.agents[id]);
          WriterMoves(s, id, ok, tx);
        } else {
          OthersWrite(s, agent, ok, id);
        }
      case RunLate(_) =>
      case Deliver(_) =>
      case Land(_) =>
      case CrashAll =>
      case _ =>
        if Safety.MovedAgent(l) == id {
          HolderActs(maxAttempts, s, l, tx, id);
        } else {
          StaysPut(maxAttempts, s, l, id);
        }
    }
  }

  lemma HolderActs(maxAttempts: nat, s: State, l: Label, tx: Tx, id: AgentId)
    requires id in s.agents && Holds(s.agents[id], tx) && Safety.MovesAgent(l) && Safety.MovedAgent(l) == id
    ensures var s' := Step(maxAttempts, s, l); (id in s'.agents && Holds(s'.agents[id], tx)) || Abandons(s, l, tx)
  {
  }

  lemma OthersWrite(s: State, agent: AgentId, ok: bool, id: AgentId)
    requires id in s.agents && (agent != id || !s.agents[id].Writing?)
    ensures var s' := Step(0, s, Write(agent, ok)); id in s'.agents && s'.agents[id] == s.agents[id]
  {
  }

  lemma StaysPut(maxAttempts: nat, s: State, l: Label, id: AgentId)
    requires Safety.MovesAgent(l) && Safety.MovedAgent(l) != id && id in s.agents
    ensures var s' := Step(maxAttempts, s, l); id in s'.agents && s'.agents[id] == s.agents[id]
  {
  }

  lemma WriterMoves(s: State, id: AgentId, ok: bool, tx: Tx)
    requires Safety.Inv(s) && id in s.agents && s.agents[id].Writing? && Holds(s.agents[id], tx)
    requires s.agents[id].done < |CallOf(s.agents[id].job, s.agents[id].stage)|
    ensures var s' := WriteStep(s, id, ok);
      (id in s'.agents && Holds(s'.agents[id], tx)) || tx.uid in s'.db.verdicts || !ok
  {
    assert Safety.AgentOk(s, id, s.agents[id]);
  }

  /** Nothing is submitted by other means than an activity that then holds it. */
  lemma SubmittedBy(maxAttempts: nat, s: State, l: Label, tx: Tx)
    requires tx in Step(maxAttempts, s, l).submitted && tx !in s.submitted
    ensures Held(Step(maxAttempts, s, l), tx)
  {
    assert l.Evaluate?;
    assert Holds(Step(maxAttempts, s, l).agents[l.id], tx);
  }

  lemma StepHolds(maxAttempts: nat, s: State, l: Label, tx: Tx)
    requires Safety.Inv(s) && (tx in s.submitted ==> Held(s, tx) || tx.uid in s.db.verdicts)
    ensures var s' := Step(maxAttempts, s, l);
      tx in s'.submitted ==> Held(s', tx) || tx.uid in s'.db.verdicts || Abandons(s, l, tx)
  {
    var s' := Step(maxAttempts, s, l);
    Safety.StepExtends(maxAttempts, s, l);
    if tx in s'.submitted && tx !in s.submitted {
      SubmittedBy(maxAttempts, s, l, tx);
    } else if tx in s.submitted && tx.uid !in s.db.verdicts {
      var id :| id in s.agents && Holds(s.agents[id], tx);
      HolderMoves(maxAttempts, s, l, tx, id);
    }
  }

  /** A submitted transaction is still held by an activity, or its payment has a verdict row, or it was
      abandoned. */
  ghost predicate Accounted(maxAttempts: nat, ls: seq<Label>, tx: Tx) {
    var s := Run(maxAttempts, INIT, ls);
    tx in s.submitted ==> Held(s, tx) || tx.uid in s.db.verdicts || Abandoned(maxAttempts, ls, tx)
  }

  lemma NextAccounted(maxAttempts: nat, ls: seq<Label>, tx: Tx)
    requires ls != [] && Accounted(maxAttempts, ls[..|ls| - 1], tx)
    ensures Accounted(maxAttempts, ls, tx)
  {
    var last := |ls| - 1;
    var s := Run(maxAttempts, INIT, ls[..last]);
    LastStep(maxAttempts, ls);
    Safety.RunKeepsInv(maxAttempts, INIT, ls[..last]);
    if Abandoned(maxAttempts, ls[..last], tx) {
      AbandonedBefore(maxAttempts, ls, tx);
    } else {
      StepHolds(maxAttempts, s, ls[last], tx);
      if Abandons(s, ls[last], tx) {
        assert Abandons(Run(maxAttempts, INIT, ls[..last]), ls[last], tx);
      }
    }
  }

  lemma {:induction false} EverySubmissionAccounted(maxAttempts: nat, ls: seq<Label>, tx: Tx)
    ensures Accounted(maxAttempts, ls, tx)
    decreases |ls|
  {
    if ls != [] {
      EverySubmissionAccounted(maxAttempts, ls[..|ls| - 1], tx);
      NextAccounted(maxAttempts, ls, tx);
    }
  }

  lemma AbandonedBefore(maxAttempts: nat, ls: seq<Label>, tx: Tx)
    requires ls != [] && Abandoned(maxAttempts, ls[..|ls| - 1], tx)
    ensures Abandoned(maxAttempts, ls, tx)
  {
    var before := ls[..|ls| - 1];
    var i :| 0 <= i < |before| && Abandons(Run(maxAttempts, INIT, before[..i]), before[i], tx);
    assert before[..i] == ls[..i] && before[i] == ls[i];
  }

  lemma LastStep(maxAttempts: nat, ls: seq<Label>)
    requires ls != []
    ensures Run(maxAttempts, INIT, ls)
         == Step(maxAttempts, Run(maxAttempts, INIT, ls[..|ls| - 1]), ls[|ls| - 1])
  {
    var before, l := ls[..|ls| - 1], ls[|ls| - 1];
    assert ls == before + [l] && [l][1..] == [];
    RunConcat(maxAttempts, INIT, before, [l]);
  }

  /** So a resolved payment lacks its verdict row only while an activity still holds the resolving
      transaction, or if such an activity abandoned it. */
  lemma ResolvedHasVerdictUnlessAbandoned(maxAttempts: nat, ls: seq<Label>, u: Uid)
    requires var s := Run(maxAttempts, INIT, ls); u in s.chain && u !in s.db.verdicts
    ensures var s := Run(maxAttempts, INIT, ls);
      Held(s, s.chain[u]) || Abandoned(maxAttempts, ls, s.chain[u])
  {
    Safety.RunKeepsInv(maxAttempts, INIT, ls);
    var s := Run(maxAttempts, INIT, ls);
    EverySubmissionAccounted(maxAttempts, ls, s.chain[u]);
  }

  // The same from the side of the ledger.

  /** The second statement of a settlement record takes effect, at once or late. */
  ghost predicate Records(s: State, l: Label, u: Uid) {
    match l
    case Write(id, ok) =>
      && ok && id in s.agents && s.agents[id].Writing? && s.agents[id].stage.Settling?
      && s.agents[id].done == 1 && s.agents[id].job.uid == u
    case RunLate(stmt) => stmt.UpsertVerdict? && stmt.uid == u && stmt in s.late
    case _ => false
  }

  lemma WriteRecords(s: State, id: AgentId, ok: bool, u: Uid)
    requires Safety.Inv(s) && id in s.agents && s.agents[id].Writing?
    requires s.agents[id].done < |CallOf(s.agents[id].job, s.agents[id].stage)|
    ensures u in WriteStep(s, id, ok).db.verdicts <==> u in s.db.verdicts || Records(s, Write(id, ok), u)
  {
    var a := s.agents[id];
    assert Safety.AgentOk(s, id, a);
    VerdictStatement(a.job, a.stage, a.done);
    VerdictTakesEffect(s.db, CallOf(a.job, a.stage)[a.done], u);
  }

  lemma VerdictStatement(job: EvaluationJob, stage: Stage, done: nat)
    requires done < |CallOf(job, stage)|
    ensures var stmt := CallOf(job, stage)[done];
      (stmt.UpsertVerdict? <==> stage.Settling? && done == 1) && StmtUid(stmt) == job.uid
  {
  }

  lemma VerdictTakesEffect(db: Db, stmt: Stmt, u: Uid)
    ensures u in Exec(db, stmt).verdicts <==>
            u in db.verdicts || (stmt.UpsertVerdict? && stmt.uid == u && u in db.jobs)
  {
  }

  lemma StepRecords(maxAttempts: nat, s: State, l: Label, u: Uid)
    requires Safety.Inv(s)
    ensures u in Step(maxAttempts, s, l).db.verdicts <==> u in s.db.verdicts || Records(s, l, u)
  {
    if l.Write? {
      if l.id in s.agents && s.agents[l.id].Writing? {
        assert Safety.AgentOk(s, l.id, s.agents[l.id]);
        WriteRecords(s, l.id, l.ok, u);
      }
    } else if l.RunLate? {
      if l.stmt in s.late {
        assert Safety.StmtOk(s.chain, s.db, l.stmt);
        VerdictTakesEffect(s.db, l.stmt, u);
      }
    } else {
      Safety.LedgerUntouched(maxAttempts, s, l);
    }
  }

  ghost predicate Recorded(maxAttempts: nat, ls: seq<Label>, u: Uid) {
    exists i :: 0 <= i < |ls| && Records(Run(maxAttempts, INIT, ls[..i]), ls[i], u)
  }

  /** In every run, a payment has its verdict row if and only if the second statement of some settlement
      record for it has taken effect, whatever happened to the other statements. */
  lemma {:induction false} VerdictIffRecorded(maxAttempts: nat, ls: seq<Label>, u: Uid)
    ensures u in Run(maxAttempts, INIT, ls).db.verdicts <==> Recorded(maxAttempts, ls, u)
    decreases |ls|
  {
    if ls != [] {
      var last := |ls| - 1;
      var before := ls[..last];
      VerdictIffRecorded(maxAttempts, before, u);
      LastStep(maxAttempts, ls);
      Safety.RunKeepsInv(maxAttempts, INIT, before);
      StepRecords(maxAttempts, Run(maxAttempts, INIT, before), ls[last], u);
      RecordedSnoc(maxAttempts, ls, u);
    }
  }

  lemma RecordedSnoc(maxAttempts: nat, ls: seq<Label>, u: Uid)
    requires ls != []
    ensures var last := |ls| - 1;
      Recorded(maxAttempts, ls, u) <==>
      Recorded(maxAttempts, ls[..last], u) || Records(Run(maxAttempts, INIT, ls[..last]), ls[last], u)
  {
    var last := |ls| - 1;
    var before := ls[..last];
    if Recorded(maxAttempts, before, u) {
      var i :| 0 <= i < last && Records(Run(maxAttempts, INIT, before[..i]), before[i], u);
      assert before[..i] == ls[..i] && before[i] == ls[i];
    }
    if Recorded(maxAttempts, ls, u) && !Records(Run(maxAttempts, INIT, before), ls[last], u) {
      var i :| 0 <= i < |ls| && Records(Run(maxAttempts, INIT, ls[..i]), ls[i], u);
      assert before[..i] == ls[..i] && before[i] == ls[i];
    }
  }

  // And in terms of what the activities get to see.

  /** An activity for this payment sees its transaction confirmed before its pipeline fails or times out. */
  ghost predicate Confirms(s: State, l: Label, u: Uid) {
    && l.Confirm? && l.id in s.agents && s.agents[l.id].Awaiting? && s.agents[l.id].job.uid == u
    && SentTx(s.agents[l.id]) in s.confirmed
  }

  ghost predicate Confirmed(maxAttempts: nat, ls: seq<Label>, u: Uid) {
    exists i :: 0 <= i < |ls| && Confirms(Run(maxAttempts, INIT, ls[..i]), ls[i], u)
  }

  predicate IsRecording(a: Agent, u: Uid) {
    a.Writing? && a.stage.Settling? && a.done < 2 && a.job.uid == u
  }

  /** Somebody is in the first two statements of a settlement record for the payment. */
  ghost predicate Recording(s: State, u: Uid) {
    exists id :: id in s.agents && IsRecording(s.agents[id], u)
  }

  /** As long as nothing fails, a confirmation leads to a verdict row, and nothing else does. */
  ghost predicate RowFollows(s: State, u: Uid, confirmed: bool) {
    s.late == multiset{} && (confirmed <==> u in s.db.verdicts || Recording(s, u))
  }

  lemma WriteFollows(s: State, id: AgentId, u: Uid, confirmed: bool)
    requires Safety.Inv(s) && RowFollows(s, u, confirmed) && id in s.agents && s.agents[id].Writing?
    requires s.agents[id].done < |CallOf(s.agents[id].job, s.agents[id].stage)|
    ensures RowFollows(WriteStep(s, id, true), u, confirmed)
  {
    var s' := WriteStep(s, id, true);
    WriteRecords(s, id, true, u);
    WriterGoesOn(s, id, u);
    if Recording(s, u) {
      var other :| other in s.agents && IsRecording(s.agents[other], u);
      if other != id {
        assert other in s'.agents && s'.agents[other] == s.agents[other];
      }
    }
    if Recording(s', u) {
      var other :| other in s'.agents && IsRecording(s'.agents[other], u);
      if other != id {
        assert other in s.agents && s'.agents[other] == s.agents[other];
      }
    }
  }

  /** A recorder stays one or has recorded; nobody becomes one by writing. */
  lemma WriterGoesOn(s: State, id: AgentId, u: Uid)
    requires id in s.agents && s.agents[id].Writing?
    requires s.agents[id].done < |CallOf(s.agents[id].job, s.agents[id].stage)|
    ensures var s' := WriteStep(s, id, true);
      && (id in s'.agents && IsRecording(s'.agents[id], u) ==> IsRecording(s.agents[id], u))
      && (IsRecording(s.agents[id], u) ==>
            (id in s'.agents && IsRecording(s'.agents[id], u)) || Records(s, Write(id, true), u))
  {
  }

  /** What a step of one agent outside the ledger does to its recording. */
  lemma MoverRecords(maxAttempts: nat, s: State, l: Label, u: Uid)
    requires Faultless(l) && Safety.MovesAgent(l)
    ensures var s', id := Step(maxAttempts, s, l), Safety.MovedAgent(l);
      id in s'.agents && IsRecording(s'.agents[id], u) <==>
      (id in s.agents && IsRecording(s.agents[id], u)) || Confirms(s, l, u)
  {
  }

  lemma MoveFollows(maxAttempts: nat, s: State, l: Label, u: Uid, confirmed: bool)
    requires Faultless(l) && Safety.MovesAgent(l) && RowFollows(s, u, confirmed)
    ensures RowFollows(Step(maxAttempts, s, l), u, confirmed || Confirms(s, l, u))
  {
    var s', id := Step(maxAttempts, s, l), Safety.MovedAgent(l);
    Safety.MoveFrame(maxAttempts, s, l);
    MoverRecords(maxAttempts, s, l, u);
    if Recording(s, u) {
      var other :| other in s.agents && IsRecording(s.agents[other], u);
      if other != id {
        StaysPut(maxAttempts, s, l, other);
      }
    }
    if Recording(s', u) && !Confirms(s, l, u) {
      var other :| other in s'.agents && IsRecording(s'.agents[other], u);
      assert other in s.agents && IsRecording(s.agents[other], u);
    }
  }

  lemma StepFollows(maxAttempts: nat, s: State, l: Label, u: Uid, confirmed: bool)
    requires Safety.Inv(s) && Faultless(l) && RowFollows(s, u, confirmed)
    ensures RowFollows(Step(maxAttempts, s, l), u, confirmed || Confirms(s, l, u))
  {
    if l.Write? {
      if l.id in s.agents && s.agents[l.id].Writing? {
        assert Safety.AgentOk(s, l.id, s.agents[l.id]);
        WriteFollows(s, l.id, u, confirmed);
      }
    } else if Safety.MovesAgent(l) {
      MoveFollows(maxAttempts, s, l, u, confirmed);
    } else {
      assert l.Deliver? || l.Land?;
      var s' := Step(maxAttempts, s, l);
      assert s'.agents == s.agents && s'.db == s.db && s'.late == s.late;
      assert Recording(s', u) == Recording(s, u);
    }
  }

  lemma ConfirmedSnoc(maxAttempts: nat, ls: seq<Label>, u: Uid)
    requires ls != []
    ensures var last := |ls| - 1;
      Confirmed(maxAttempts, ls, u) <==>
      Confirmed(maxAttempts, ls[..last], u) || Confirms(Run(maxAttempts, INIT, ls[..last]), ls[last], u)
  {
    var last := |ls| - 1;
    var before := ls[..last];
    if Confirmed(maxAttempts, before, u) {
      var i :| 0 <= i < last && Confirms(Run(maxAttempts, INIT, before[..i]), before[i], u);
      assert before[..i] == ls[..i] && before[i] == ls[i];
    }
    if Confirmed(maxAttempts, ls, u) && !Confirms(Run(maxAttempts, INIT, before), ls[last], u) {
      var i :| 0 <= i < |ls| && Confirms(Run(maxAttempts, INIT, ls[..i]), ls[i], u);
      assert before[..i] == ls[..i] && before[i] == ls[i];
    }
  }

  lemma {:induction false} RunFollows(maxAttempts: nat, ls: seq<Label>, u: Uid)
    requires forall l :: l in ls ==> Faultless(l)
    ensures RowFollows(Run(maxAttempts, INIT, ls), u, Confirmed(maxAttempts, ls, u))
    decreases |ls|
  {
    if ls != [] {
      var last := |ls| - 1;
      var s := Run(maxAttempts, INIT, ls[..last]);
      RunFollows(maxAttempts, ls[..last], u);
      Safety.RunKeepsInv(maxAttempts, INIT, ls[..last]);
      StepFollows(maxAttempts, s, ls[last], u, Confirmed(maxAttempts, ls[..last], u));
      LastStep(maxAttempts, ls);
      ConfirmedSnoc(maxAttempts, ls, u);
    }
  }

  /** In every run in which no ledger call fails, no caller hangs up and nothing crashes, and in which nobody is
      just recording it: a payment has its verdict row if and only if some activity saw its transaction confirmed
      before its pipeline failed or timed out. The chain may have resolved it all the same. */
  lemma VerdictIffConfirmed(maxAttempts: nat, ls: seq<Label>, u: Uid)
    requires (forall l :: l in ls ==> Faultless(l)) && !Recording(Run(maxAttempts, INIT, ls), u)
    ensures u in Run(maxAttempts, INIT, ls).db.verdicts <==> Confirmed(maxAttempts, ls, u)
  {
    RunFollows(maxAttempts, ls, u);
  }
}
