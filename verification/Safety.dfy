/** What every interleaving keeps: resolutions, verdicts, signatures, and the attempt log. */
module Safety {
  import opened Types
  import opened Ledger
  import opened Worker
  import opened Protocol

  // The invariant.

  /** Accepted transactions are one per payment and are what the chain holds. */
  ghost predicate ChainOk(s: State) {
    && (forall i :: 0 <= i < |s.confirmed| ==>
          s.confirmed[i].uid in s.chain && s.chain[s.confirmed[i].uid] == s.confirmed[i])
    && (forall i, j :: 0 <= i < j < |s.confirmed| ==> s.confirmed[i].uid != s.confirmed[j].uid)
    && (forall u :: u in s.chain ==> s.chain[u] in s.confirmed && s.chain[u].uid == u && u in s.delivered)
    && (forall i :: 0 <= i < |s.confirmed| ==> s.confirmed[i] in s.submitted)
  }

  ghost predicate SignatureFromChain(chain: map<Uid, Tx>, u: Uid, signature: Option<string>) {
    signature.Some? ==> u in chain && chain[u].signature == signature.value
  }

  ghost predicate HashFromChain(chain: map<Uid, Tx>, u: Uid, hash: Option<Bytes32>) {
    hash.Some? ==> u in chain && chain[u].hash == hash.value
  }

  /** The verdict row says what the chain says. */
  ghost predicate VerdictFromChain(chain: map<Uid, Tx>, u: Uid, v: VerdictRow) {
    u in chain && chain[u] == Tx(u, v.approved, v.reason, v.resolutionHash, chain[u].signature)
    && v.signature == Some(chain[u].signature)
  }

  ghost predicate DbOk(chain: map<Uid, Tx>, db: Db) {
    && (forall u :: u in db.jobs ==>
          SignatureFromChain(chain, u, db.jobs[u].signature) && HashFromChain(chain, u, db.jobs[u].resolutionHash))
    && (forall u :: u in db.verdicts ==> u in db.jobs && VerdictFromChain(chain, u, db.verdicts[u]))
    && (forall u :: EvSettled in EventsOf(db, u) ==> u in db.verdicts)
  }

  /** Executing this statement now keeps `DbOk`. */
  ghost predicate StmtOk(chain: map<Uid, Tx>, db: Db, stmt: Stmt) {
    match stmt
    case UpsertJob(job, _, _, signature, hash) =>
      SignatureFromChain(chain, job.uid, signature) && HashFromChain(chain, job.uid, hash)
    case UpsertVerdict(uid, v) => uid in db.jobs && VerdictFromChain(chain, uid, v)
    case InsertEvent(uid, e) => uid in db.jobs && (e == EvSettled ==> uid in db.verdicts)
  }

  ghost predicate AgentOk(s: State, id: AgentId, a: Agent) {
    && (a.Awaiting? ==> SentTx(a) in s.submitted)
    && (id.Manual? ==> (InPipeline(a) || a.Writing?) && (a.Writing? ==> !a.stage.Starting?))
    && (a.Writing? ==>
          && a.done < |CallOf(a.job, a.stage)|
          && (a.done > 0 ==> a.job.uid in s.db.jobs)
          && (a.stage.Settling? ==>
                && a.job.uid in s.chain
                && s.chain[a.job.uid] == SentTx(a)
                && (a.done == 2 ==> a.job.uid in s.db.verdicts)))
  }

  ghost predicate Inv(s: State) {
    && ChainOk(s)
    && DbOk(s.chain, s.db)
    && (forall id :: id in s.agents ==> AgentOk(s, id, s.agents[id]))
    && (forall stmt :: stmt in s.late ==> StmtOk(s.chain, s.db, stmt))
  }

  // One statement.

  lemma ExecKeepsDb(chain: map<Uid, Tx>, db: Db, stmt: Stmt)
    requires DbOk(chain, db) && StmtOk(chain, db, stmt)
    ensures DbOk(chain, Exec(db, stmt))
  {
    var db' := Exec(db, stmt);
    forall u | EvSettled in EventsOf(db', u)
      ensures u in db'.verdicts
    {
      if !(stmt.InsertEvent? && stmt.uid == u) {
        assert EventsOf(db', u) == EventsOf(db, u);
      } else if stmt.event != EvSettled {
        assert EvSettled in EventsOf(db, u);
      }
    }
  }

  /** Rows are never deleted, and a recorded signature, hash, verdict or event is never lost. */
  ghost predicate Grows(db: Db, db': Db) {
    && db.jobs.Keys <= db'.jobs.Keys && db.verdicts.Keys <= db'.verdicts.Keys
    && (forall u :: u in db.jobs ==>
          && (db.jobs[u].signature.Some? ==> db'.jobs[u].signature.Some?)
          && (db.jobs[u].resolutionHash.Some? ==> db'.jobs[u].resolutionHash.Some?)
          && db.jobs[u].attempts <= db'.jobs[u].attempts)
    && (forall u :: EventsOf(db, u) <= EventsOf(db', u))
  }

  lemma ExecGrows(db: Db, stmt: Stmt)
    ensures Grows(db, Exec(db, stmt))
  {
  }

  lemma StmtStaysOk(chain: map<Uid, Tx>, db: Db, chain': map<Uid, Tx>, db': Db, stmt: Stmt)
    requires StmtOk(chain, db, stmt) && Grows(db, db')
    requires forall u :: u in chain ==> u in chain' && chain'[u] == chain[u]
    ensures StmtOk(chain', db', stmt)
  {
  }

  ghost predicate Extends(s: State, s': State) {
    && (forall u :: u in s.chain ==> u in s'.chain && s'.chain[u] == s.chain[u])
    && s.submitted <= s'.submitted
    && Grows(s.db, s'.db)
  }

  lemma AgentStaysOk(s: State, s': State, id: AgentId, a: Agent)
    requires AgentOk(s, id, a) && Extends(s, s')
    ensures AgentOk(s', id, a)
  {
  }

  /** The next statement of a call in progress may be executed. */
  lemma NextStmtOk(s: State, id: AgentId)
    requires Inv(s) && id in s.agents && s.agents[id].Writing?
    ensures var a := s.agents[id];
      a.done < |CallOf(a.job, a.stage)| && StmtOk(s.chain, s.db, CallOf(a.job, a.stage)[a.done])
  {
    assert AgentOk(s, id, s.agents[id]);
  }

  // One step.

  lemma StepExtends(maxAttempts: nat, s: State, l: Label)
    ensures Extends(s, Step(maxAttempts, s, l))
  {
    match l {
      case Write(id, ok) =>
        if id in s.agents && s.agents[id].Writing? && s.agents[id].done < |CallOf(s.agents[id].job, s.agents[id].stage)| {
          ExecGrows(s.db, CallOf(s.agents[id].job, s.agents[id].stage)[s.agents[id].done]);
        }
      case RunLate(stmt) => ExecGrows(s.db, stmt);
      case _ =>
    }
  }

  lemma ChainStaysOk(s: State, s': State)
    requires ChainOk(s)
    requires s'.chain == s.chain && s'.confirmed == s.confirmed
    requires s.submitted <= s'.submitted && s.delivered <= s'.delivered
    ensures ChainOk(s')
  {
  }

  /** A step that leaves chain, rows and late statements alone and gives one agent a sound state. */
  lemma MoveKeepsInv(s: State, s': State, moved: set<AgentId>)
    requires Inv(s)
    requires s'.chain == s.chain && s'.confirmed == s.confirmed && s'.db == s.db && s'.late == s.late
    requires s.submitted <= s'.submitted && s.delivered <= s'.delivered
    requires forall id :: id in s'.agents && id !in moved ==> id in s.agents && s'.agents[id] == s.agents[id]
    requires forall id :: id in s'.agents && id in moved ==> AgentOk(s', id, s'.agents[id])
    ensures Inv(s')
  {
    ChainStaysOk(s, s');
    forall id | id in s'.agents && id !in moved
      ensures AgentOk(s', id, s'.agents[id])
    {
      AgentStaysOk(s, s', id, s.agents[id]);
    }
  }

  /** A step that executes a sound statement and leaves the chain alone. */
  lemma ExecKeepsInv(s: State, s': State, stmt: Stmt, moved: set<AgentId>)
    requires Inv(s) && StmtOk(s.chain, s.db, stmt)
    requires s'.delivered == s.delivered && s'.chain == s.chain && s'.confirmed == s.confirmed
    requires s'.submitted == s.submitted && s'.db == Exec(s.db, stmt) && s'.late <= s.late
    requires forall id :: id in s'.agents && id !in moved ==> id in s.agents && s'.agents[id] == s.agents[id]
    requires forall id :: id in s'.agents && id in moved ==> AgentOk(s', id, s'.agents[id])
    ensures Inv(s')
  {
    ChainStaysOk(s, s');
    ExecGrows(s.db, stmt);
    ExecKeepsDb(s.chain, s.db, stmt);
    forall id | id in s'.agents && id !in moved
      ensures AgentOk(s', id, s'.agents[id])
    {
      AgentStaysOk(s, s', id, s.agents[id]);
    }
    forall late | late in s'.late
      ensures StmtOk(s'.chain, s'.db, late)
    {
      StmtStaysOk(s.chain, s.db, s'.chain, s'.db, late);
    }
  }

  /** Executing the current statement of a call prepares the next one. */
  lemma WrittenAgentOk(s: State, id: AgentId, s': State)
    requires Inv(s) && id in s.agents && s.agents[id].Writing?
    requires s.agents[id].done + 1 < |CallOf(s.agents[id].job, s.agents[id].stage)|
    requires s'.db == Exec(s.db, CallOf(s.agents[id].job, s.agents[id].stage)[s.agents[id].done])
    requires s'.chain == s.chain && s'.submitted == s.submitted
    ensures AgentOk(s', id, s.agents[id].(done := s.agents[id].done + 1))
  {
    assert AgentOk(s, id, s.agents[id]);
  }

  lemma NextAgentOk(s: State, id: AgentId, ok: bool, s': State)
    requires Inv(s) && id in s.agents && s.agents[id].Writing?
    ensures var next := AfterCall(id, s.agents[id].job, s.agents[id].stage, ok);
      next.Some? ==> AgentOk(s', id, next.value)
  {
    assert AgentOk(s, id, s.agents[id]);
  }

  lemma WriteOkKeepsInv(s: State, id: AgentId)
    requires Inv(s) && id in s.agents && s.agents[id].Writing?
    requires s.agents[id].done < |CallOf(s.agents[id].job, s.agents[id].stage)|
    ensures Inv(WriteStep(s, id, true))
  {
    var a := s.agents[id];
    var stmt := CallOf(a.job, a.stage)[a.done];
    var s' := WriteStep(s, id, true);
    NextStmtOk(s, id);
    NextAgentOk(s, id, true, s');
    if a.done + 1 < |CallOf(a.job, a.stage)| {
      WrittenAgentOk(s, id, s');
    }
    ExecKeepsInv(s, s', stmt, {id});
  }

  lemma WriteFailedKeepsInv(s: State, id: AgentId)
    requires Inv(s) && id in s.agents && s.agents[id].Writing?
    requires s.agents[id].done < |CallOf(s.agents[id].job, s.agents[id].stage)|
    ensures Inv(WriteStep(s, id, false))
  {
    var a := s.agents[id];
    var stmt := CallOf(a.job, a.stage)[a.done];
    var s' := WriteStep(s, id, false);
    NextStmtOk(s, id);
    NextAgentOk(s, id, false, s');
    MoveKeepsInv(s, s'.(late := s.late), {id});
    assert forall late :: late in s'.late ==> late in s.late || late == stmt;
  }

  lemma LandKeepsInv(s: State, tx: Tx)
    requires Inv(s) && tx in s.submitted && tx.uid in s.delivered && tx.uid !in s.chain
    ensures Inv(s.(chain := s.chain[tx.uid := tx], confirmed := s.confirmed + [tx]))
  {
    var s' := s.(chain := s.chain[tx.uid := tx], confirmed := s.confirmed + [tx]);
    LandKeepsChain(s, tx);
    forall id | id in s'.agents
      ensures AgentOk(s', id, s'.agents[id])
    {
      AgentStaysOk(s, s', id, s.agents[id]);
    }
    forall late | late in s'.late
      ensures StmtOk(s'.chain, s'.db, late)
    {
      StmtStaysOk(s.chain, s.db, s'.chain, s'.db, late);
    }
    DbStaysOk(s.chain, s'.chain, s.db);
  }

  lemma LandKeepsChain(s: State, tx: Tx)
    requires ChainOk(s) && tx in s.submitted && tx.uid in s.delivered && tx.uid !in s.chain
    ensures ChainOk(s.(chain := s.chain[tx.uid := tx], confirmed := s.confirmed + [tx]))
  {
    var confirmed := s.confirmed + [tx];
    assert forall i :: 0 <= i < |s.confirmed| ==> confirmed[i] == s.confirmed[i];
    assert confirmed[|s.confirmed|] == tx;
  }

  lemma DbStaysOk(chain: map<Uid, Tx>, chain': map<Uid, Tx>, db: Db)
    requires DbOk(chain, db)
    requires forall u :: u in chain ==> u in chain' && chain'[u] == chain[u]
    ensures DbOk(chain', db)
  {
  }

  predicate MovesAgent(l: Label) {
    !l.Write? && !l.Land? && !l.RunLate? && !l.CrashAll? && !l.Deliver?
  }

  function MovedAgent(l: Label): AgentId
    requires MovesAgent(l)
  {
    match l
    case Request(k, _) => Manual(k)
    case Drop(k) => Manual(k)
    case Eligible(id) => id
    case Evaluate(id, _, _, _) => id
    case Confirm(id) => id
    case Fail(id, _) => id
    case _ => WorkerId
  }

  /** The agent such a step moves is sound afterwards; `Confirm` is where a settlement meets the chain. */
  lemma MovedAgentOk(maxAttempts: nat, s: State, l: Label)
    requires Inv(s) && MovesAgent(l)
    ensures var s', id := Step(maxAttempts, s, l), MovedAgent(l);
      id in s'.agents ==> AgentOk(s', id, s'.agents[id])
  {
    var id := MovedAgent(l);
    if id in s.agents {
      assert AgentOk(s, id, s.agents[id]);
    }
  }

  /** Such a step touches nothing but the agent and, when it submits, the submitted transactions. */
  lemma MoveFrame(maxAttempts: nat, s: State, l: Label)
    requires MovesAgent(l)
    ensures var s' := Step(maxAttempts, s, l);
      && s'.chain == s.chain && s'.confirmed == s.confirmed && s'.delivered == s.delivered
      && s'.db == s.db && s'.late == s.late && s'.orphans == s.orphans
      && s.submitted <= s'.submitted && (!l.Evaluate? ==> s'.submitted == s.submitted)
      && forall id :: id in s'.agents && id != MovedAgent(l) ==> id in s.agents && s'.agents[id] == s.agents[id]
  {
  }

  /** Steps that leave ledger and late statements alone. */
  predicate LeavesLedger(l: Label) {
    !l.Write? && !l.RunLate?
  }

  lemma LedgerUntouched(maxAttempts: nat, s: State, l: Label)
    requires LeavesLedger(l)
    ensures Step(maxAttempts, s, l).db == s.db && Step(maxAttempts, s, l).late == s.late
  {
    if MovesAgent(l) {
      MoveFrame(maxAttempts, s, l);
    }
  }

  lemma MoveStepKeepsInv(maxAttempts: nat, s: State, l: Label)
    requires Inv(s) && MovesAgent(l)
    ensures Inv(Step(maxAttempts, s, l))
  {
    MovedAgentOk(maxAttempts, s, l);
    MoveFrame(maxAttempts, s, l);
    MoveKeepsInv(s, Step(maxAttempts, s, l), {MovedAgent(l)});
  }

  lemma StepKeepsInv(maxAttempts: nat, s: State, l: Label)
    requires Inv(s)
    ensures Inv(Step(maxAttempts, s, l))
  {
    match l {
      case Write(id, ok) =>
        if id in s.agents && s.agents[id].Writing? && s.agents[id].done < |CallOf(s.agents[id].job, s.agents[id].stage)| {
          if ok {
            WriteOkKeepsInv(s, id);
          } else {
            WriteFailedKeepsInv(s, id);
          }
        }
      case Land(tx) =>
        if tx in s.submitted && tx.uid in s.delivered && tx.uid !in s.chain {
          LandKeepsInv(s, tx);
        }
      case RunLate(stmt) =>
        if stmt in s.late {
          ExecKeepsInv(s, Step(maxAttempts, s, l), stmt, {});
        }
      case Deliver(_) => MoveKeepsInv(s, Step(maxAttempts, s, l), {});
      case CrashAll => MoveKeepsInv(s, Step(maxAttempts, s, l), {});
      case _ => MoveStepKeepsInv(maxAttempts, s, l);
    }
  }

  lemma {:induction false} RunKeepsInv(maxAttempts: nat, s: State, ls: seq<Label>)
    requires Inv(s)
    ensures Inv(Run(maxAttempts, s, ls))
    ensures Extends(s, Run(maxAttempts, s, ls))
    decreases |ls|
  {
    if ls != [] {
      StepKeepsInv(maxAttempts, s, ls[0]);
      StepExtends(maxAttempts, s, ls[0]);
      RunKeepsInv(maxAttempts, Step(maxAttempts, s, ls[0]), ls[1..]);
    }
  }

  // The theorems, over every run.

  predicate RecordsSettlement(s: State, id: AgentId, u: Uid) {
    id in s.agents && s.agents[id].Writing? && s.agents[id].stage.Settling? && s.agents[id].job.uid == u
  }

  /** Whoever records settlements of one payment, worker or operators, even at the same time: all of them
      record the same transaction, the one the chain accepted. */
  lemma SettlementsAgree(maxAttempts: nat, ls: seq<Label>, i: AgentId, j: AgentId, u: Uid)
    requires var s := Run(maxAttempts, INIT, ls); RecordsSettlement(s, i, u) && RecordsSettlement(s, j, u)
    ensures var s := Run(maxAttempts, INIT, ls);
      u in s.chain && SentTx(s.agents[i]) == SentTx(s.agents[j]) == s.chain[u]
  {
    RunKeepsInv(maxAttempts, INIT, ls);
    var s := Run(maxAttempts, INIT, ls);
    assert AgentOk(s, i, s.agents[i]) && AgentOk(s, j, s.agents[j]);
  }

  /** A verdict row carries exactly the chain's approval, reason, hash and signature, and a `settled`
      event in the log has a verdict row behind it. */
  lemma VerdictsMatchChain(maxAttempts: nat, ls: seq<Label>, u: Uid)
    ensures var s := Run(maxAttempts, INIT, ls);
      && (u in s.db.verdicts ==>
            u in s.chain && s.db.verdicts[u] == VerdictRow(s.chain[u].approved, s.chain[u].reason, s.chain[u].hash,
                                                           s.db.verdicts[u].checks, Some(s.chain[u].signature)))
      && (EvSettled in EventsOf(s.db, u) ==> u in s.db.verdicts)
  {
    RunKeepsInv(maxAttempts, INIT, ls);
  }

  ghost predicate Permanent(s: State, s': State, u: Uid) {
    u in s.db.jobs ==>
      && u in s'.db.jobs
      && (s.db.jobs[u].signature.Some? ==>
            && s'.db.jobs[u].signature == s.db.jobs[u].signature
            && u in s.chain && s.db.jobs[u].signature == Some(s.chain[u].signature))
      && (s.db.jobs[u].resolutionHash.Some? ==>
            && s'.db.jobs[u].resolutionHash == s.db.jobs[u].resolutionHash
            && u in s.chain && s.db.jobs[u].resolutionHash == Some(s.chain[u].hash))
      && (u in s.db.verdicts ==>
            u in s'.db.verdicts && s'.db.verdicts[u].(checks := []) == s.db.verdicts[u].(checks := []))
  }

  lemma PermanentBetween(s: State, s': State, u: Uid)
    requires DbOk(s.chain, s.db) && DbOk(s'.chain, s'.db) && Extends(s, s')
    ensures Permanent(s, s', u)
  {
  }

  /** A recorded signature or resolution hash never changes, is never erased, and is the chain's; nor does a
      verdict row, apart from its check list, which the chain knows nothing about. */
  lemma RecordsArePermanent(maxAttempts: nat, before: seq<Label>, after: seq<Label>, u: Uid)
    ensures Permanent(Run(maxAttempts, INIT, before), Run(maxAttempts, INIT, before + after), u)
  {
    var s := Run(maxAttempts, INIT, before);
    RunConcat(maxAttempts, INIT, before, after);
    RunKeepsInv(maxAttempts, INIT, before);
    RunKeepsInv(maxAttempts, s, after);
    PermanentBetween(s, Run(maxAttempts, s, after), u);
  }

  // Attempts against the log.

  function Count(log: seq<EventKind>, e: EventKind): nat {
    if log == [] then 0 else Count(log[..|log| - 1], e) + if log[|log| - 1] == e then 1 else 0
  }

  /** Every counted attempt has its `started` event, except those whose event is still to be inserted
      (by the worker, or late) and those whose event will never be issued. */
  ghost predicate AttemptsLogged(s: State, u: Uid) {
    AttemptCount(s.db, u)
    == Count(EventsOf(s.db, u), EvStarted)
       + StartInProgress(s)[u] + s.late[InsertEvent(u, EvStarted)] + s.orphans[u]
  }

  lemma CountSnoc(log: seq<EventKind>, last: EventKind, e: EventKind)
    ensures Count(log + [last], e) == Count(log, e) + if last == e then 1 else 0
  {
    assert (log + [last])[..|log|] == log;
  }

  /** What one statement adds to the two sides. */
  lemma ExecCounts(db: Db, stmt: Stmt, u: Uid)
    ensures AttemptCount(Exec(db, stmt), u) == AttemptCount(db, u) + OrphanOf(stmt)[u]
    ensures Count(EventsOf(Exec(db, stmt), u), EvStarted)
         == Count(EventsOf(db, u), EvStarted) + if stmt == InsertEvent(u, EvStarted) && u in db.jobs then 1 else 0
  {
    ExecEvents(db, stmt, u);
    if stmt.InsertEvent? {
      CountSnoc(EventsOf(db, u), stmt.event, EvStarted);
    }
  }

  lemma ExecEvents(db: Db, stmt: Stmt, u: Uid)
    ensures EventsOf(Exec(db, stmt), u)
         == if stmt.InsertEvent? && stmt.uid == u && u in db.jobs then EventsOf(db, u) + [stmt.event] else EventsOf(db, u)
  {
  }

  /** Only the worker writes a `started` call, so its two statements are what moves the pending event. */
  lemma StartStatements(s: State, id: AgentId)
    requires Inv(s) && id in s.agents && s.agents[id].Writing?
    ensures var a := s.agents[id];
      && a.done < |CallOf(a.job, a.stage)|
      && var stmt := CallOf(a.job, a.stage)[a.done];
      && (OrphanOf(stmt) != multiset{} <==> a.stage.Starting? && a.done == 0)
      && (OrphanOf(stmt) != multiset{} ==> OrphanOf(stmt) == multiset{a.job.uid})
      && (a.stage.Starting? ==> id == WorkerId)
      && (a.stage.Starting? && a.done == 1 <==> stmt == InsertEvent(a.job.uid, EvStarted))
      && (forall u :: stmt == InsertEvent(u, EvStarted) ==> u == a.job.uid && u in s.db.jobs)
      && |CallOf(a.job, a.stage)| >= 2 && (a.stage.Starting? ==> |CallOf(a.job, a.stage)| == 2)
  {
    assert AgentOk(s, id, s.agents[id]);
  }

  lemma WriteKeepsLog(s: State, id: AgentId, ok: bool, u: Uid)
    requires Inv(s) && AttemptsLogged(s, u) && id in s.agents && s.agents[id].Writing?
    requires s.agents[id].done < |CallOf(s.agents[id].job, s.agents[id].stage)|
    ensures AttemptsLogged(WriteStep(s, id, ok), u)
  {
    var a := s.agents[id];
    var stmt := CallOf(a.job, a.stage)[a.done];
    StartStatements(s, id);
    ExecCounts(s.db, stmt, u);
    WriteMovesStart(s, id, ok);
    assert WriteStep(s, id, ok).db == if ok then Exec(s.db, stmt) else s.db;
    assert WriteStep(s, id, ok).late == if ok then s.late else s.late + multiset{stmt};
    assert WriteStep(s, id, ok).orphans == s.orphans;
  }

  lemma WriteMovesStart(s: State, id: AgentId, ok: bool)
    requires Inv(s) && id in s.agents && s.agents[id].Writing?
    requires s.agents[id].done < |CallOf(s.agents[id].job, s.agents[id].stage)|
    ensures var a := s.agents[id];
      StartInProgress(WriteStep(s, id, ok))
      == if !a.stage.Starting? then StartInProgress(s)
         else if ok && a.done == 0 then multiset{a.job.uid} else multiset{}
    ensures s.agents[id].stage.Starting? ==>
      StartInProgress(s) == if s.agents[id].done == 1 then multiset{s.agents[id].job.uid} else multiset{}
  {
    var a := s.agents[id];
    assert AgentOk(s, id, a);
    NextPending(id, a, ok);
    assert id != WorkerId ==> Lookup(WriteStep(s, id, ok).agents, WorkerId) == Lookup(s.agents, WorkerId);
    assert Lookup(WriteStep(s, id, ok).agents, id) == NextAgent(id, a, ok);
  }

  lemma NextPending(id: AgentId, a: Agent, ok: bool)
    requires a.Writing? && a.done < |CallOf(a.job, a.stage)|
    ensures PendingStart(NextAgent(id, a, ok))
         == if a.stage.Starting? && ok && a.done == 0 then multiset{a.job.uid} else multiset{}
    ensures PendingStart(Some(a)) == if a.stage.Starting? && a.done == 1 then multiset{a.job.uid} else multiset{}
  {
  }

  lemma MoveKeepsStart(maxAttempts: nat, s: State, l: Label)
    requires MovesAgent(l)
    ensures StartInProgress(Step(maxAttempts, s, l)) == StartInProgress(s)
    ensures Step(maxAttempts, s, l).db == s.db && Step(maxAttempts, s, l).late == s.late
    ensures Step(maxAttempts, s, l).orphans == s.orphans
  {
  }

  lemma LateCounts(late: multiset<Stmt>, stmt: Stmt, u: Uid)
    requires stmt in late
    ensures (late - multiset{stmt})[InsertEvent(u, EvStarted)]
         == late[InsertEvent(u, EvStarted)] - if stmt == InsertEvent(u, EvStarted) then 1 else 0
  {
  }

  lemma RunLateKeepsLog(maxAttempts: nat, s: State, stmt: Stmt, u: Uid)
    requires Inv(s) && AttemptsLogged(s, u)
    ensures AttemptsLogged(Step(maxAttempts, s, RunLate(stmt)), u)
  {
    if stmt in s.late {
      assert StmtOk(s.chain, s.db, stmt);
      ExecCounts(s.db, stmt, u);
      LateCounts(s.late, stmt, u);
    }
  }

  lemma StepKeepsLog(maxAttempts: nat, s: State, l: Label, u: Uid)
    requires Inv(s) && AttemptsLogged(s, u)
    ensures AttemptsLogged(Step(maxAttempts, s, l), u)
  {
    match l {
      case Write(id, ok) =>
        if id in s.agents && s.agents[id].Writing? && s.agents[id].done < |CallOf(s.agents[id].job, s.agents[id].stage)| {
          WriteKeepsLog(s, id, ok, u);
        }
      case RunLate(stmt) => RunLateKeepsLog(maxAttempts, s, stmt, u);
      case Deliver(_) =>
      case Land(_) =>
      case CrashAll =>
      case _ => MoveKeepsStart(maxAttempts, s, l);
    }
  }

  /** Over every interleaving of writers, faults, late statements and crashes. */
  lemma {:induction false} AttemptsMatchLog(maxAttempts: nat, ls: seq<Label>, u: Uid)
    ensures Inv(Run(maxAttempts, INIT, ls)) && AttemptsLogged(Run(maxAttempts, INIT, ls), u)
    decreases |ls|
  {
    RunKeepsInv(maxAttempts, INIT, ls);
    if ls != [] {
      var last := |ls| - 1;
      assert ls == ls[..last] + [ls[last]] && [ls[last]][1..] == [];
      RunConcat(maxAttempts, INIT, ls[..last], [ls[last]]);
      AttemptsMatchLog(maxAttempts, ls[..last], u);
      var s := Run(maxAttempts, INIT, ls[..last]);
      assert Run(maxAttempts, s, [ls[last]]) == Step(maxAttempts, s, ls[last]);
      StepKeepsLog(maxAttempts, s, ls[last], u);
    }
  }
}
