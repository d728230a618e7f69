/** The fault budget over every interleaving: statements that were reported as failed may execute at any
    later time and open a closed payment again. */
module LateBudget {
  import opened Types
  import opened Ledger
  import opened Worker
  import opened Protocol
  import Safety

  // What is counted.

  function WorkerOf(s: State): Option<Agent> {
    Lookup(s.agents, WorkerId)
  }

  predicate OnPayment(w: Option<Agent>, u: Uid) {
    w.Some? && w.value.job.uid == u
  }

  /** The worker enters the pipeline for this payment. */
  predicate Enters(maxAttempts: nat, s: State, l: Label, u: Uid) {
    && OnPayment(WorkerOf(s), u) && !WorkerOf(s).value.Checking?
    && var w' := WorkerOf(Step(maxAttempts, s, l)); w'.Some? && w'.value.Checking?
  }

  /** The worker's run for this payment meets a failed read, a statement reported as failed, or a crash. */
  predicate Faults(s: State, l: Label, u: Uid) {
    && OnPayment(WorkerOf(s), u)
    && var a := WorkerOf(s).value;
    match l
    case Probe(read) => read == ReadFailed && a.Probing?
    case Count(read) => read == ReadFailed && a.Counting?
    case Write(id, ok) => id == WorkerId && !ok && a.Writing? && a.done < |CallOf(a.job, a.stage)|
    case CrashAll => true
    case _ => false
  }

  /** An upsert that leaves this payment open. */
  predicate Reopens(stmt: Stmt, u: Uid) {
    stmt.UpsertJob? && stmt.job.uid == u && stmt.status != Settled && stmt.status != DeadLetter
  }

  predicate ReopensLate(s: State, l: Label, u: Uid) {
    l.RunLate? && l.stmt in s.late && Reopens(l.stmt, u)
  }

  /** Pipeline runs of the payment, its runs that met a fault, late upserts that left it open; and whether the
      worker's present run has met a fault already. */
  datatype Tally = Tally(runs: nat, faulty: nat, late: nat, tainted: bool)

  const NO_TALLY := Tally(0, 0, 0, false)

  function Observe(maxAttempts: nat, s: State, t: Tally, l: Label, u: Uid): Tally {
    Tally(t.runs + (if Enters(maxAttempts, s, l, u) then 1 else 0),
          t.faulty + (if Faults(s, l, u) && !t.tainted then 1 else 0),
          t.late + (if ReopensLate(s, l, u) then 1 else 0),
          if l.TakeJob? && WorkerId !in s.agents then false else t.tainted || Faults(s, l, u))
  }

  function ObserveAll(maxAttempts: nat, s: State, t: Tally, ls: seq<Label>, u: Uid): Tally
    decreases |ls|
  {
    if ls == [] then t
    else ObserveAll(maxAttempts, Step(maxAttempts, s, ls[0]), Observe(maxAttempts, s, t, ls[0], u), ls[1..], u)
  }

  predicate NoRequestFor(u: Uid, ls: seq<Label>) {
    forall l :: l in ls ==> !(l.Request? && l.job.uid == u)
  }

  // What is held in reserve for runs to come.

  /** What the reserve depends on: the worker, and the payment's attempts and terminality. */
  datatype View = View(worker: Option<Agent>, attempts: nat, terminal: bool)

  function ViewOf(s: State, u: Uid): View {
    View(WorkerOf(s), AttemptCount(s.db, u), IsTerminal(s.db, u))
  }

  /** The retries that the budget leaves. */
  function Retries(maxAttempts: nat, attempts: nat): nat {
    if attempts + 1 < maxAttempts then maxAttempts - 1 - attempts else 0
  }

  function Open(v: View): nat {
    if v.terminal then 0 else 1
  }

  /** The pipeline is still ahead of the worker. */
  predicate BeforeRun(a: Agent) {
    a.Counting? || (a.Writing? && (a.stage.Detecting? || a.stage.Queueing? || a.stage.Starting?))
  }

  /** For a run that has met no fault: this run, the retries after it, and one more if it may leave the
      payment open. */
  function CleanReserve(maxAttempts: nat, v: View, u: Uid): nat {
    var retries := Retries(maxAttempts, v.attempts);
    if !OnPayment(v.worker, u) then retries + Open(v)
    else
      match v.worker.value
      case Probing(_) => retries + Open(v)
      case Writing(_, stage, done) =>
        if stage.Starting? && done > 0 then Retries(maxAttempts + 1, v.attempts) + 1
        else if stage.Settling? || stage.DeadLettering? then retries + if done == 0 then 0 else Open(v)
        else retries + 1
      case Counting(_) => Retries(maxAttempts + 1, v.attempts) + 1
      case _ => retries + if v.worker.value.attempt < maxAttempts then 1 else 0
  }

  /** A run that has met a fault keeps its place, and `extra` for what the fault may bring about. */
  function Reserve(maxAttempts: nat, v: View, tainted: bool, extra: nat, u: Uid): nat {
    if tainted && OnPayment(v.worker, u) && !v.worker.value.Probing?
    then Retries(maxAttempts, v.attempts) + (if BeforeRun(v.worker.value) then 1 else 0) + extra
    else CleanReserve(maxAttempts, v, u)
  }

  /** The upserts leaving the payment open that the run has still to issue. With a budget of at most one
      attempt the last of them cannot be `failed`. */
  function Left(maxAttempts: nat, w: Option<Agent>): nat
    requires w.Some?
  {
    var last := if maxAttempts <= 1 then 0 else 1;
    match w.value
    case Probing(_) => last + 3
    case Writing(_, stage, done) =>
      if stage.Detecting? then last + (if done == 0 then 3 else 2)
      else if stage.Queueing? then last + (if done == 0 then 2 else 1)
      else if stage.Starting? then last + (if done == 0 then 1 else 0)
      else if stage.Failing? && done == 0 then 1 else 0
    case _ => last
  }

  function ExtraFor(maxAttempts: nat, v: View): nat
    requires v.worker.Some?
  {
    Left(maxAttempts, v.worker) + Open(v)
  }

  /** What one fault can cost: its own run, the payment left open, and its late upserts. */
  function PerFault(maxAttempts: nat): nat {
    if maxAttempts <= 1 then 4 else 5
  }

  function FullReserve(maxAttempts: nat, v: View, tainted: bool, u: Uid): nat {
    Reserve(maxAttempts, v, tainted, if v.worker.Some? then ExtraFor(maxAttempts, v) else 0, u)
  }

  /** No manual evaluation of the payment, attempts start at one, and an attempt that is being counted is in
      the row unless the run has met a fault. */
  ghost predicate Sane(s: State, tainted: bool, u: Uid) {
    OnlyWorker(s, u) && SaneView(ViewOf(s, u), tainted, u)
  }

  ghost predicate OnlyWorker(s: State, u: Uid) {
    forall k :: Manual(k) in s.agents ==> s.agents[Manual(k)].job.uid != u
  }

  predicate SaneView(v: View, tainted: bool, u: Uid) {
    OnPayment(v.worker, u) ==>
      var a := v.worker.value;
      && (a.Probing? ==> !tainted)
      && (InPipeline(a) ==> a.attempt >= 1)
      && (!tainted && (a.Counting? || (a.Writing? && a.stage.Starting? && a.done > 0)) ==> v.attempts > 0)
  }

  // One statement of the worker.

  predicate Closing(stage: Stage) {
    stage.Settling? || stage.DeadLettering?
  }

  function Written(v: View, ok: bool): View
    requires v.worker.Some? && v.worker.value.Writing?
  {
    var a := v.worker.value;
    View(NextAgent(WorkerId, a, ok),
         v.attempts + if ok && a.stage.Starting? && a.done == 0 then 1 else 0,
         if ok && a.done == 0 then Closing(a.stage) else v.terminal)
  }

  predicate Entered(v: View, v': View) {
    v.worker.Some? && !v.worker.value.Checking? && v'.worker.Some? && v'.worker.value.Checking?
  }

  /** A statement that succeeds is paid for by the reserve. */
  lemma GoodWritePays(maxAttempts: nat, v: View, tainted: bool, u: Uid)
    requires OnPayment(v.worker, u) && v.worker.value.Writing? && SaneView(v, tainted, u)
    requires v.worker.value.done < |CallOf(v.worker.value.job, v.worker.value.stage)|
    ensures var v' := Written(v, true);
      && SaneView(v', tainted, u) && !Entered(v, v')
      && Reserve(maxAttempts, v', tainted, 1, u) <= Reserve(maxAttempts, v, tainted, 1, u)
      && FullReserve(maxAttempts, v', tainted, u) <= FullReserve(maxAttempts, v, tainted, u)
  {
  }

  /** A statement reported as failed is paid for by the fault, if it is the run's first, and becomes late. */
  lemma FailedWritePays(maxAttempts: nat, v: View, tainted: bool, u: Uid)
    requires OnPayment(v.worker, u) && v.worker.value.Writing? && SaneView(v, tainted, u)
    requires v.worker.value.done < |CallOf(v.worker.value.job, v.worker.value.stage)|
    ensures var v' := Written(v, false);
      var a := v.worker.value;
      var entered := if Entered(v, v') then 1 else 0;
      var late := if Reopens(CallOf(a.job, a.stage)[a.done], u) then 1 else 0;
      && SaneView(v', true, u)
      && entered + Reserve(maxAttempts, v', true, 1, u)
         <= Reserve(maxAttempts, v, tainted, 1, u) + (if tainted then 0 else 2)
      && entered + late + FullReserve(maxAttempts, v', true, u)
         <= FullReserve(maxAttempts, v, tainted, u) + (if tainted then 0 else PerFault(maxAttempts))
  {
  }

  /** A late statement changes row and terminality under the worker's feet. */
  function AfterLate(v: View, stmt: Stmt, u: Uid): View {
    if stmt.UpsertJob? && stmt.job.uid == u
    then View(v.worker, v.attempts + (if stmt.status == Running then 1 else 0), !Reopens(stmt, u))
    else v
  }

  lemma LatePays(maxAttempts: nat, v: View, tainted: bool, stmt: Stmt, u: Uid)
    requires SaneView(v, tainted, u)
    ensures var v' := AfterLate(v, stmt, u);
      var late := if Reopens(stmt, u) then 1 else 0;
      && SaneView(v', tainted, u)
      && Reserve(maxAttempts, v', tainted, 1, u) <= Reserve(maxAttempts, v, tainted, 1, u) + late
      && FullReserve(maxAttempts, v', tainted, u) <= FullReserve(maxAttempts, v, tainted, u) + late
  {
  }

  /** The worker's other steps leave the row alone. */
  function Moved(maxAttempts: nat, v: View, l: Label): Option<Agent>
    requires v.worker.Some?
  {
    var a := v.worker.value;
    match l
    case Probe(read) =>
      if !a.Probing? then v.worker
      else if read == ReadOk && v.terminal then None else Some(Writing(a.job, Detecting, 0))
    case Count(read) =>
      if !a.Counting? then v.worker
      else Some(Checking(a.job, if read == ReadOk && v.attempts > 0 then v.attempts else 1))
    case Fail(_, error) =>
      if !InPipeline(a) then v.worker
      else Some(Writing(a.job, if a.attempt >= maxAttempts then DeadLettering(error) else Failing(error), 0))
    case CrashAll => None
    case _ => v.worker
  }

  predicate IsFault(a: Agent, l: Label) {
    (l == Probe(ReadFailed) && a.Probing?) || (l == Count(ReadFailed) && a.Counting?) || l.CrashAll?
  }

  lemma MovePays(maxAttempts: nat, v: View, tainted: bool, l: Label, u: Uid)
    requires OnPayment(v.worker, u) && SaneView(v, tainted, u)
    requires l.Probe? || l.Count? || l.Fail? || l.CrashAll?
    ensures var v' := v.(worker := Moved(maxAttempts, v, l));
      var fault := IsFault(v.worker.value, l);
      var entered := if Entered(v, v') then 1 else 0;
      && SaneView(v', tainted || fault, u)
      && entered + Reserve(maxAttempts, v', tainted || fault, 1, u)
         <= Reserve(maxAttempts, v, tainted, 1, u) + (if fault && !tainted then 2 else 0)
      && entered + FullReserve(maxAttempts, v', tainted || fault, u)
         <= FullReserve(maxAttempts, v, tainted, u) + (if fault && !tainted then PerFault(maxAttempts) else 0)
  {
  }

  // The same, for steps of the whole system.

  ghost function Pending(late: multiset<Stmt>, u: Uid): nat
    decreases |late|
  {
    if late == multiset{} then 0
    else
      var stmt :| stmt in late;
      (if Reopens(stmt, u) then 1 else 0) + Pending(late - multiset{stmt}, u)
  }

  lemma {:induction false} PendingPick(late: multiset<Stmt>, stmt: Stmt, u: Uid)
    requires stmt in late
    ensures Pending(late, u) == (if Reopens(stmt, u) then 1 else 0) + Pending(late - multiset{stmt}, u)
    decreases |late|
  {
    var other :| other in late && Pending(late, u)
              == (if Reopens(other, u) then 1 else 0) + Pending(late - multiset{other}, u);
    if other != stmt {
      PendingPick(late - multiset{other}, stmt, u);
      PendingPick(late - multiset{stmt}, other, u);
      assert late - multiset{other} - multiset{stmt} == late - multiset{stmt} - multiset{other};
    }
  }

  lemma PendingAdd(late: multiset<Stmt>, stmt: Stmt, u: Uid)
    ensures Pending(late + multiset{stmt}, u) == Pending(late, u) + if Reopens(stmt, u) then 1 else 0
  {
    PendingPick(late + multiset{stmt}, stmt, u);
    assert late + multiset{stmt} - multiset{stmt} == late;
  }

  /** Everything held against one payment: the tally so far and what is in reserve. */
  function Owed(maxAttempts: nat, s: State, t: Tally, u: Uid): nat {
    t.runs + Reserve(maxAttempts, ViewOf(s, u), t.tainted, 1, u)
  }

  ghost function OwedInFull(maxAttempts: nat, s: State, t: Tally, u: Uid): nat {
    t.runs + FullReserve(maxAttempts, ViewOf(s, u), t.tainted, u) + Pending(s.late, u)
  }

  ghost predicate Pays(maxAttempts: nat, s: State, t: Tally, s': State, t': Tally, u: Uid) {
    && Sane(s', t'.tainted, u)
    && t.faulty <= t'.faulty && t.late <= t'.late
    && Owed(maxAttempts, s', t', u)
       <= Owed(maxAttempts, s, t, u) + 2 * (t'.faulty - t.faulty) + (t'.late - t.late)
    && OwedInFull(maxAttempts, s', t', u)
       <= OwedInFull(maxAttempts, s, t, u) + PerFault(maxAttempts) * (t'.faulty - t.faulty)
  }

  lemma StatementPayment(job: EvaluationJob, stage: Stage, done: nat)
    requires done < |CallOf(job, stage)|
    ensures var stmt := CallOf(job, stage)[done];
      && StmtUid(stmt) == job.uid
      && (stmt.UpsertJob? <==> done == 0)
      && (stmt.UpsertJob? ==> (stmt.status == Running <==> stage.Starting?)
                              && (stmt.status == Settled || stmt.status == DeadLetter <==> Closing(stage)))
  {
  }

  lemma ExecView(db: Db, stmt: Stmt, u: Uid)
    ensures AttemptCount(Exec(db, stmt), u)
         == AttemptCount(db, u)
            + if stmt.UpsertJob? && stmt.job.uid == u && stmt.status == Running then 1 else 0
    ensures IsTerminal(Exec(db, stmt), u)
         == if stmt.UpsertJob? && stmt.job.uid == u then stmt.status == Settled || stmt.status == DeadLetter
            else IsTerminal(db, u)
  {
  }

  /** The worker's statement, seen through the view. */
  lemma WorkerWrites(s: State, ok: bool, u: Uid)
    requires OnPayment(WorkerOf(s), u) && WorkerOf(s).value.Writing?
    requires WorkerOf(s).value.done < |CallOf(WorkerOf(s).value.job, WorkerOf(s).value.stage)|
    ensures ViewOf(WriteStep(s, WorkerId, ok), u) == Written(ViewOf(s, u), ok)
  {
    var a := WorkerOf(s).value;
    StatementPayment(a.job, a.stage, a.done);
    ExecView(s.db, CallOf(a.job, a.stage)[a.done], u);
  }

  /** Writes for other payments do not show. */
  lemma OthersWrite(s: State, id: AgentId, ok: bool, u: Uid)
    requires id in s.agents && s.agents[id].Writing? && s.agents[id].job.uid != u
    requires s.agents[id].done < |CallOf(s.agents[id].job, s.agents[id].stage)|
    ensures var s' := WriteStep(s, id, ok);
      && ViewOf(s', u).attempts == AttemptCount(s.db, u) && ViewOf(s', u).terminal == IsTerminal(s.db, u)
      && (id != WorkerId ==> WorkerOf(s') == WorkerOf(s))
      && (id == WorkerId ==> !OnPayment(WorkerOf(s'), u))
      && Pending(s'.late, u) == Pending(s.late, u)
  {
    var a := s.agents[id];
    var stmt := CallOf(a.job, a.stage)[a.done];
    StatementPayment(a.job, a.stage, a.done);
    ExecView(s.db, stmt, u);
    PendingAdd(s.late, stmt, u);
  }

  lemma KeepsOnlyWorker(maxAttempts: nat, s: State, l: Label, u: Uid)
    requires OnlyWorker(s, u) && !(l.Request? && l.job.uid == u)
    ensures OnlyWorker(Step(maxAttempts, s, l), u)
  {
    if Safety.MovesAgent(l) {
      Safety.MoveFrame(maxAttempts, s, l);
      MovedJob(maxAttempts, s, l, u);
    }
  }

  lemma MovedJob(maxAttempts: nat, s: State, l: Label, u: Uid)
    requires OnlyWorker(s, u) && !(l.Request? && l.job.uid == u) && Safety.MovesAgent(l)
    ensures var id, s' := Safety.MovedAgent(l), Step(maxAttempts, s, l);
      id.Manual? && id in s'.agents ==> s'.agents[id].job.uid != u
  {
  }

  /** What a step observed through views has to pay. */
  lemma PaysByView(maxAttempts: nat, s: State, t: Tally, s': State, t': Tally, u: Uid, v: View, v': View)
    requires v == ViewOf(s, u) && v' == ViewOf(s', u) && OnlyWorker(s', u) && SaneView(v', t'.tainted, u)
    requires t.runs <= t'.runs && t.faulty <= t'.faulty <= t.faulty + 1 && t.late <= t'.late
    requires (t'.runs - t.runs) + Reserve(maxAttempts, v', t'.tainted, 1, u)
          <= Reserve(maxAttempts, v, t.tainted, 1, u) + (if t'.faulty > t.faulty then 2 else 0) + (t'.late - t.late)
    requires (t'.runs - t.runs) + FullReserve(maxAttempts, v', t'.tainted, u) + Pending(s'.late, u)
          <= FullReserve(maxAttempts, v, t.tainted, u) + Pending(s.late, u)
             + (if t'.faulty > t.faulty then PerFault(maxAttempts) else 0)
    ensures Pays(maxAttempts, s, t, s', t', u)
  {
  }

  /** A write by someone who is not at work on this payment. */
  lemma OthersWritePays(maxAttempts: nat, s: State, t: Tally, id: AgentId, ok: bool, u: Uid)
    requires Sane(s, t.tainted, u) && id in s.agents && s.agents[id].Writing? && s.agents[id].job.uid != u
    requires s.agents[id].done < |CallOf(s.agents[id].job, s.agents[id].stage)|
    ensures var l := Write(id, ok);
      Pays(maxAttempts, s, t, Step(maxAttempts, s, l), Observe(maxAttempts, s, t, l, u), u)
  {
    var l := Write(id, ok);
    var s' := WriteStep(s, id, ok);
    OthersWrite(s, id, ok, u);
    KeepsOnlyWorker(maxAttempts, s, l, u);
    SameOrAway(maxAttempts, ViewOf(s, u), ViewOf(s', u), t.tainted, u);
    PaysByView(maxAttempts, s, t, s', Observe(maxAttempts, s, t, l, u), u, ViewOf(s, u), ViewOf(s', u));
  }

  /** The worker stays where it is, or moves among other payments. */
  lemma SameOrAway(maxAttempts: nat, v: View, v': View, tainted: bool, u: Uid)
    requires v'.attempts == v.attempts && v'.terminal == v.terminal && SaneView(v, tainted, u)
    requires v'.worker == v.worker || (!OnPayment(v.worker, u) && !OnPayment(v'.worker, u))
    ensures SaneView(v', tainted, u)
    ensures Reserve(maxAttempts, v', tainted, 1, u) == Reserve(maxAttempts, v, tainted, 1, u)
    ensures FullReserve(maxAttempts, v', tainted, u) == FullReserve(maxAttempts, v, tainted, u)
  {
  }

  lemma WorkerWritePays(maxAttempts: nat, s: State, t: Tally, ok: bool, u: Uid)
    requires Sane(s, t.tainted, u) && OnPayment(WorkerOf(s), u) && WorkerOf(s).value.Writing?
    requires WorkerOf(s).value.done < |CallOf(WorkerOf(s).value.job, WorkerOf(s).value.stage)|
    ensures var l := Write(WorkerId, ok);
      Pays(maxAttempts, s, t, Step(maxAttempts, s, l), Observe(maxAttempts, s, t, l, u), u)
  {
    WorkerWrites(s, ok, u);
    KeepsOnlyWorker(maxAttempts, s, Write(WorkerId, ok), u);
    if ok {
      GoodStepPays(maxAttempts, s, t, u);
    } else {
      FailedStepPays(maxAttempts, s, t, u);
    }
  }

  lemma GoodStepPays(maxAttempts: nat, s: State, t: Tally, u: Uid)
    requires Sane(s, t.tainted, u) && OnPayment(WorkerOf(s), u) && WorkerOf(s).value.Writing?
    requires WorkerOf(s).value.done < |CallOf(WorkerOf(s).value.job, WorkerOf(s).value.stage)|
    requires var s' := WriteStep(s, WorkerId, true);
      ViewOf(s', u) == Written(ViewOf(s, u), true) && OnlyWorker(s', u)
    ensures Pays(maxAttempts, s, t, WriteStep(s, WorkerId, true), Observe(maxAttempts, s, t, Write(WorkerId, true), u), u)
  {
    var l, v := Write(WorkerId, true), ViewOf(s, u);
    GoodWritePays(maxAttempts, v, t.tainted, u);
    PaysByView(maxAttempts, s, t, WriteStep(s, WorkerId, true), Observe(maxAttempts, s, t, l, u), u, v, Written(v, true));
  }

  lemma FailedStepPays(maxAttempts: nat, s: State, t: Tally, u: Uid)
    requires Sane(s, t.tainted, u) && OnPayment(WorkerOf(s), u) && WorkerOf(s).value.Writing?
    requires WorkerOf(s).value.done < |CallOf(WorkerOf(s).value.job, WorkerOf(s).value.stage)|
    requires var s' := WriteStep(s, WorkerId, false);
      ViewOf(s', u) == Written(ViewOf(s, u), false) && OnlyWorker(s', u)
    ensures Pays(maxAttempts, s, t, WriteStep(s, WorkerId, false), Observe(maxAttempts, s, t, Write(WorkerId, false), u), u)
  {
    var a, l, v := WorkerOf(s).value, Write(WorkerId, false), ViewOf(s, u);
    FailedWritePays(maxAttempts, v, t.tainted, u);
    PendingAdd(s.late, CallOf(a.job, a.stage)[a.done], u);
    PaysByView(maxAttempts, s, t, WriteStep(s, WorkerId, false), Observe(maxAttempts, s, t, l, u), u, v, Written(v, false));
  }

  lemma WriteStepPays(maxAttempts: nat, s: State, t: Tally, id: AgentId, ok: bool, u: Uid)
    requires Safety.Inv(s) && Sane(s, t.tainted, u)
    ensures var l := Write(id, ok);
      Pays(maxAttempts, s, t, Step(maxAttempts, s, l), Observe(maxAttempts, s, t, l, u), u)
  {
    if id in s.agents && s.agents[id].Writing? {
      assert Safety.AgentOk(s, id, s.agents[id]);
      if s.agents[id].job.uid != u {
        OthersWritePays(maxAttempts, s, t, id, ok, u);
      } else {
        assert id == WorkerId;
        WorkerWritePays(maxAttempts, s, t, ok, u);
      }
    }
  }

  lemma RunLatePays(maxAttempts: nat, s: State, t: Tally, stmt: Stmt, u: Uid)
    requires Sane(s, t.tainted, u)
    ensures var l := RunLate(stmt);
      Pays(maxAttempts, s, t, Step(maxAttempts, s, l), Observe(maxAttempts, s, t, l, u), u)
  {
    var l := RunLate(stmt);
    var s' := Step(maxAttempts, s, l);
    if stmt in s.late {
      ExecView(s.db, stmt, u);
      LatePays(maxAttempts, ViewOf(s, u), t.tainted, stmt, u);
      PendingPick(s.late, stmt, u);
      PaysByView(maxAttempts, s, t, s', Observe(maxAttempts, s, t, l, u), u, ViewOf(s, u),
                 AfterLate(ViewOf(s, u), stmt, u));
    }
  }

  lemma LedgerLeft(maxAttempts: nat, s: State, l: Label, u: Uid)
    requires Safety.LeavesLedger(l)
    ensures var s' := Step(maxAttempts, s, l);
      s'.late == s.late && ViewOf(s', u) == ViewOf(s, u).(worker := WorkerOf(s'))
  {
    Safety.LedgerUntouched(maxAttempts, s, l);
  }

  /** The worker is on another payment or on none; at most it takes up this one. */
  lemma ElsewherePays(maxAttempts: nat, s: State, t: Tally, l: Label, u: Uid)
    requires Sane(s, t.tainted, u) && !(l.Request? && l.job.uid == u)
    requires Safety.LeavesLedger(l) && !OnPayment(WorkerOf(s), u)
    ensures Pays(maxAttempts, s, t, Step(maxAttempts, s, l), Observe(maxAttempts, s, t, l, u), u)
  {
    var s' := Step(maxAttempts, s, l);
    LedgerLeft(maxAttempts, s, l, u);
    KeepsOnlyWorker(maxAttempts, s, l, u);
    FromElsewhere(maxAttempts, s, l, u);
    PaysByView(maxAttempts, s, t, s', Observe(maxAttempts, s, t, l, u), u, ViewOf(s, u), ViewOf(s', u));
  }

  lemma FromElsewhere(maxAttempts: nat, s: State, l: Label, u: Uid)
    requires Safety.LeavesLedger(l) && !OnPayment(WorkerOf(s), u)
    ensures var w' := WorkerOf(Step(maxAttempts, s, l));
      OnPayment(w', u) ==> l.TakeJob? && WorkerId !in s.agents && w'.value.Probing?
  {
  }

  /** The worker, on this payment, reads, fails or dies. */
  lemma WorkerMovePays(maxAttempts: nat, s: State, t: Tally, l: Label, u: Uid)
    requires Sane(s, t.tainted, u) && OnPayment(WorkerOf(s), u)
    requires l.Probe? || l.Count? || (l.Fail? && l.id == WorkerId) || l.CrashAll?
    ensures Pays(maxAttempts, s, t, Step(maxAttempts, s, l), Observe(maxAttempts, s, t, l, u), u)
  {
    var s' := Step(maxAttempts, s, l);
    LedgerLeft(maxAttempts, s, l, u);
    KeepsOnlyWorker(maxAttempts, s, l, u);
    MovePays(maxAttempts, ViewOf(s, u), t.tainted, l, u);
    assert WorkerOf(s') == Moved(maxAttempts, ViewOf(s, u), l);
    PaysByView(maxAttempts, s, t, s', Observe(maxAttempts, s, t, l, u), u, ViewOf(s, u), ViewOf(s', u));
  }

  /** One step on inside the pipeline, or from its end to the settlement record. */
  predicate Forward(a: Agent, a': Agent) {
    || a' == a
    || (InPipeline(a) && InPipeline(a') && a'.job == a.job && a'.attempt == a.attempt && !a'.Checking?)
    || (a.Awaiting? && a'.Writing? && a'.job == a.job && a'.stage.Settling? && a'.done == 0)
  }

  lemma ForwardPays(maxAttempts: nat, v: View, a': Agent, tainted: bool, u: Uid)
    requires OnPayment(v.worker, u) && SaneView(v, tainted, u) && Forward(v.worker.value, a')
    ensures var v' := v.(worker := Some(a'));
      && SaneView(v', tainted, u)
      && Reserve(maxAttempts, v', tainted, 1, u) <= Reserve(maxAttempts, v, tainted, 1, u)
      && FullReserve(maxAttempts, v', tainted, u) <= FullReserve(maxAttempts, v, tainted, u)
  {
  }

  lemma QuietWorker(maxAttempts: nat, s: State, l: Label)
    requires WorkerId in s.agents && Safety.LeavesLedger(l)
    requires !l.Probe? && !l.Count? && !(l.Fail? && l.id == WorkerId) && !l.CrashAll?
    ensures var w' := WorkerOf(Step(maxAttempts, s, l)); w'.Some? && Forward(s.agents[WorkerId], w'.value)
  {
  }

  /** The remaining steps: the worker goes on inside its pipeline or stays where it is. */
  lemma QuietStepPays(maxAttempts: nat, s: State, t: Tally, l: Label, u: Uid)
    requires Sane(s, t.tainted, u) && OnPayment(WorkerOf(s), u) && !(l.Request? && l.job.uid == u)
    requires Safety.LeavesLedger(l) && !l.Probe? && !l.Count? && !(l.Fail? && l.id == WorkerId) && !l.CrashAll?
    ensures Pays(maxAttempts, s, t, Step(maxAttempts, s, l), Observe(maxAttempts, s, t, l, u), u)
  {
    var s' := Step(maxAttempts, s, l);
    LedgerLeft(maxAttempts, s, l, u);
    KeepsOnlyWorker(maxAttempts, s, l, u);
    QuietWorker(maxAttempts, s, l);
    ForwardPays(maxAttempts, ViewOf(s, u), WorkerOf(s').value, t.tainted, u);
    PaysByView(maxAttempts, s, t, s', Observe(maxAttempts, s, t, l, u), u, ViewOf(s, u), ViewOf(s', u));
  }

  lemma StepPays(maxAttempts: nat, s: State, t: Tally, l: Label, u: Uid)
    requires Safety.Inv(s) && Sane(s, t.tainted, u) && !(l.Request? && l.job.uid == u)
    ensures Pays(maxAttempts, s, t, Step(maxAttempts, s, l), Observe(maxAttempts, s, t, l, u), u)
  {
    if l.Write? {
      WriteStepPays(maxAttempts, s, t, l.id, l.ok, u);
    } else if l.RunLate? {
      RunLatePays(maxAttempts, s, t, l.stmt, u);
    } else if !OnPayment(WorkerOf(s), u) {
      ElsewherePays(maxAttempts, s, t, l, u);
    } else if l.Probe? || l.Count? || (l.Fail? && l.id == WorkerId) || l.CrashAll? {
      WorkerMovePays(maxAttempts, s, t, l, u);
    } else {
      QuietStepPays(maxAttempts, s, t, l, u);
    }
  }

  lemma {:induction false} RunPays(maxAttempts: nat, s: State, t: Tally, ls: seq<Label>, u: Uid)
    requires Safety.Inv(s) && Sane(s, t.tainted, u) && NoRequestFor(u, ls)
    ensures Pays(maxAttempts, s, t, Run(maxAttempts, s, ls), ObserveAll(maxAttempts, s, t, ls, u), u)
    decreases |ls|
  {
    if ls != [] {
      var s', t' := Step(maxAttempts, s, ls[0]), Observe(maxAttempts, s, t, ls[0], u);
      Safety.StepKeepsInv(maxAttempts, s, ls[0]);
      StepPays(maxAttempts, s, t, ls[0], u);
      RunPays(maxAttempts, s', t', ls[1..], u);
      PaysOn(maxAttempts, s, t, s', t', Run(maxAttempts, s, ls), ObserveAll(maxAttempts, s, t, ls, u), u);
    }
  }

  lemma PaysOn(maxAttempts: nat, s: State, t: Tally, s1: State, t1: Tally, s2: State, t2: Tally, u: Uid)
    requires Pays(maxAttempts, s, t, s1, t1, u) && Pays(maxAttempts, s1, t1, s2, t2, u)
    ensures Pays(maxAttempts, s, t, s2, t2, u)
  {
  }

  lemma InitiallyOwed(maxAttempts: nat, u: Uid)
    ensures Safety.Inv(INIT) && Sane(INIT, false, u)
    ensures Owed(maxAttempts, INIT, NO_TALLY, u) == OwedInFull(maxAttempts, INIT, NO_TALLY, u) == Budget(maxAttempts)
  {
    assert ViewOf(INIT, u) == View(None, 0, false);
  }

  /** In every run without a manual request for the payment, crashes, restarts and late statements included:
      two runs for every faulty one, and one for every late upsert that left the payment open. */
  lemma LateBudgetBound(maxAttempts: nat, ls: seq<Label>, u: Uid)
    requires NoRequestFor(u, ls)
    ensures var t := ObserveAll(maxAttempts, INIT, NO_TALLY, ls, u);
      t.runs <= Budget(maxAttempts) + 2 * t.faulty + t.late
  {
    InitiallyOwed(maxAttempts, u);
    RunPays(maxAttempts, INIT, NO_TALLY, ls, u);
  }

  /** In terms of the faulty runs alone: five runs for each, four with a budget of at most one attempt. */
  lemma FaultsBoundRuns(maxAttempts: nat, ls: seq<Label>, u: Uid)
    requires NoRequestFor(u, ls)
    ensures var t := ObserveAll(maxAttempts, INIT, NO_TALLY, ls, u);
      t.runs <= Budget(maxAttempts) + PerFault(maxAttempts) * t.faulty
  {
    InitiallyOwed(maxAttempts, u);
    RunPays(maxAttempts, INIT, NO_TALLY, ls, u);
    PaidInFull(maxAttempts, INIT, NO_TALLY, Run(maxAttempts, INIT, ls),
               ObserveAll(maxAttempts, INIT, NO_TALLY, ls, u), u);
  }

  lemma PaidInFull(maxAttempts: nat, s: State, t: Tally, s': State, t': Tally, u: Uid)
    requires Pays(maxAttempts, s, t, s', t', u) && t.faulty == 0
    ensures t'.runs <= OwedInFull(maxAttempts, s, t, u) + PerFault(maxAttempts) * t'.faulty
  {
  }

  // Closed payments.

  /** The payment is terminal, no operator is at work on it, and the worker at most looks at it or is in the
      middle of the record that closes it. */
  ghost predicate Closed(s: State, u: Uid) {
    OnlyWorker(s, u) && ClosedView(ViewOf(s, u), u)
  }

  predicate ClosedView(v: View, u: Uid) {
    v.terminal && (OnPayment(v.worker, u) ==>
                     v.worker.value.Probing? || (v.worker.value.Writing? && Closing(v.worker.value.stage)))
  }

  /** What can open a closed payment: a manual request, a late upsert, or a failed terminal probe. */
  predicate MayOpen(s: State, l: Label, u: Uid) {
    || (l.Request? && l.job.uid == u)
    || ReopensLate(s, l, u)
    || (l == Probe(ReadFailed) && OnPayment(WorkerOf(s), u) && WorkerOf(s).value.Probing?)
  }

  ghost predicate NothingOpens(maxAttempts: nat, s: State, ls: seq<Label>, u: Uid)
    decreases |ls|
  {
    ls != [] ==> !MayOpen(s, ls[0], u) && NothingOpens(maxAttempts, Step(maxAttempts, s, ls[0]), ls[1..], u)
  }

  /** Writes keep the view closed; a closed payment's only writer is the one closing it. */
  lemma WriteKeepsClosed(maxAttempts: nat, s: State, id: AgentId, ok: bool, u: Uid)
    requires Safety.Inv(s) && Closed(s, u)
    ensures ClosedView(ViewOf(Step(maxAttempts, s, Write(id, ok)), u), u)
    ensures !Enters(maxAttempts, s, Write(id, ok), u)
  {
    if id in s.agents && s.agents[id].Writing? {
      assert Safety.AgentOk(s, id, s.agents[id]);
      if s.agents[id].job.uid != u {
        OthersWrite(s, id, ok, u);
        OthersDoNotEnter(maxAttempts, s, id, ok, u);
        ClosedElsewhere(ViewOf(s, u), ViewOf(WriteStep(s, id, ok), u), u);
      } else {
        assert id == WorkerId;
        WorkerWrites(s, ok, u);
        WrittenStaysClosed(ViewOf(s, u), ok, u);
      }
    }
  }

  lemma ClosedElsewhere(v: View, v': View, u: Uid)
    requires ClosedView(v, u) && v'.terminal == v.terminal
    requires v'.worker == v.worker || !OnPayment(v'.worker, u)
    ensures ClosedView(v', u)
  {
  }

  lemma WrittenStaysClosed(v: View, ok: bool, u: Uid)
    requires ClosedView(v, u) && OnPayment(v.worker, u) && v.worker.value.Writing?
    ensures ClosedView(Written(v, ok), u) && !Entered(v, Written(v, ok))
  {
  }

  lemma MoveKeepsClosed(maxAttempts: nat, s: State, l: Label, u: Uid)
    requires Closed(s, u) && !MayOpen(s, l, u) && Safety.LeavesLedger(l)
    ensures ClosedView(ViewOf(Step(maxAttempts, s, l), u), u) && !Enters(maxAttempts, s, l, u)
  {
    LedgerLeft(maxAttempts, s, l, u);
    if !OnPayment(WorkerOf(s), u) {
      FromElsewhere(maxAttempts, s, l, u);
    } else if l.Probe? || l.Count? || (l.Fail? && l.id == WorkerId) || l.CrashAll? {
      assert WorkerOf(Step(maxAttempts, s, l)) == Moved(maxAttempts, ViewOf(s, u), l);
    } else {
      QuietWorker(maxAttempts, s, l);
    }
  }

  lemma StepKeepsClosed(maxAttempts: nat, s: State, l: Label, u: Uid)
    requires Safety.Inv(s) && Closed(s, u) && !MayOpen(s, l, u)
    ensures Closed(Step(maxAttempts, s, l), u) && !Enters(maxAttempts, s, l, u)
  {
    KeepsOnlyWorker(maxAttempts, s, l, u);
    if l.Write? {
      WriteKeepsClosed(maxAttempts, s, l.id, l.ok, u);
    } else if l.RunLate? {
      if l.stmt in s.late {
        ExecView(s.db, l.stmt, u);
      }
    } else {
      MoveKeepsClosed(maxAttempts, s, l, u);
    }
  }

  /** Over every interleaving, crashes and restarts included: a closed payment stays terminal and is never run
      again, unless one of the three happens to it. */
  lemma {:induction false} ClosedStaysClosed(maxAttempts: nat, s: State, t: Tally, ls: seq<Label>, u: Uid)
    requires Safety.Inv(s) && Closed(s, u) && NothingOpens(maxAttempts, s, ls, u)
    ensures Closed(Run(maxAttempts, s, ls), u) && ObserveAll(maxAttempts, s, t, ls, u).runs == t.runs
    decreases |ls|
  {
    if ls != [] {
      Safety.StepKeepsInv(maxAttempts, s, ls[0]);
      StepKeepsClosed(maxAttempts, s, ls[0], u);
      ClosedStaysClosed(maxAttempts, Step(maxAttempts, s, ls[0]), Observe(maxAttempts, s, t, ls[0], u), ls[1..], u);
    }
  }

  // Without faults nothing opens.

  /** No statement for the payment is late, and if it is terminal the worker at most looks at it or finishes
      the record that closed it. */
  ghost predicate Steady(s: State, u: Uid) {
    && OnlyWorker(s, u)
    && (forall stmt :: stmt in s.late ==> StmtUid(stmt) != u)
    && SteadyView(ViewOf(s, u), u)
  }

  predicate SteadyView(v: View, u: Uid) {
    v.terminal && OnPayment(v.worker, u) ==>
      var a := v.worker.value;
      a.Probing? || (a.Writing? && Closing(a.stage) && a.done > 0)
  }

  /** What a terminal payment keeps. */
  ghost predicate RowStays(s: State, s': State, u: Uid) {
    IsTerminal(s.db, u) ==> Lookup(s'.db.jobs, u) == Lookup(s.db.jobs, u)
  }

  lemma OtherStatement(db: Db, stmt: Stmt, u: Uid)
    requires StmtUid(stmt) != u || !stmt.UpsertJob?
    ensures Lookup(Exec(db, stmt).jobs, u) == Lookup(db.jobs, u)
  {
  }

  lemma WrittenStaysSteady(v: View, u: Uid)
    requires OnPayment(v.worker, u) && v.worker.value.Writing? && SteadyView(v, u)
    requires v.worker.value.done < |CallOf(v.worker.value.job, v.worker.value.stage)|
    ensures SteadyView(Written(v, true), u)
    ensures v.terminal ==> Written(v, true).terminal && v.worker.value.done > 0 && !Entered(v, Written(v, true))
  {
  }

  lemma WorkerWriteSteady(maxAttempts: nat, s: State, u: Uid)
    requires Steady(s, u) && OnPayment(WorkerOf(s), u) && WorkerOf(s).value.Writing?
    requires WorkerOf(s).value.done < |CallOf(WorkerOf(s).value.job, WorkerOf(s).value.stage)|
    ensures var l := Write(WorkerId, true);
      var s' := Step(maxAttempts, s, l);
      SteadyView(ViewOf(s', u), u) && RowStays(s, s', u) && s'.late == s.late
      && (IsTerminal(s.db, u) ==> !Enters(maxAttempts, s, l, u))
  {
    var a := WorkerOf(s).value;
    WorkerWrites(s, true, u);
    WrittenStaysSteady(ViewOf(s, u), u);
    StatementPayment(a.job, a.stage, a.done);
    if IsTerminal(s.db, u) {
      OtherStatement(s.db, CallOf(a.job, a.stage)[a.done], u);
    }
  }

  /** A write for another payment leaves this one's view and row alone. */
  lemma OthersWriteSteady(s: State, id: AgentId, ok: bool, u: Uid)
    requires SteadyView(ViewOf(s, u), u) && id in s.agents && s.agents[id].Writing? && s.agents[id].job.uid != u
    requires s.agents[id].done < |CallOf(s.agents[id].job, s.agents[id].stage)|
    ensures SteadyView(ViewOf(WriteStep(s, id, ok), u), u) && RowStays(s, WriteStep(s, id, ok), u)
  {
    var a := s.agents[id];
    OthersWrite(s, id, ok, u);
    StatementPayment(a.job, a.stage, a.done);
    OtherStatement(s.db, CallOf(a.job, a.stage)[a.done], u);
  }

  lemma OthersWriteLate(s: State, id: AgentId, ok: bool, u: Uid)
    requires id in s.agents && s.agents[id].Writing? && s.agents[id].job.uid != u
    requires s.agents[id].done < |CallOf(s.agents[id].job, s.agents[id].stage)|
    requires forall stmt :: stmt in s.late ==> StmtUid(stmt) != u
    ensures forall stmt :: stmt in WriteStep(s, id, ok).late ==> StmtUid(stmt) != u
  {
    var a := s.agents[id];
    StatementPayment(a.job, a.stage, a.done);
  }

  lemma OthersDoNotEnter(maxAttempts: nat, s: State, id: AgentId, ok: bool, u: Uid)
    requires id in s.agents && s.agents[id].job.uid != u
    ensures !Enters(maxAttempts, s, Write(id, ok), u)
  {
  }

  lemma WriteSteady(maxAttempts: nat, s: State, id: AgentId, ok: bool, u: Uid)
    requires Safety.Inv(s) && Steady(s, u) && !Faults(s, Write(id, ok), u)
    ensures var l := Write(id, ok);
      var s' := Step(maxAttempts, s, l);
      Steady(s', u) && RowStays(s, s', u) && (IsTerminal(s.db, u) ==> !Enters(maxAttempts, s, l, u))
  {
    KeepsOnlyWorker(maxAttempts, s, Write(id, ok), u);
    if id in s.agents && s.agents[id].Writing? {
      assert Safety.AgentOk(s, id, s.agents[id]);
      if s.agents[id].job.uid != u {
        OthersWriteSteady(s, id, ok, u);
        OthersWriteLate(s, id, ok, u);
        OthersDoNotEnter(maxAttempts, s, id, ok, u);
      } else {
        assert id == WorkerId && ok;
        WorkerWriteSteady(maxAttempts, s, u);
      }
    }
  }

  lemma LateSteady(maxAttempts: nat, s: State, stmt: Stmt, u: Uid)
    requires Steady(s, u)
    ensures var l := RunLate(stmt);
      var s' := Step(maxAttempts, s, l);
      Steady(s', u) && RowStays(s, s', u) && !Enters(maxAttempts, s, l, u)
  {
    KeepsOnlyWorker(maxAttempts, s, RunLate(stmt), u);
    if stmt in s.late {
      ExecView(s.db, stmt, u);
      OtherStatement(s.db, stmt, u);
    }
  }

  lemma MoveSteady(maxAttempts: nat, s: State, l: Label, u: Uid)
    requires Steady(s, u) && !Faults(s, l, u) && !(l.Request? && l.job.uid == u) && Safety.LeavesLedger(l)
    ensures var s' := Step(maxAttempts, s, l);
      Steady(s', u) && RowStays(s, s', u) && (IsTerminal(s.db, u) ==> !Enters(maxAttempts, s, l, u))
  {
    KeepsOnlyWorker(maxAttempts, s, l, u);
    LedgerLeft(maxAttempts, s, l, u);
    Safety.LedgerUntouched(maxAttempts, s, l);
    if !OnPayment(WorkerOf(s), u) {
      FromElsewhere(maxAttempts, s, l, u);
    } else if l.Probe? || l.Count? || (l.Fail? && l.id == WorkerId) {
      assert WorkerOf(Step(maxAttempts, s, l)) == Moved(maxAttempts, ViewOf(s, u), l);
    } else {
      QuietWorker(maxAttempts, s, l);
    }
  }

  lemma StepSteady(maxAttempts: nat, s: State, l: Label, u: Uid)
    requires Safety.Inv(s) && Steady(s, u) && !Faults(s, l, u) && !(l.Request? && l.job.uid == u)
    ensures var s' := Step(maxAttempts, s, l);
      Steady(s', u) && RowStays(s, s', u) && (IsTerminal(s.db, u) ==> !Enters(maxAttempts, s, l, u))
  {
    if l.Write? {
      WriteSteady(maxAttempts, s, l.id, l.ok, u);
    } else if l.RunLate? {
      LateSteady(maxAttempts, s, l.stmt, u);
    } else {
      MoveSteady(maxAttempts, s, l, u);
    }
  }

  lemma {:induction false} FaultyGrows(maxAttempts: nat, s: State, t: Tally, ls: seq<Label>, u: Uid)
    ensures ObserveAll(maxAttempts, s, t, ls, u).faulty >= t.faulty
    decreases |ls|
  {
    if ls != [] {
      FaultyGrows(maxAttempts, Step(maxAttempts, s, ls[0]), Observe(maxAttempts, s, t, ls[0], u), ls[1..], u);
    }
  }

  /** A stretch in which the payment's runs meet no fault keeps it steady and, once terminal, unchanged. */
  lemma {:induction false} RunSteady(maxAttempts: nat, s: State, t: Tally, ls: seq<Label>, u: Uid)
    requires Safety.Inv(s) && Steady(s, u) && NoRequestFor(u, ls) && !t.tainted
    requires ObserveAll(maxAttempts, s, t, ls, u).faulty == t.faulty
    ensures var s', t' := Run(maxAttempts, s, ls), ObserveAll(maxAttempts, s, t, ls, u);
      Steady(s', u) && !t'.tainted && RowStays(s, s', u) && (IsTerminal(s.db, u) ==> t'.runs == t.runs)
    decreases |ls|
  {
    if ls != [] {
      var s1, t1 := Step(maxAttempts, s, ls[0]), Observe(maxAttempts, s, t, ls[0], u);
      FaultyGrows(maxAttempts, s1, t1, ls[1..], u);
      Safety.StepKeepsInv(maxAttempts, s, ls[0]);
      StepSteady(maxAttempts, s, ls[0], u);
      RunSteady(maxAttempts, s1, t1, ls[1..], u);
    }
  }

  lemma {:induction false} ObserveConcat(maxAttempts: nat, s: State, t: Tally, a: seq<Label>, b: seq<Label>, u: Uid)
    ensures ObserveAll(maxAttempts, s, t, a + b, u)
         == ObserveAll(maxAttempts, Run(maxAttempts, s, a), ObserveAll(maxAttempts, s, t, a, u), b, u)
    decreases |a|
  {
    if a == [] {
      assert a + b == b;
    } else {
      assert (a + b)[0] == a[0] && (a + b)[1..] == a[1..] + b;
      ObserveConcat(maxAttempts, Step(maxAttempts, s, a[0]), Observe(maxAttempts, s, t, a[0], u), a[1..], b, u);
    }
  }

  /** Without faults in the payment's own runs and without a manual request for it, terminal is absorbing over
      every interleaving: whatever other payments, their operators and their faults do, late statements
      included, a terminal payment's row never changes and it never runs again. */
  lemma TerminalIsAbsorbingWithoutFaults(maxAttempts: nat, before: seq<Label>, after: seq<Label>, u: Uid)
    requires NoRequestFor(u, before + after)
    requires ObserveAll(maxAttempts, INIT, NO_TALLY, before + after, u).faulty == 0
    requires IsTerminal(Run(maxAttempts, INIT, before).db, u)
    ensures var s, s' := Run(maxAttempts, INIT, before), Run(maxAttempts, INIT, before + after);
      && IsTerminal(s'.db, u) && Lookup(s'.db.jobs, u) == Lookup(s.db.jobs, u)
      && ObserveAll(maxAttempts, INIT, NO_TALLY, before + after, u).runs
         == ObserveAll(maxAttempts, INIT, NO_TALLY, before, u).runs
  {
    var s, t := Run(maxAttempts, INIT, before), ObserveAll(maxAttempts, INIT, NO_TALLY, before, u);
    RunConcat(maxAttempts, INIT, before, after);
    ObserveConcat(maxAttempts, INIT, NO_TALLY, before, after, u);
    FaultyGrows(maxAttempts, INIT, NO_TALLY, before, u);
    FaultyGrows(maxAttempts, s, t, after, u);
    NoRequestInParts(u, before, after);
    InitiallyOwed(maxAttempts, u);
    RunSteady(maxAttempts, INIT, NO_TALLY, before, u);
    Safety.RunKeepsInv(maxAttempts, INIT, before);
    RunSteady(maxAttempts, s, t, after, u);
    SameRowSameStatus(s.db, Run(maxAttempts, s, after).db, u);
  }

  lemma NoRequestInParts(u: Uid, a: seq<Label>, b: seq<Label>)
    requires NoRequestFor(u, a + b)
    ensures NoRequestFor(u, a) && NoRequestFor(u, b)
  {
    forall l | l in a || l in b
      ensures !(l.Request? && l.job.uid == u)
    {
      assert l in a + b;
    }
  }

  lemma SameRowSameStatus(db: Db, db': Db, u: Uid)
    requires IsTerminal(db, u) && Lookup(db'.jobs, u) == Lookup(db.jobs, u)
    ensures IsTerminal(db', u)
  {
  }
}
